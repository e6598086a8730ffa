# Fabric-length pricing: cart transform and shop configuration

A Shopify app lets a merchant configure a unit of measurement and a price
per unit. It also ships a cart-transform function. At checkout the function
reprices every product-variant cart line whose `fabricLength` attribute has a
present, non-empty value. This project models the two parts of the app that
make decisions, and proves properties of the model:

- **The cart transform** (`CartTransform`, `cart_transform.dfy`). The
  platform calls `run` with a cart snapshot. `run` folds over the cart lines.
  A line qualifies when its merchandise is a `ProductVariant` and it carries a
  `fabricLength` attribute whose value is present and non-empty. Each
  qualifying line yields one `update` operation. That operation sets the
  line's fixed price per unit to the attribute's value, kept as an opaque
  string. When no line qualifies, `run` returns the canonical
  `NO_CHANGES = { operations: [] }`. The model is pure. `Reduce` is the
  source's `reduce`. `Updates` is an independent reference definition, and
  `ReduceIsUpdates` proves the two equal. `QualifyingIndices` lists the
  positions of the qualifying lines. It is used to state the one-to-one,
  order-preserving correspondence between operations and qualifying lines.
- **The shop configuration store** (`ShopConfig`, `shop_config.dfy`). The
  table is a sequence of rows `{shop, UnitsOfMeasurement,
  UnitsOfMeasurementPrice}`. `FindFirst` is Prisma's `findFirst` by shop, as
  used by the page `loader`. The class `UnitsOfMeasurementDb` holds the table.
  Its methods `UpdateMany` and `Create` change the table in place. `Action` is
  the page `action`: a read-then-write upsert, checked against the pure
  state transformer `Save`. The lemmas about `Save` cover the create path, the
  update path, the frame, lookup after a save, last write wins, and keeping
  shops unique.
- **The admin form** (`AdminForm`, `admin_form.dfy`). This part holds the
  unit options with the `"uom"` placeholder and the initial form state built
  with JavaScript `||`. It also holds the emptiness check that `handleSubmit`
  makes before posting.

`wrappers.dfy` defines `Option`, which stands for JavaScript's `null` or
`undefined` versus a present value. A falsy `shop` is the empty string.

Where the code and its comments disagree, the model follows the code. The
header comment of `run.js` describes bundle expansion; the code only reprices
lines.

Three facts about the code shape the configuration model:

- Nothing in the code keeps one row per shop: there is no unique constraint,
  transaction or retry, only `findFirst` followed by `updateMany` or
  `create`. So the table is a sequence that may hold several rows per shop.
  `SavePreservesUniqueShops` shows that sequential saves keep one row per
  shop when the table starts that way.
- The page disables the price field while `"uom"` is selected
  (app/routes/app._index.jsx:210). The check itself still accepts `"uom"`
  with a non-empty price (`PlaceholderNotRejected`), so a price typed before
  the placeholder was selected again passes, and the action saves it like
  any other row.
- Prisma's `findFirst` without `orderBy` returns the database's first
  matching row; the model takes that order to be the order of the sequence.

## Model

| member | source | states |
|---|---|---|
| `CartTransform.OptionallyBuildUpdateOperation` | extensions/cart-transformer/src/run.js:52-76 | yields an update exactly when the line qualifies (a variant with a present, non-empty `fabricLength.value`); that update targets the line's id and sets the attribute's value as the fixed price per unit |
| `CartTransform.Step` | extensions/cart-transformer/src/run.js:35-45 | the reducer appends the line's update to the accumulator when the line qualifies, and otherwise returns the accumulator unchanged |
| `CartTransform.Updates` | extensions/cart-transformer/src/run.js:33-47 | reference operations for a list of lines; there are never more operations than lines |
| `CartTransform.ReduceIsUpdates` | extensions/cart-transformer/src/run.js:33-47 | the `reduce` from any accumulator equals that accumulator followed by the reference operations |
| `CartTransform.Run` | extensions/cart-transformer/src/run.js:28-50 | the operations of `run` are exactly the reference operations of the cart's lines |
| `CartTransform.UpdatesAppend` | extensions/cart-transformer/src/run.js:33-47 | the operations of two concatenated line lists are those of the first list followed by those of the second, so each line contributes independently and in order |
| `CartTransform.QualifyingIndicesSelect` | extensions/cart-transformer/src/run.js:54-59 | `QualifyingIndices` lists every qualifying line position and only those, in strictly increasing order |
| `CartTransform.UpdatesAtIndices` | extensions/cart-transformer/src/run.js:40-44 | there are as many operations as qualifying lines, and operation k is the update for the k-th qualifying line |
| `CartTransform.UpdatesIndexed` | extensions/cart-transformer/src/run.js:33-47 | the two halves together: the operations are the filtered-and-mapped lines, one to one and in order; non-qualifying lines contribute nothing |
| `CartTransform.UpdatesEmptyIff` | extensions/cart-transformer/src/run.js:40-44 | there are no operations exactly when no line qualifies |
| `CartTransform.NoChangesIffNoneQualify` | extensions/cart-transformer/src/run.js:49 | `run` returns `NO_CHANGES` exactly when no line qualifies; otherwise its operation list is non-empty |
| `CartTransform.DistinctLineIds` | extensions/cart-transformer/src/run.js:63-64 | when line ids are distinct, no two operations target the same `cartLineId` |
| `CartTransform.LineRepricedIffQualifies` | extensions/cart-transformer/src/run.js:54-59 | when ids are distinct, a line receives an operation exactly when it qualifies, and any operation for it sets its attribute value |
| `CartTransform.UpdatesIgnoreCostAndQuantity` | extensions/cart-transformer/src/run.js:52-73 | line lists that differ only in `cost` and `quantity` give the same operations |
| `CartTransform.RunIgnoresCostAndQuantity` | extensions/cart-transformer/src/run.js:52-73 | a line's `cost` and `quantity` never influence the result of `run` |
| `CartTransform.OrderPreserved` | extensions/cart-transformer/src/run.js:33-47 | for qualifying lines X before Y, the update for X comes before the update for Y |
| `CartTransform.SelectiveApplicationExample` | extensions/cart-transformer/src/run.js:52-75 | for a cart of a variant with "12.50", a variant without the attribute and a non-variant with "5", the result is one update, for the first line, at "12.50" |
| `CartTransform.EmptyValueNotRepriced` | extensions/cart-transformer/src/run.js:54 | an attribute whose value is the empty string is falsy, so the line is not repriced and the result is `NO_CHANGES` |
| `ShopConfig.FindFirst` | app/routes/app._index.jsx:60-63 | returns a row exactly when the table has a row for the shop; the row returned is the first row of that shop |
| `ShopConfig.FindFirstAt` | app/routes/app._index.jsx:60-63 | whichever row is the first of the shop is the one `findFirst` returns |
| `ShopConfig.Loader` | app/routes/app._index.jsx:24-27 | the page lookup returns a row exactly when the table has a row for the shop, and the row returned is the shop's first |
| `ShopConfig.Overwrite` | app/routes/app._index.jsx:66-74 | `updateMany` keeps the length and every row's shop; rows of other shops are unchanged, and every row of the shop becomes `{shop, unit, price}` |
| `ShopConfig.UnitsOfMeasurementDb.UpdateMany` | app/routes/app._index.jsx:66-74 | the stored table becomes the `updateMany` of the old table |
| `ShopConfig.UnitsOfMeasurementDb.Create` | app/routes/app._index.jsx:76-82 | the stored table becomes the old table with the new row appended, and the created row is returned |
| `ShopConfig.Action` | app/routes/app._index.jsx:55-91 | the new table is the `Save` of the old one, unchanged for a falsy shop; the returned `data` is the created row exactly on the create path, and absent otherwise |
| `ShopConfig.SaveCreatesOneRecord` | app/routes/app._index.jsx:75-82 | with no row for the shop, a save appends exactly one row, `{shop, unit, price}`, which is then the shop's only row |
| `ShopConfig.SaveUpdatesInPlace` | app/routes/app._index.jsx:65-74 | with a row for the shop, a save keeps the table length and the shop's row count, and every row of the shop carries the new unit and price |
| `ShopConfig.SaveLeavesOtherShops` | app/routes/app._index.jsx:66-82 | rows of other shops keep their position and content, and the row counts and lookups of every other shop are unchanged |
| `ShopConfig.SaveThenFind` | app/routes/app._index.jsx:59-84 | after a save for a non-empty shop, `findFirst` for that shop returns exactly `{shop, unit, price}` |
| `ShopConfig.SaveLastWriteWins` | app/routes/app._index.jsx:59-84 | two saves in a row for one shop leave the same table as the second save alone |
| `ShopConfig.SaveTwiceFromNoRecord` | app/routes/app._index.jsx:59-84 | starting with no row for the shop, two saves leave exactly one row for it, holding the second values |
| `ShopConfig.SavePreservesUniqueShops` | app/routes/app._index.jsx:59-84 | a table with at most one row per shop still has at most one row per shop after a save |
| `AdminForm.InitialForm` | app/routes/app._index.jsx:109-120 | the initial unit is never empty: it is the loaded unit, or exactly the `"uom"` placeholder when no row was loaded or its unit is empty; the initial price is the loaded price, or empty |
| `AdminForm.ValidationMessage` | app/routes/app._index.jsx:143-148 | a submission is refused, with "Please fill out all fields.", exactly when the unit or the price is empty |
| `AdminForm.OptionValuesNonEmpty` | app/routes/app._index.jsx:122-129 | no option of the unit select has an empty value, so a selected unit never fails the check |
| `AdminForm.PlaceholderNotRejected` | app/routes/app._index.jsx:118-148 | the `"uom"` placeholder passes the check whenever a price is typed |
| `AdminForm.InitialFormAcceptedIff` | app/routes/app._index.jsx:117-148 | the untouched initial form passes the check exactly when a row with a non-empty price was loaded |
| `AdminForm.SavedFormReloads` | app/routes/app._index.jsx:109-120 | a form that passes the check, once saved for a shop, is exactly the initial form the page shows when next loaded |

## Left out

- Authentication (`authenticate.admin`), `request.formData()` parsing, the JSON response envelopes (`statusCode`, `success`, `message`) and the `try`/`catch` 500 paths are framework and transport concerns. `Action` returns only the envelope's `data`.
- If a form field is absent from the posted body, JavaScript sees it as `undefined`, and Prisma's handling of that depends on the database schema. The schema is not part of this model. The model takes both fields as strings, which is what the page's own form always posts.
- The Prisma rows may also hold generated columns, such as an id, that the schema would declare. The model keeps only the three columns the code reads and writes.
- Concurrent saves are not modelled. The code has no unique constraint, transaction or retry, so the model treats each save as one sequential step and claims no concurrency guarantee.
- `Loader` is the lookup only. `app/routes/api.setPriceDynamic/route.jsx` repeats the same `findFirst` from a query parameter behind a CORS wrapper. It is HTTP glue, and the null-shop case of its query parameter is not part of this model.
- `app/shopify.server.js` is not part of this model. It builds the app configuration from environment variables and registers the cart transform with a fire-and-forget GraphQL `fetch` that only logs. That is network I/O with no decision logic.
- The React rendering is not modelled. This covers `useState` banners, disabling the price field while the placeholder is selected, `submit()`, and the banner chosen from the asynchronous `actionData` after submit.
- The `console.log` in `run.js` is output only and is not modelled.
- The configured `UnitsOfMeasurementPrice` is never read by `run`, and amounts and prices are not interpreted as numbers. The model keeps both as opaque strings and adds no link between them.
