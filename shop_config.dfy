/**
 * The shop configuration store behind the admin page (`app/routes/app._index.jsx`).
 *
 * The table `unitsOfMeasurementDB` holds rows `{ shop, UnitsOfMeasurement,
 * UnitsOfMeasurementPrice }`. The page's `loader` looks up the first row of the
 * current shop; its `action` saves the submitted unit and price with a
 * read-then-write upsert: `findFirst` by shop, then either `updateMany` over
 * every row of that shop or `create` of one new row. Nothing in the table
 * forces one row per shop, so the model keeps the table as an ordered sequence.
 */
module ShopConfig {
  import opened Wrappers

  /** One row of `unitsOfMeasurementDB`; unit and price are opaque strings. */
  datatype UnitsRecord = UnitsRecord(shop: string, unitsOfMeasurement: string, unitsOfMeasurementPrice: string)

  /** Some row of `rows` belongs to `shop`. */
  predicate HasShop(rows: seq<UnitsRecord>, shop: string) {
    exists i :: 0 <= i < |rows| && rows[i].shop == shop
  }

  /** Row `i` is the first row of `shop`. */
  predicate FirstAt(rows: seq<UnitsRecord>, shop: string, i: int) {
    && 0 <= i < |rows|
    && rows[i].shop == shop
    && forall j :: 0 <= j < i ==> rows[j].shop != shop
  }

  /** `findFirst({ where: { shop } })`: the first row of `shop`, or `null`. */
  function FindFirst(rows: seq<UnitsRecord>, shop: string): (r: Option<UnitsRecord>)
    ensures r.Some? <==> HasShop(rows, shop)
    ensures r.Some? ==> r.value.shop == shop && exists i :: FirstAt(rows, shop, i) && rows[i] == r.value
  {
    if rows == [] then None
    else if rows[0].shop == shop then
      assert FirstAt(rows, shop, 0);
      Some(rows[0])
    else
      var r := FindFirst(rows[1..], shop);
      assert HasShop(rows, shop) ==> HasShop(rows[1..], shop) by {
        if HasShop(rows, shop) {
          var i :| 0 <= i < |rows| && rows[i].shop == shop;
          assert rows[1..][i - 1] == rows[i];
        }
      }
      assert r.Some? ==> exists i :: FirstAt(rows, shop, i) && rows[i] == r.value by {
        if r.Some? {
          var i :| FirstAt(rows[1..], shop, i) && rows[1..][i] == r.value;
          assert FirstAt(rows, shop, i + 1);
        }
      }
      r
  }

  /** Whatever row is first for `shop` is what `findFirst` returns. */
  lemma FindFirstAt(rows: seq<UnitsRecord>, shop: string, i: int)
    requires FirstAt(rows, shop, i)
    ensures FindFirst(rows, shop) == Some(rows[i])
  {
  }

  /** `updateMany({ where: { shop }, data })`: every row of `shop` takes the new unit and price. */
  function Overwrite(rows: seq<UnitsRecord>, shop: string, unit: string, price: string): (r: seq<UnitsRecord>)
    ensures |r| == |rows|
    ensures forall i :: 0 <= i < |rows| ==> r[i].shop == rows[i].shop
    ensures forall i :: 0 <= i < |rows| && rows[i].shop != shop ==> r[i] == rows[i]
    ensures forall i :: 0 <= i < |rows| && rows[i].shop == shop ==> r[i] == UnitsRecord(shop, unit, price)
  {
    if rows == [] then []
    else
      var head := if rows[0].shop == shop then rows[0].(unitsOfMeasurement := unit, unitsOfMeasurementPrice := price) else rows[0];
      [head] + Overwrite(rows[1..], shop, unit, price)
  }

  /**
   * The table after the `action` saves `unit` and `price` for `shop`: nothing
   * when `shop` is falsy, an update of the shop's rows when `findFirst` finds
   * one, otherwise the table with one created row appended.
   */
  function Save(rows: seq<UnitsRecord>, shop: string, unit: string, price: string): seq<UnitsRecord> {
    if shop == "" then rows
    else
      match FindFirst(rows, shop)
      case Some(existing) => Overwrite(rows, existing.shop, unit, price)
      case None => rows + [UnitsRecord(shop, unit, price)]
  }

  /** The number of rows of `shop`. */
  function CountShop(rows: seq<UnitsRecord>, shop: string): (n: nat)
    ensures n <= |rows|
    ensures n == 0 <==> !HasShop(rows, shop)
  {
    if rows == [] then 0
    else
      var n := (if rows[0].shop == shop then 1 else 0) + CountShop(rows[1..], shop);
      assert HasShop(rows, shop) <==> rows[0].shop == shop || HasShop(rows[1..], shop) by {
        if HasShop(rows, shop) && rows[0].shop != shop {
          var i :| 0 <= i < |rows| && rows[i].shop == shop;
          assert rows[1..][i - 1] == rows[i];
        }
        if HasShop(rows[1..], shop) {
          var i :| 0 <= i < |rows[1..]| && rows[1..][i].shop == shop;
          assert rows[i + 1].shop == shop;
        }
      }
      n
  }

  /** Counting distributes over appending. */
  lemma {:induction false} CountShopAppend(a: seq<UnitsRecord>, b: seq<UnitsRecord>, shop: string)
    ensures CountShop(a + b, shop) == CountShop(a, shop) + CountShop(b, shop)
  {
    if a != [] {
      assert (a + b)[1..] == a[1..] + b;
      CountShopAppend(a[1..], b, shop);
    } else {
      assert a + b == b;
    }
  }

  /** Two tables whose rows have the same shops, in order, have the same counts. */
  lemma {:induction false} CountShopSameShops(a: seq<UnitsRecord>, b: seq<UnitsRecord>, shop: string)
    requires |a| == |b| && forall i :: 0 <= i < |a| ==> a[i].shop == b[i].shop
    ensures CountShop(a, shop) == CountShop(b, shop)
  {
    if a != [] {
      CountShopSameShops(a[1..], b[1..], shop);
    }
  }

  // ---------------------------------------------------------------------------
  // Properties of a save
  // ---------------------------------------------------------------------------

  /** Create path: with no row for `shop`, a save appends exactly one row, the shop's only one. */
  lemma SaveCreatesOneRecord(rows: seq<UnitsRecord>, shop: string, unit: string, price: string)
    requires shop != "" && !HasShop(rows, shop)
    ensures Save(rows, shop, unit, price) == rows + [UnitsRecord(shop, unit, price)]
    ensures |Save(rows, shop, unit, price)| == |rows| + 1
    ensures CountShop(Save(rows, shop, unit, price), shop) == 1
  {
    CountShopAppend(rows, [UnitsRecord(shop, unit, price)], shop);
  }

  /**
   * Update path: with a row for `shop`, a save rewrites unit and price on
   * every row of `shop` and inserts nothing.
   */
  lemma SaveUpdatesInPlace(rows: seq<UnitsRecord>, shop: string, unit: string, price: string)
    requires shop != "" && HasShop(rows, shop)
    ensures |Save(rows, shop, unit, price)| == |rows|
    ensures CountShop(Save(rows, shop, unit, price), shop) == CountShop(rows, shop)
    ensures forall i :: 0 <= i < |rows| && rows[i].shop == shop ==>
      Save(rows, shop, unit, price)[i] == UnitsRecord(shop, unit, price)
  {
    CountShopSameShops(Save(rows, shop, unit, price), rows, shop);
  }

  /** Rows of other shops keep their place and content, and lookups for other shops are unchanged. */
  lemma SaveLeavesOtherShops(rows: seq<UnitsRecord>, shop: string, unit: string, price: string, other: string)
    requires other != shop
    ensures var after := Save(rows, shop, unit, price);
      && |rows| <= |after|
      && (forall i :: 0 <= i < |rows| && rows[i].shop != shop ==> after[i] == rows[i])
      && CountShop(after, other) == CountShop(rows, other)
      && FindFirst(after, other) == FindFirst(rows, other)
  {
    var after := Save(rows, shop, unit, price);
    if shop != "" && !HasShop(rows, shop) {
      CountShopAppend(rows, [UnitsRecord(shop, unit, price)], other);
    } else if shop != "" {
      CountShopSameShops(after, rows, other);
    }
    assert forall j :: 0 <= j < |rows| ==> after[j].shop == rows[j].shop;
    var found := FindFirst(rows, other);
    if found.Some? {
      var i :| FirstAt(rows, other, i) && rows[i] == found.value;
      assert FirstAt(after, other, i);
      FindFirstAt(after, other, i);
    }
  }

  /** After a save for a non-empty shop, the lookup returns exactly the saved unit and price. */
  lemma SaveThenFind(rows: seq<UnitsRecord>, shop: string, unit: string, price: string)
    requires shop != ""
    ensures FindFirst(Save(rows, shop, unit, price), shop) == Some(UnitsRecord(shop, unit, price))
  {
    var after := Save(rows, shop, unit, price);
    var found := FindFirst(rows, shop);
    if found.Some? {
      var i :| FirstAt(rows, shop, i) && rows[i] == found.value;
      assert FirstAt(after, shop, i);
      FindFirstAt(after, shop, i);
    } else {
      assert FirstAt(after, shop, |rows|);
      FindFirstAt(after, shop, |rows|);
    }
  }

  /** Last write wins: saving twice for one shop is saving once with the second values. */
  lemma SaveLastWriteWins(rows: seq<UnitsRecord>, shop: string, unit1: string, price1: string, unit2: string, price2: string)
    ensures Save(Save(rows, shop, unit1, price1), shop, unit2, price2) == Save(rows, shop, unit2, price2)
  {
    if shop != "" {
      var once := Save(rows, shop, unit1, price1);
      SaveThenFind(rows, shop, unit1, price1);
      assert HasShop(once, shop);
      if !HasShop(rows, shop) {
        var rec2 := UnitsRecord(shop, unit2, price2);
        var twice := Save(once, shop, unit2, price2);
        assert |twice| == |rows| + 1;
        forall i | 0 <= i < |rows| + 1
          ensures twice[i] == (rows + [rec2])[i]
        {
          if i < |rows| {
            assert rows[i].shop != shop;
          }
        }
      }
    }
  }

  /** Saving twice for a shop with no row leaves exactly one row for it, with the second values. */
  lemma SaveTwiceFromNoRecord(rows: seq<UnitsRecord>, shop: string, unit1: string, price1: string, unit2: string, price2: string)
    requires shop != "" && !HasShop(rows, shop)
    ensures var twice := Save(Save(rows, shop, unit1, price1), shop, unit2, price2);
      && CountShop(twice, shop) == 1
      && FindFirst(twice, shop) == Some(UnitsRecord(shop, unit2, price2))
  {
    SaveLastWriteWins(rows, shop, unit1, price1, unit2, price2);
    SaveCreatesOneRecord(rows, shop, unit2, price2);
    SaveThenFind(rows, shop, unit2, price2);
  }

  /** No two rows share a shop. */
  predicate UniqueShops(rows: seq<UnitsRecord>) {
    forall i, j :: 0 <= i < j < |rows| ==> rows[i].shop != rows[j].shop
  }

  /** Sequential saves keep a table that has one row per shop that way. */
  lemma SavePreservesUniqueShops(rows: seq<UnitsRecord>, shop: string, unit: string, price: string)
    requires UniqueShops(rows)
    ensures UniqueShops(Save(rows, shop, unit, price))
  {
  }

  // ---------------------------------------------------------------------------
  // The table as the server holds it
  // ---------------------------------------------------------------------------

  /** The `unitsOfMeasurementDB` table of the database client. */
  class UnitsOfMeasurementDb {
    var rows: seq<UnitsRecord>

    constructor (initial: seq<UnitsRecord>)
      ensures rows == initial
    {
      rows := initial;
    }

    /** `updateMany`: overwrite unit and price on every row of `shop`. */
    method UpdateMany(shop: string, unit: string, price: string)
      modifies this
      ensures rows == Overwrite(old(rows), shop, unit, price)
    {
      rows := Overwrite(rows, shop, unit, price);
    }

    /** `create`: append one row and return it. */
    method Create(data: UnitsRecord) returns (created: UnitsRecord)
      modifies this
      ensures rows == old(rows) + [data]
      ensures created == data
    {
      rows := rows + [data];
      created := data;
    }
  }

  /**
   * The `loader` lookup: the first configuration row of the session's shop,
   * if any. Without `orderBy`, `findFirst` takes the database's row order,
   * which the sequence stands for.
   */
  function Loader(db: UnitsOfMeasurementDb, shop: string): (r: Option<UnitsRecord>)
    reads db
    ensures r.Some? <==> HasShop(db.rows, shop)
    ensures r.Some? ==> r.value.shop == shop && exists i :: FirstAt(db.rows, shop, i) && db.rows[i] == r.value
  {
    FindFirst(db.rows, shop)
  }

  /**
   * The `action`: save `unit` and `price` for the session's shop. The result
   * is the response's `data`: the created row on the create path, absent on
   * the update path and when `shop` is falsy.
   */
  method Action(db: UnitsOfMeasurementDb, shop: string, unit: string, price: string) returns (data: Option<UnitsRecord>)
    modifies db
    ensures db.rows == Save(old(db.rows), shop, unit, price)
    ensures shop == "" ==> db.rows == old(db.rows)
    ensures data.Some? <==> shop != "" && !HasShop(old(db.rows), shop)
    ensures data.Some? ==> data.value == UnitsRecord(shop, unit, price)
  {
    data := None;
    if shop != "" {
      var existing := FindFirst(db.rows, shop);
      if existing.Some? {
        db.UpdateMany(existing.value.shop, unit, price);
      } else {
        var created := db.Create(UnitsRecord(shop, unit, price));
        data := Some(created);
      }
    }
  }
}
