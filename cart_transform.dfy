/**
 * The cart-transform function (`extensions/cart-transformer/src/run.js`).
 *
 * The platform hands the function a snapshot of the cart; the function answers
 * with one `update` operation per line whose merchandise is a product variant
 * and which carries a non-empty `fabricLength` attribute. The operation sets
 * the line's fixed price per unit to the attribute's value, passed through as
 * an opaque string. Nothing else of the line is read.
 */
module CartTransform {
  import opened Wrappers

  // ---------------------------------------------------------------------------
  // Input: RunInput { cart { lines } }
  // ---------------------------------------------------------------------------

  /** `merchandise.__typename`, closed to the one kind the function tests for. */
  datatype Merchandise = ProductVariant | Other

  /** The `fabricLength` custom attribute; its `value` may be null. */
  datatype Attribute = Attribute(value: Option<string>)

  /**
   * One cart line. `cost` and `quantity` stand for the fields of a line that
   * the function receives but never reads; `fabricLength` is absent when the
   * line carries no such attribute.
   */
  datatype CartLine = CartLine(
    id: string,
    quantity: int,
    merchandise: Merchandise,
    cost: string,
    fabricLength: Option<Attribute>)

  datatype Cart = Cart(lines: seq<CartLine>)

  datatype RunInput = RunInput(cart: Cart)

  // ---------------------------------------------------------------------------
  // Output: FunctionRunResult { operations: [{ update: ... }] }
  // ---------------------------------------------------------------------------

  datatype FixedPricePerUnit = FixedPricePerUnit(amount: string)

  datatype PriceAdjustment = PriceAdjustment(fixedPricePerUnit: FixedPricePerUnit)

  datatype UpdatePrice = UpdatePrice(adjustment: PriceAdjustment)

  datatype UpdateOperation = UpdateOperation(cartLineId: string, price: UpdatePrice)

  /** The only kind of cart operation the function builds. */
  datatype CartOperation = Update(update: UpdateOperation)

  datatype FunctionRunResult = FunctionRunResult(operations: seq<CartOperation>)

  /** `NO_CHANGES`: the canonical empty result. */
  const NoChanges: FunctionRunResult := FunctionRunResult([])

  /** The amount an update operation sets as the fixed price per unit. */
  function AmountOf(op: UpdateOperation): string {
    op.price.adjustment.fixedPricePerUnit.amount
  }

  /** The update record that overrides a line's unit price with `amount`. */
  function SetUnitPrice(cartLineId: string, amount: string): (op: UpdateOperation)
    ensures op.cartLineId == cartLineId && AmountOf(op) == amount
  {
    UpdateOperation(cartLineId, UpdatePrice(PriceAdjustment(FixedPricePerUnit(amount))))
  }

  // ---------------------------------------------------------------------------
  // The source's operations
  // ---------------------------------------------------------------------------

  /** JavaScript truthiness of a nullable string: present and not empty. */
  predicate Truthy(s: Option<string>) {
    s.Some? && s.value != ""
  }

  /** `fabricLength && fabricLength.value` (only its truthiness and value matter). */
  function FabricLengthValue(fabricLength: Option<Attribute>): Option<string> {
    match fabricLength
    case None => None
    case Some(attribute) => attribute.value
  }

  /**
   * Reference statement of which lines are repriced: a product variant whose
   * `fabricLength` attribute is present with a present, non-empty value.
   */
  predicate Qualifies(line: CartLine) {
    && line.merchandise.ProductVariant?
    && line.fabricLength.Some?
    && line.fabricLength.value.value.Some?
    && line.fabricLength.value.value.value != ""
  }

  /** The attribute value of a qualifying line: the amount it is repriced to. */
  function FabricAmount(line: CartLine): string
    requires Qualifies(line)
  {
    line.fabricLength.value.value.value
  }

  /** The operation the reference definition gives a qualifying line. */
  function UpdateFor(line: CartLine): (op: CartOperation)
    requires Qualifies(line)
    ensures op.update.cartLineId == line.id && AmountOf(op.update) == FabricAmount(line)
  {
    Update(SetUnitPrice(line.id, FabricAmount(line)))
  }

  /** `optionallyBuildUpdateOperation`: an update for a qualifying line, otherwise `null`. */
  function OptionallyBuildUpdateOperation(line: CartLine): (r: Option<UpdateOperation>)
    ensures r.Some? <==> Qualifies(line)
    ensures r.Some? ==> r.value == SetUnitPrice(line.id, FabricAmount(line))
  {
    var hasFabricLength := FabricLengthValue(line.fabricLength);
    if line.merchandise == ProductVariant && Truthy(hasFabricLength) then
      Some(SetUnitPrice(line.id, hasFabricLength.value))
    else
      None
  }

  /** The reducer: append `{ update }` when the line yields one, else keep `acc`. */
  function Step(acc: seq<CartOperation>, line: CartLine): (r: seq<CartOperation>)
    ensures r == acc + (if Qualifies(line) then [UpdateFor(line)] else [])
  {
    var updateOperation := OptionallyBuildUpdateOperation(line);
    if updateOperation.Some? then acc + [Update(updateOperation.value)] else acc
  }

  /** The operation, if any, that one line contributes. */
  function LineUpdates(line: CartLine): seq<CartOperation> {
    if Qualifies(line) then [UpdateFor(line)] else []
  }

  /**
   * Reference definition of the operations for a list of lines: those of all
   * lines but the last, followed by the one the last line contributes.
   */
  function Updates(lines: seq<CartLine>): (r: seq<CartOperation>)
    ensures |r| <= |lines|
  {
    if lines == [] then [] else Updates(Init(lines)) + LineUpdates(Last(lines))
  }

  function Init<T>(s: seq<T>): seq<T>
    requires s != []
  {
    s[..|s| - 1]
  }

  function Last<T>(s: seq<T>): T
    requires s != []
  {
    s[|s| - 1]
  }

  /** The operations of a concatenation are the operations of each part, in order. */
  lemma {:induction false} UpdatesAppend(a: seq<CartLine>, b: seq<CartLine>)
    ensures Updates(a + b) == Updates(a) + Updates(b)
    decreases |b|
  {
    if b != [] {
      assert Init(a + b) == a + Init(b);
      assert Last(a + b) == Last(b);
      UpdatesAppend(a, Init(b));
    } else {
      assert a + b == a;
    }
  }

  /** `lines.reduce(step, acc)`. */
  function Reduce(acc: seq<CartOperation>, lines: seq<CartLine>): seq<CartOperation>
    decreases lines
  {
    if lines == [] then acc else Reduce(Step(acc, lines[0]), lines[1..])
  }

  /** A line put in front contributes its operation in front. */
  lemma UpdatesCons(lines: seq<CartLine>)
    requires lines != []
    ensures Updates(lines) == LineUpdates(lines[0]) + Updates(lines[1..])
  {
    assert lines == [lines[0]] + lines[1..];
    UpdatesAppend([lines[0]], lines[1..]);
    assert Init([lines[0]]) == [];
  }

  /** The fold equals `acc` followed by the reference operations. */
  lemma {:induction false} ReduceIsUpdates(acc: seq<CartOperation>, lines: seq<CartLine>)
    ensures Reduce(acc, lines) == acc + Updates(lines)
    decreases lines
  {
    if lines != [] {
      ReduceIsUpdates(Step(acc, lines[0]), lines[1..]);
      UpdatesCons(lines);
    }
  }

  /** `run`: the operations, or `NO_CHANGES` when there are none. */
  function Run(input: RunInput): (r: FunctionRunResult)
    ensures r.operations == Updates(input.cart.lines)
  {
    ReduceIsUpdates([], input.cart.lines);
    var operations := Reduce([], input.cart.lines);
    if |operations| > 0 then FunctionRunResult(operations) else NoChanges
  }

  // ---------------------------------------------------------------------------
  // Properties
  // ---------------------------------------------------------------------------

  /** The positions of the qualifying lines, in increasing order. */
  function QualifyingIndices(lines: seq<CartLine>): (idx: seq<nat>)
    ensures forall k :: 0 <= k < |idx| ==> idx[k] < |lines|
  {
    if lines == [] then []
    else QualifyingIndices(Init(lines)) + (if Qualifies(Last(lines)) then [|lines| - 1] else [])
  }

  /** `idx` lists exactly the qualifying positions of `lines`, strictly increasing. */
  ghost predicate SelectsQualifying(lines: seq<CartLine>, idx: seq<nat>) {
    && (forall k :: 0 <= k < |idx| ==> idx[k] < |lines| && Qualifies(lines[idx[k]]))
    && (forall k1, k2 :: 0 <= k1 < k2 < |idx| ==> idx[k1] < idx[k2])
    && (forall i :: 0 <= i < |lines| && Qualifies(lines[i]) ==> i in idx)
  }

  /** `QualifyingIndices` lists exactly the qualifying positions, strictly increasing. */
  lemma {:induction false} QualifyingIndicesSelect(lines: seq<CartLine>)
    ensures SelectsQualifying(lines, QualifyingIndices(lines))
  {
    if lines != [] {
      var init := Init(lines);
      QualifyingIndicesSelect(init);
      var prev := QualifyingIndices(init);
      var idx := QualifyingIndices(lines);
      assert idx[..|prev|] == prev;
      assert forall i :: 0 <= i < |init| ==> init[i] == lines[i];
      forall i | 0 <= i < |lines| && Qualifies(lines[i])
        ensures i in idx
      {
        if i < |init| {
          var k :| 0 <= k < |prev| && prev[k] == i;
          assert idx[k] == i;
        } else {
          assert idx[|prev|] == i;
        }
      }
    }
  }

  /**
   * Operation k is the update for the k-th qualifying line; with
   * `QualifyingIndicesSelect`, the operations correspond one to one, and in
   * order, to the qualifying lines, and other lines contribute nothing.
   */
  lemma {:induction false} UpdatesAtIndices(lines: seq<CartLine>)
    ensures var idx := QualifyingIndices(lines);
      && |Updates(lines)| == |idx|
      && forall k :: 0 <= k < |idx| ==>
           Qualifies(lines[idx[k]]) && Updates(lines)[k] == UpdateFor(lines[idx[k]])
  {
    if lines != [] {
      var init := Init(lines);
      UpdatesAtIndices(init);
      var prev := QualifyingIndices(init);
      assert forall i :: 0 <= i < |init| ==> init[i] == lines[i];
      assert Updates(lines)[..|prev|] == Updates(init);
    }
  }

  /** Both halves of the correspondence between operations and qualifying lines. */
  lemma UpdatesIndexed(lines: seq<CartLine>)
    ensures var idx := QualifyingIndices(lines);
      && SelectsQualifying(lines, idx)
      && |Updates(lines)| == |idx|
      && forall k :: 0 <= k < |idx| ==> Updates(lines)[k] == UpdateFor(lines[idx[k]])
  {
    QualifyingIndicesSelect(lines);
    UpdatesAtIndices(lines);
  }

  /** No operation at all exactly when no line qualifies. */
  lemma {:induction false} UpdatesEmptyIff(lines: seq<CartLine>)
    ensures Updates(lines) == [] <==> forall i :: 0 <= i < |lines| ==> !Qualifies(lines[i])
  {
    if lines != [] {
      UpdatesEmptyIff(Init(lines));
      assert forall i :: 0 <= i < |lines| - 1 ==> lines[i] == Init(lines)[i];
    }
  }

  /** The result is `NO_CHANGES` exactly when no line qualifies; otherwise its list is non-empty. */
  lemma NoChangesIffNoneQualify(input: RunInput)
    ensures Run(input) == NoChanges <==> forall i :: 0 <= i < |input.cart.lines| ==> !Qualifies(input.cart.lines[i])
    ensures Run(input) != NoChanges ==> |Run(input).operations| > 0
  {
    UpdatesEmptyIff(input.cart.lines);
  }

  /** With distinct line ids, no two operations target the same line. */
  lemma DistinctLineIds(input: RunInput)
    requires forall i, j :: 0 <= i < j < |input.cart.lines| ==> input.cart.lines[i].id != input.cart.lines[j].id
    ensures var ops := Run(input).operations;
      forall p, q :: 0 <= p < q < |ops| ==> ops[p].update.cartLineId != ops[q].update.cartLineId
  {
    UpdatesIndexed(input.cart.lines);
  }

  /**
   * With distinct line ids, a line receives an operation exactly when it
   * qualifies, and that operation sets the line's attribute value as its price.
   */
  lemma LineRepricedIffQualifies(input: RunInput, i: nat)
    requires i < |input.cart.lines|
    requires forall a, b :: 0 <= a < b < |input.cart.lines| ==> input.cart.lines[a].id != input.cart.lines[b].id
    ensures var ops := Run(input).operations; var line := input.cart.lines[i];
      && ((exists k :: 0 <= k < |ops| && ops[k].update.cartLineId == line.id) <==> Qualifies(line))
      && forall k :: 0 <= k < |ops| && ops[k].update.cartLineId == line.id ==>
           Qualifies(line) && ops[k] == UpdateFor(line)
  {
    var lines := input.cart.lines;
    var ops := Run(input).operations;
    UpdatesIndexed(lines);
    var idx := QualifyingIndices(lines);
    forall k | 0 <= k < |ops| && ops[k].update.cartLineId == lines[i].id
      ensures idx[k] == i
    {
      assert lines[idx[k]].id == lines[i].id;
    }
    if Qualifies(lines[i]) {
      var k :| 0 <= k < |idx| && idx[k] == i;
      assert ops[k].update.cartLineId == lines[i].id;
    }
  }

  /** Lists of lines that agree on everything but `cost` and `quantity` yield the same operations. */
  lemma {:induction false} UpdatesIgnoreCostAndQuantity(a: seq<CartLine>, b: seq<CartLine>)
    requires |a| == |b|
    requires forall i :: 0 <= i < |a| ==>
      a[i].id == b[i].id && a[i].merchandise == b[i].merchandise && a[i].fabricLength == b[i].fabricLength
    ensures Updates(a) == Updates(b)
  {
    if a != [] {
      UpdatesIgnoreCostAndQuantity(Init(a), Init(b));
    }
  }

  /** The line's `cost` and `quantity` never influence the result of `run`. */
  lemma RunIgnoresCostAndQuantity(a: RunInput, b: RunInput)
    requires |a.cart.lines| == |b.cart.lines|
    requires forall i :: 0 <= i < |a.cart.lines| ==>
      && a.cart.lines[i].id == b.cart.lines[i].id
      && a.cart.lines[i].merchandise == b.cart.lines[i].merchandise
      && a.cart.lines[i].fabricLength == b.cart.lines[i].fabricLength
    ensures Run(a) == Run(b)
  {
    UpdatesIgnoreCostAndQuantity(a.cart.lines, b.cart.lines);
  }

  /**
   * Order preservation: for qualifying lines X and Y with X before Y, the
   * update for X comes before the update for Y.
   */
  lemma OrderPreserved(lines: seq<CartLine>, i: nat, j: nat)
    requires i < j < |lines| && Qualifies(lines[i]) && Qualifies(lines[j])
    ensures var ops := Updates(lines);
      exists p, q :: 0 <= p < q < |ops| && ops[p] == UpdateFor(lines[i]) && ops[q] == UpdateFor(lines[j])
  {
    UpdatesIndexed(lines);
    var idx := QualifyingIndices(lines);
    var p :| 0 <= p < |idx| && idx[p] == i;
    var q :| 0 <= q < |idx| && idx[q] == j;
    assert p < q by {
      assert !(q < p) && p != q;
    }
    assert Updates(lines)[p] == UpdateFor(lines[i]) && Updates(lines)[q] == UpdateFor(lines[j]);
  }

  /**
   * Example cart: A is a variant with value "12.50", B a variant without the
   * attribute, C another kind of merchandise with value "5". Only A is repriced.
   */
  lemma SelectiveApplicationExample()
    ensures
      var a := CartLine("A", 1, ProductVariant, "20.00", Some(Attribute(Some("12.50"))));
      var b := CartLine("B", 2, ProductVariant, "20.00", None);
      var c := CartLine("C", 3, Other, "20.00", Some(Attribute(Some("5"))));
      Run(RunInput(Cart([a, b, c]))) == FunctionRunResult([Update(SetUnitPrice("A", "12.50"))])
  {
  }

  /** An attribute whose value is the empty string does not qualify the line. */
  lemma EmptyValueNotRepriced()
    ensures Run(RunInput(Cart([CartLine("X", 1, ProductVariant, "9.99", Some(Attribute(Some(""))))]))) == NoChanges
  {
  }
}
