/**
 * The permute node. Its output order is a string of axis letters; output
 * axis i is the input token at the first position of the i-th output letter
 * in the input order. A letter missing from the input order (or pointing
 * past the input's tokens) makes the lookup `undefined`, and calling `trim`
 * on it throws. The order is edited by moving one letter up or down.
 */
module PermuteNode {
  import opened Wrappers
  import opened Values
  import opened Shapes
  import Text

  /** `{ outputShape: "Not Connected", outputShapeOrder: null }`. */
  const NotConnectedPatch: Data := map["outputShape" := Str(NotConnected), "outputShapeOrder" := Null]

  // ---------------------------------------------------------------------
  // Gathering axes by letter

  /** Every letter of `outOrder` finds a token through `inOrder`. */
  predicate Gatherable<T>(xs: seq<T>, inOrder: string, outOrder: string) {
    forall i :: 0 <= i < |outOrder| ==> 0 <= Text.IndexOf(inOrder, outOrder[i]) < |xs|
  }

  /** `outOrder.split("").map(c => xs[inOrder.indexOf(c)])`. */
  function Gather<T>(xs: seq<T>, inOrder: string, outOrder: string): (r: seq<T>)
    requires Gatherable(xs, inOrder, outOrder)
    ensures |r| == |outOrder|
    ensures forall i :: 0 <= i < |outOrder| ==> r[i] == xs[Text.IndexOf(inOrder, outOrder[i])]
  {
    seq(|outOrder|, i requires 0 <= i < |outOrder| => xs[Text.IndexOf(inOrder, outOrder[i])])
  }

  /** What `updateOutputShape` does: write a patch, or throw on an `undefined` token. */
  datatype Update = Write(patch: Data) | Throws

  /** `updateOutputShape(outputShapeOrder)`. */
  function UpdateOutputShape(data: Data, outOrder: string): (u: Update)
    ensures u.Write? ==> u.patch.Keys == {"outputShape", "outputShapeOrder"}
    ensures var stripped := Text.Remove(ShapeText(Get(data, "inputShape")), Text.Parens);
            var inOrder := ShapeText(Get(data, "inputShapeOrder"));
            (stripped == "" || inOrder == "") ==> u == Write(NotConnectedPatch)
    ensures u.Write? && u.patch != NotConnectedPatch ==> u.patch["outputShapeOrder"] == Str(outOrder)
    ensures u.Throws? <==> Text.Remove(ShapeText(Get(data, "inputShape")), Text.Parens) != ""
                           && ShapeText(Get(data, "inputShapeOrder")) != ""
                           && !Gatherable(Tokens(ShapeText(Get(data, "inputShape"))), ShapeText(Get(data, "inputShapeOrder")), outOrder)
  {
    var shape := ShapeText(Get(data, "inputShape"));
    var inOrder := ShapeText(Get(data, "inputShapeOrder"));
    if Text.Remove(shape, Text.Parens) != "" && inOrder != "" then
      var ts := Tokens(shape);
      if Gatherable(ts, inOrder, outOrder) then
        var out := Str(RenderTexts(Gather(ts, inOrder, outOrder)));
        assert out != Str(NotConnected) by {
          assert out.s[0] == '(' && NotConnected[0] == 'N';
        }
        Write(map["outputShape" := out, "outputShapeOrder" := Str(outOrder)])
      else Throws
    else Write(NotConnectedPatch)
  }

  /** The input-order effect: re-gather with the current output order, or the input order on a first connection. */
  function InputOrderEffect(data: Data): (r: Option<Update>)
    ensures r.Some? <==> ShapeText(Get(data, "inputShapeOrder")) != ""
  {
    var inOrder := ShapeText(Get(data, "inputShapeOrder"));
    var outOrder := ShapeText(Get(data, "outputShapeOrder"));
    if inOrder != "" then Some(UpdateOutputShape(data, if outOrder != "" then outOrder else inOrder)) else None
  }

  /** The input-shape effect: re-gather with the current output order, when there is one. */
  function InputShapeEffect(data: Data): (r: Option<Update>)
    ensures r.Some? <==> ShapeText(Get(data, "outputShapeOrder")) != ""
    ensures r.Some? ==> r.value == UpdateOutputShape(data, ShapeText(Get(data, "outputShapeOrder")))
  {
    var outOrder := ShapeText(Get(data, "outputShapeOrder"));
    if outOrder != "" then Some(UpdateOutputShape(data, outOrder)) else None
  }

  // ---------------------------------------------------------------------
  // Editing the order

  /** `Array.from(order)`, `splice(index, 1)`, then `splice(index ± 1, 0, item)`. */
  function MoveItem(order: string, index: int, up: bool): (r: string)
    requires 0 <= index < |order|
    requires up ==> index > 0
    requires !up ==> index < |order| - 1
  {
    var item := order[index];
    var rest := order[..index] + order[index + 1..];
    var newIndex := if up then index - 1 else index + 1;
    rest[..newIndex] + [item] + rest[newIndex..]
  }

  /** `moveItem(index, direction)`: the moved order is gathered and written. */
  function MoveEffect(data: Data, index: int, up: bool): Update
    requires CanMove(ShapeText(Get(data, "outputShapeOrder")), index, up)
  {
    UpdateOutputShape(data, MoveItem(ShapeText(Get(data, "outputShapeOrder")), index, up))
  }

  /** The move buttons shown for row `index`: "up" from the second row, "down" up to the last but one. */
  predicate CanMove(order: string, index: int, up: bool) {
    0 <= index < |order| && (if up then index > 0 else index < |order| - 1)
  }

  predicate Distinct(s: string) {
    forall i, j :: 0 <= i < j < |s| ==> s[i] != s[j]
  }

  /** Two orders name the same distinct letters. */
  predicate Reorders(o: string, io: string) {
    Distinct(o) && Distinct(io) && |o| == |io| && forall c :: c in o <==> c in io
  }

  // ---------------------------------------------------------------------
  // Properties

  /** Moving a letter swaps it with its neighbour and leaves the rest in place. */
  lemma MoveIsAdjacentSwap(order: string, index: int, up: bool)
    requires CanMove(order, index, up)
    ensures var r := MoveItem(order, index, up);
            var j := if up then index - 1 else index + 1;
            |r| == |order| && r[j] == order[index] && r[index] == order[j]
            && forall k :: 0 <= k < |order| && k != index && k != j ==> r[k] == order[k]
  {
    var r := MoveItem(order, index, up);
    var rest := order[..index] + order[index + 1..];
    assert forall k :: 0 <= k < index ==> rest[k] == order[k];
    assert forall k :: index <= k < |rest| ==> rest[k] == order[k + 1];
  }

  /** A move keeps the letters: the new order is a permutation of the old one. */
  lemma MoveIsPermutation(order: string, index: int, up: bool)
    requires CanMove(order, index, up)
    ensures multiset(MoveItem(order, index, up)) == multiset(order)
  {
    var item := order[index];
    var rest := order[..index] + order[index + 1..];
    var newIndex := if up then index - 1 else index + 1;
    var r := MoveItem(order, index, up);
    assert order == order[..index] + [item] + order[index + 1..];
    assert multiset(order) == multiset(order[..index]) + multiset([item]) + multiset(order[index + 1..]);
    assert multiset(rest) == multiset(order[..index]) + multiset(order[index + 1..]);
    assert rest == rest[..newIndex] + rest[newIndex..];
    assert multiset(rest) == multiset(rest[..newIndex]) + multiset(rest[newIndex..]);
    assert r == rest[..newIndex] + [item] + rest[newIndex..];
    assert multiset(r) == multiset(rest[..newIndex]) + multiset([item]) + multiset(rest[newIndex..]);
    assert multiset(r) == multiset(rest) + multiset([item]);
    assert multiset(order) == multiset(rest) + multiset([item]);
  }

  /** A move of a distinct-letter order is still a reordering of the input order. */
  lemma MoveKeepsReordering(order: string, io: string, index: int, up: bool)
    requires CanMove(order, index, up) && Reorders(order, io)
    ensures Reorders(MoveItem(order, index, up), io)
  {
    var r := MoveItem(order, index, up);
    MoveIsAdjacentSwap(order, index, up);
    MoveIsPermutation(order, index, up);
    assert forall c :: c in r <==> c in multiset(r);
    assert forall c :: c in order <==> c in multiset(order);
    var j := if up then index - 1 else index + 1;
    forall a, b | 0 <= a < b < |r|
      ensures r[a] != r[b]
    {
      var a' := if a == index then j else if a == j then index else a;
      var b' := if b == index then j else if b == j then index else b;
      assert r[a] == order[a'] && r[b] == order[b'];
    }
  }

  /** In a string of distinct letters each letter is found at its own position. */
  lemma IndexOfDistinct(s: string, j: int)
    requires Distinct(s) && 0 <= j < |s|
    ensures Text.IndexOf(s, s[j]) == j
  {
  }

  /** A letter of the other order is found in it, at a position holding that letter. */
  lemma FoundIn(o: string, c: char)
    requires c in o
    ensures 0 <= Text.IndexOf(o, c) < |o| && o[Text.IndexOf(o, c)] == c
  {
  }

  /** Gathering by a reordering of the input order is always defined. */
  lemma ReorderGatherable<T>(xs: seq<T>, io: string, o: string)
    requires Reorders(o, io) && |xs| == |io|
    ensures Gatherable(xs, io, o)
  {
    forall i | 0 <= i < |o|
      ensures 0 <= Text.IndexOf(io, o[i]) < |xs|
    {
      assert o[i] in o;
      FoundIn(io, o[i]);
    }
  }

  /** With the input order as output order, gathering changes nothing. */
  lemma GatherIdentity<T>(xs: seq<T>, io: string)
    requires Distinct(io) && |xs| == |io|
    ensures Gatherable(xs, io, io) && Gather(xs, io, io) == xs
  {
    forall i | 0 <= i < |io|
      ensures Text.IndexOf(io, io[i]) == i
    {
      IndexOfDistinct(io, i);
    }
  }

  /**
   * Permuting by a reordering and then permuting the result back (its order
   * as input order, the original order as output order) restores the
   * original axes.
   */
  lemma GatherRoundTrip<T>(xs: seq<T>, io: string, o: string)
    requires Reorders(o, io) && |xs| == |io|
    ensures Gatherable(xs, io, o)
    ensures Gatherable(Gather(xs, io, o), o, io)
    ensures Gather(Gather(xs, io, o), o, io) == xs
  {
    ReorderGatherable(xs, io, o);
    var g := Gather(xs, io, o);
    assert Reorders(io, o);
    ReorderGatherable(g, o, io);
    forall j | 0 <= j < |io|
      ensures Gather(g, o, io)[j] == xs[j]
    {
      assert io[j] in io;
      var k := Text.IndexOf(o, io[j]);
      FoundIn(o, io[j]);
      IndexOfDistinct(io, j);
      assert g[k] == xs[Text.IndexOf(io, o[k])];
    }
  }

  /** Dimension texts gathered are the texts of the dimensions gathered. */
  lemma GatherDimTexts(ds: seq<Dim>, io: string, o: string)
    requires Gatherable(ds, io, o)
    ensures Gatherable(DimTexts(ds), io, o)
    ensures Gather(DimTexts(ds), io, o) == DimTexts(Gather(ds, io, o))
  {
  }

  /** Gathered valid dimensions are valid. */
  lemma GatherValid(ds: seq<Dim>, io: string, o: string)
    requires Gatherable(ds, io, o) && ValidDims(ds)
    ensures ValidDims(Gather(ds, io, o))
  {
  }

  /** On a rendered input the node writes the rendered gathered dimensions and the order it was given. */
  lemma PermuteOfRender(data: Data, ds: seq<Dim>, io: string, o: string)
    requires |ds| >= 1 && ValidDims(ds) && io != "" && Gatherable(ds, io, o)
    requires Get(data, "inputShape") == Str(Render(ds)) && Get(data, "inputShapeOrder") == Str(io)
    ensures UpdateOutputShape(data, o)
            == Write(map["outputShape" := Str(Render(Gather(ds, io, o))), "outputShapeOrder" := Str(o)])
  {
    StrippedRenderNonEmpty(ds);
    TokensOfRenderDims(ds);
    GatherDimTexts(ds, io, o);
  }

  /** A letter that the input order lacks makes the node throw. */
  lemma MissingLetterThrows(data: Data, ds: seq<Dim>, io: string, o: string, i: int)
    requires |ds| >= 1 && ValidDims(ds) && io != ""
    requires Get(data, "inputShape") == Str(Render(ds)) && Get(data, "inputShapeOrder") == Str(io)
    requires 0 <= i < |o| && o[i] !in io
    ensures UpdateOutputShape(data, o) == Throws
  {
    StrippedRenderNonEmpty(ds);
    TokensOfRenderDims(ds);
  }

  /** On a first connection (no output order yet) the input passes through with its own order. */
  lemma FirstConnectionIsIdentity(data: Data, ds: seq<Dim>, io: string)
    requires |ds| >= 1 && ValidDims(ds) && Distinct(io) && |io| == |ds|
    requires Get(data, "inputShape") == Str(Render(ds)) && Get(data, "inputShapeOrder") == Str(io)
    requires ShapeText(Get(data, "outputShapeOrder")) == ""
    ensures InputOrderEffect(data) == Some(Write(map["outputShape" := Str(Render(ds)), "outputShapeOrder" := Str(io)]))
  {
    GatherIdentity(ds, io);
    PermuteOfRender(data, ds, io, io);
  }

  /** The rendered round trip: a second permute node given the first one's output and order undoes it. */
  lemma PermuteRoundTrip(data1: Data, data2: Data, ds: seq<Dim>, io: string, o: string)
    requires |ds| >= 1 && ValidDims(ds) && Reorders(o, io) && |ds| == |io|
    requires Get(data1, "inputShape") == Str(Render(ds)) && Get(data1, "inputShapeOrder") == Str(io)
    requires Get(data2, "inputShape") == Str(Render(Gather(ds, io, o))) && Get(data2, "inputShapeOrder") == Str(o)
    ensures UpdateOutputShape(data1, o) == Write(map["outputShape" := Str(Render(Gather(ds, io, o))), "outputShapeOrder" := Str(o)])
    ensures UpdateOutputShape(data2, io) == Write(map["outputShape" := Str(Render(ds)), "outputShapeOrder" := Str(io)])
  {
    GatherRoundTrip(ds, io, o);
    PermuteOfRender(data1, ds, io, o);
    GatherValid(ds, io, o);
    PermuteOfRender(data2, Gather(ds, io, o), o, io);
  }
}
