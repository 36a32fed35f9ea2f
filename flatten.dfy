/**
 * The flatten node. It strips the parentheses of its input shape, splits it
 * on commas and runs `parseInt` on every trimmed part, so a symbolic axis
 * becomes NaN. The parts from `flattenStart` to `flattenEnd` are replaced by
 * their product, and the order string keeps only the letter at
 * `flattenStart` from that range. Slicing follows JavaScript's
 * `Array.prototype.slice`: negative positions count from the end, and
 * positions are clamped to the length.
 */
module FlattenNode {
  import opened Wrappers
  import opened Numbers
  import opened Values
  import opened Shapes
  import Text

  // ---------------------------------------------------------------------
  // JavaScript slicing

  /** A `slice` position resolved against a length. */
  function Clamp(k: int, len: nat): (r: nat)
    ensures r <= len
    ensures 0 <= k <= len ==> r == k
  {
    if k < 0 then (if len + k < 0 then 0 else len + k) else if k > len then len else k
  }

  /** `xs.slice(a, b)`. */
  function JsSlice<T>(xs: seq<T>, a: int, b: int): (r: seq<T>)
    ensures 0 <= a <= b <= |xs| ==> r == xs[a..b]
    ensures |r| <= |xs|
  {
    var i, j := Clamp(a, |xs|), Clamp(b, |xs|);
    if i < j then xs[i..j] else []
  }

  // ---------------------------------------------------------------------
  // The rule on parsed parts

  /** A part after `parseInt`: an integer, or NaN (`None`). */
  type Part = Option<int>

  /** `.reduce((a, b) => a * b, 1)`: NaN as soon as one part is NaN. */
  function Product(xs: seq<Part>): (r: Part)
    ensures r.None? <==> exists i :: 0 <= i < |xs| && xs[i].None?
    ensures xs == [] ==> r == Some(1)
  {
    if xs == [] then Some(1)
    else
      var rest := Product(xs[1..]);
      assert forall i :: 1 <= i < |xs| ==> xs[i] == xs[1..][i - 1];
      if xs[0].None? || rest.None? then None else Some(xs[0].value * rest.value)
  }

  /** `shapeParts` for an input shape text. */
  function Parts(inputShape: string): (ps: seq<Part>)
    ensures |ps| == |Tokens(inputShape)|
    ensures forall i :: 0 <= i < |ps| ==> ps[i] == JsParseInt(Tokens(inputShape)[i])
  {
    var ts := Tokens(inputShape);
    seq(|ts|, i requires 0 <= i < |ts| => JsParseInt(ts[i]))
  }

  /** `null` as a `slice` position is 0. */
  function SlicePos(k: Option<int>): int {
    if k.Some? then k.value else 0
  }

  /** `[...parts.slice(0, start), product, ...parts.slice(end + 1)]`. */
  function FlattenParts(ps: seq<Part>, start: Option<int>, end: Option<int>): seq<Part> {
    var s, e := SlicePos(start), SlicePos(end) + 1;
    JsSlice(ps, 0, s) + [Product(JsSlice(ps, s, e))] + JsSlice(ps, e, |ps|)
  }

  /** `order[start]` inside `join("")`: an index outside the string is `undefined`, which joins as "". */
  function LetterAt(order: string, start: Option<int>): (r: string)
    ensures |r| <= 1
  {
    if start.Some? && 0 <= start.value < |order| then [order[start.value]] else ""
  }

  /** The output order: the letters before the range, the range's first letter, the letters after it. */
  function FlattenOrder(order: string, start: Option<int>, end: Option<int>): string {
    var s, e := SlicePos(start), SlicePos(end) + 1;
    JsSlice(order, 0, s) + LetterAt(order, start) + JsSlice(order, e, |order|)
  }

  /** A part as `join` writes it. */
  function PartText(x: Part): string {
    if x.Some? then IntText(x.value) else "NaN"
  }

  function PartTexts(ps: seq<Part>): (ts: seq<string>)
    ensures |ts| == |ps| && forall i :: 0 <= i < |ps| ==> ts[i] == PartText(ps[i])
  {
    seq(|ps|, i requires 0 <= i < |ps| => PartText(ps[i]))
  }

  /** A stored flatten position: an integer, or `null`. */
  function IndexField(v: Value): Option<int> {
    if v.Number? && v.n.Num? && v.n.e == 0 then Some(v.n.m) else None
  }

  /** The value written back for a position. */
  function IndexValue(k: Option<int>): Value {
    if k.Some? then Number(Int(k.value)) else Null
  }

  /** `updateOutputShape(start, end)`: the patch it writes. */
  function UpdateOutputShape(data: Data, start: Option<int>, end: Option<int>): (patch: Data)
    ensures patch.Keys == {"outputShape", "outputShapeOrder", "flattenStart", "flattenEnd"}
    ensures Text.Remove(ShapeText(Get(data, "inputShape")), Text.Parens) == "" || ShapeText(Get(data, "inputShapeOrder")) == ""
            ==> forall k :: k in patch ==> patch[k] == Null
  {
    var shape := ShapeText(Get(data, "inputShape"));
    var order := ShapeText(Get(data, "inputShapeOrder"));
    if Text.Remove(shape, Text.Parens) != "" && order != "" then
      map["outputShape" := Str(RenderTexts(PartTexts(FlattenParts(Parts(shape), start, end)))),
          "outputShapeOrder" := Str(FlattenOrder(order, start, end)),
          "flattenStart" := IndexValue(start), "flattenEnd" := IndexValue(end)]
    else
      map["outputShape" := Null, "outputShapeOrder" := Null, "flattenStart" := Null, "flattenEnd" := Null]
  }

  /** The effect: it runs the update only when both the input shape and its order are present. */
  function Effect(data: Data): (patch: Option<Data>)
    ensures patch.Some? <==> ShapeText(Get(data, "inputShape")) != "" && ShapeText(Get(data, "inputShapeOrder")) != ""
    ensures patch.Some? ==> patch.value == UpdateOutputShape(data, IndexField(Get(data, "flattenStart")), IndexField(Get(data, "flattenEnd")))
  {
    if ShapeText(Get(data, "inputShape")) != "" && ShapeText(Get(data, "inputShapeOrder")) != "" then
      Some(UpdateOutputShape(data, IndexField(Get(data, "flattenStart")), IndexField(Get(data, "flattenEnd"))))
    else None
  }

  // ---------------------------------------------------------------------
  // Choosing the range

  /** `Math.max` on integers, NaN (`None`) winning. */
  function Max(a: Option<int>, b: Option<int>): (r: Option<int>)
    ensures r.Some? <==> a.Some? && b.Some?
    ensures r.Some? ==> r.value >= a.value && r.value >= b.value && (r.value == a.value || r.value == b.value)
  {
    if a.None? || b.None? then None else if a.value >= b.value then a else b
  }

  /** `handleStartDimChange`: the new start and `Math.max(start, flattenEnd || start)`. */
  function StartDimPatch(data: Data, optionValue: string): (patch: Data)
    ensures patch.Keys == {"flattenStart", "flattenEnd"}
  {
    var start := JsParseInt(optionValue);
    var end := Get(data, "flattenEnd");
    var endOrStart := if Values.Truthy(end) then IndexField(end) else start;
    map["flattenStart" := NaNOr(start), "flattenEnd" := NaNOr(Max(start, endOrStart))]
  }

  /** A parsed position written back: NaN when `parseInt` failed. */
  function NaNOr(k: Option<int>): (v: Value)
    ensures k.Some? ==> v == Number(Int(k.value))
    ensures k.None? ==> v == Number(NaN)
  {
    if k.Some? then Number(Int(k.value)) else Number(NaN)
  }

  /** `handleEndDimChange`. */
  function EndDimPatch(optionValue: string): (patch: Data)
    ensures patch.Keys == {"flattenEnd"}
  {
    map["flattenEnd" := NaNOr(JsParseInt(optionValue))]
  }

  /** One entry of a position selector: its value and the letter it shows. */
  datatype Choice = Choice(position: int, letter: char)

  /** `renderOptions(start)`: one entry per letter of the order from `start` on. */
  function Choices(order: string, start: nat): (cs: seq<Choice>)
    ensures start <= |order| ==> |cs| == |order| - start
    ensures forall i :: 0 <= i < |cs| ==> start <= cs[i].position < |order| && cs[i].letter == order[cs[i].position]
  {
    var rest := JsSlice(order, start, |order|);
    seq(|rest|, i requires 0 <= i < |rest| => Choice(start + i, rest[i]))
  }

  // ---------------------------------------------------------------------
  // Properties

  /** Choosing a start never leaves the end before it, when the stored end is an integer or unset. */
  lemma StartDimKeepsRange(data: Data, s: int)
    requires var end := Get(data, "flattenEnd"); end.Null? || end.Undefined? || (end.Number? && end.n.Num? && end.n.e == 0)
    ensures var patch := StartDimPatch(data, IntText(s));
            patch["flattenStart"] == Number(Int(s))
            && exists e :: e >= s && patch["flattenEnd"] == Number(Int(e))
  {
    ParseIntOfIntText(s, "");
    assert IntText(s) + "" == IntText(s);
    var end := Get(data, "flattenEnd");
    var endOrStart := if Values.Truthy(end) then IndexField(end) else Some(s);
    assert endOrStart.Some?;
    var e := Max(Some(s), endOrStart).value;
    assert StartDimPatch(data, IntText(s))["flattenEnd"] == Number(Int(e));
  }

  /** What `parseInt` makes of a dimension's text. */
  function SizeOf(d: Dim): Part {
    if d.Size? then Some(d.n) else None
  }

  function SizesOf(ds: seq<Dim>): (ps: seq<Part>)
    ensures |ps| == |ds| && forall i :: 0 <= i < |ds| ==> ps[i] == SizeOf(ds[i])
  {
    seq(|ds|, i requires 0 <= i < |ds| => SizeOf(ds[i]))
  }

  predicate AllSizes(ds: seq<Dim>) {
    forall i :: 0 <= i < |ds| ==> ds[i].Size?
  }

  /** The product of a list of sizes. */
  function SizeProduct(ds: seq<Dim>): int
    requires AllSizes(ds)
  {
    if ds == [] then 1 else ds[0].n * SizeProduct(ds[1..])
  }

  /** The reference rule: the sizes from `start` to `end` become their product. */
  function FlattenDims(ds: seq<Dim>, start: nat, end: nat): (r: seq<Dim>)
    requires AllSizes(ds) && start <= end < |ds|
    ensures |r| == |ds| - (end - start) && AllSizes(r)
  {
    ds[..start] + [Size(SizeProduct(ds[start..end + 1]))] + ds[end + 1..]
  }

  /** `parseInt` of a rendered list of dimensions: the sizes, and NaN for the names. */
  lemma PartsOfRender(ds: seq<Dim>)
    requires |ds| >= 1 && ValidDims(ds)
    ensures Parts(Render(ds)) == SizesOf(ds)
  {
    TokensOfRenderDims(ds);
    forall i | 0 <= i < |ds|
      ensures JsParseInt(DimText(ds[i])) == SizeOf(ds[i])
    {
      ParseIntOfDimText(ds[i], "");
      assert DimText(ds[i]) + "" == DimText(ds[i]);
    }
  }

  /** Sizes multiply to their product. */
  lemma {:induction false} ProductOfSizes(ds: seq<Dim>)
    requires AllSizes(ds)
    ensures Product(SizesOf(ds)) == Some(SizeProduct(ds))
  {
    if ds != [] {
      ProductOfSizes(ds[1..]);
      assert SizesOf(ds)[1..] == SizesOf(ds[1..]);
    }
  }

  /** Slicing commutes with reading the sizes. */
  lemma SlicesOfSizes(ds: seq<Dim>, a: nat, b: nat)
    requires a <= b <= |ds|
    ensures SizesOf(ds)[a..b] == SizesOf(ds[a..b])
  {
  }

  /**
   * On parts read from dimensions with `0 <= start <= end < rank` the rule
   * keeps the parts outside the range and puts their product in its place.
   */
  lemma FlattenPartsInRange(ds: seq<Dim>, start: nat, end: nat)
    requires start <= end < |ds|
    ensures FlattenParts(SizesOf(ds), Some(start), Some(end))
            == SizesOf(ds[..start]) + [Product(SizesOf(ds[start..end + 1]))] + SizesOf(ds[end + 1..])
  {
    var ps := SizesOf(ds);
    FlattenPartsAt(ps, start, end);
    assert ps[0..start] == SizesOf(ds[..start]) by {
      SlicesOfSizes(ds, 0, start);
      assert ds[..start] == ds[0..start];
    }
    assert ps[start..end + 1] == SizesOf(ds[start..end + 1]) by {
      SlicesOfSizes(ds, start, end + 1);
    }
    assert ps[end + 1..|ps|] == SizesOf(ds[end + 1..]) by {
      SlicesOfSizes(ds, end + 1, |ds|);
      assert ds[end + 1..] == ds[end + 1..|ds|];
    }
  }

  /** Inside the bounds the slices are plain subsequences. */
  lemma FlattenPartsAt(ps: seq<Part>, start: nat, end: nat)
    requires start <= end < |ps|
    ensures FlattenParts(ps, Some(start), Some(end)) == ps[0..start] + [Product(ps[start..end + 1])] + ps[end + 1..|ps|]
  {
    assert SlicePos(Some(start)) == start && SlicePos(Some(end)) + 1 == end + 1;
  }

  /** A name anywhere in the range makes the flattened part NaN, and only a name does. */
  lemma NameInRangeIsNaN(ds: seq<Dim>, start: nat, end: nat)
    requires start <= end < |ds|
    ensures Product(SizesOf(ds[start..end + 1])).None? <==> exists i :: start <= i <= end && ds[i].Sym?
  {
    var r := SizesOf(ds[start..end + 1]);
    assert forall i :: start <= i <= end ==> r[i - start] == SizeOf(ds[i]);
  }

  /** All-size input: the output parts are the sizes of the reference rule. */
  lemma FlattenPartsOfSizes(ds: seq<Dim>, start: nat, end: nat)
    requires AllSizes(ds) && start <= end < |ds|
    ensures FlattenParts(SizesOf(ds), Some(start), Some(end)) == SizesOf(FlattenDims(ds, start, end))
  {
    FlattenPartsInRange(ds, start, end);
    ProductOfSizes(ds[start..end + 1]);
    var r := FlattenDims(ds, start, end);
    assert SizesOf(r) == SizesOf(ds[..start]) + SizesOf([Size(SizeProduct(ds[start..end + 1]))]) + SizesOf(ds[end + 1..]);
  }

  /** The texts of the parts of sizes are the dimension texts. */
  lemma PartTextsOfSizes(ds: seq<Dim>)
    requires AllSizes(ds)
    ensures PartTexts(SizesOf(ds)) == DimTexts(ds)
  {
  }

  /**
   * The node on a rendered list of sizes and a range `start <= end` inside
   * it: the output is the rendered reference result, which has
   * `end - start` fewer axes, and the order keeps the letter at `start`.
   */
  lemma FlattenOfSizes(data: Data, ds: seq<Dim>, start: nat, end: nat)
    requires AllSizes(ds) && start <= end < |ds|
    requires Get(data, "inputShape") == Str(Render(ds))
    requires ShapeText(Get(data, "inputShapeOrder")) != ""
    ensures UpdateOutputShape(data, Some(start), Some(end))["outputShape"] == Str(Render(FlattenDims(ds, start, end)))
    ensures var order := ShapeText(Get(data, "inputShapeOrder"));
            end < |order| ==>
              UpdateOutputShape(data, Some(start), Some(end))["outputShapeOrder"]
              == Str(order[..start] + [order[start]] + order[end + 1..])
  {
    assert ValidDims(ds);
    StrippedRenderNonEmpty(ds);
    PresentPatch(data, Some(start), Some(end));
    ShapeOfSizes(ds, start, end);
    var order := ShapeText(Get(data, "inputShapeOrder"));
    if end < |order| {
      FlattenOrderInRange(order, start, end);
    }
  }

  /** With a shape and an order present, the patch holds the flattened shape and order. */
  lemma PresentPatch(data: Data, start: Option<int>, end: Option<int>)
    requires Text.Remove(ShapeText(Get(data, "inputShape")), Text.Parens) != ""
    requires ShapeText(Get(data, "inputShapeOrder")) != ""
    ensures UpdateOutputShape(data, start, end)["outputShape"]
            == Str(RenderTexts(PartTexts(FlattenParts(Parts(ShapeText(Get(data, "inputShape"))), start, end))))
    ensures UpdateOutputShape(data, start, end)["outputShapeOrder"]
            == Str(FlattenOrder(ShapeText(Get(data, "inputShapeOrder")), start, end))
  {
  }

  /** The flattened parts of a rendered list of sizes render as the reference result. */
  lemma ShapeOfSizes(ds: seq<Dim>, start: nat, end: nat)
    requires AllSizes(ds) && start <= end < |ds|
    ensures RenderTexts(PartTexts(FlattenParts(Parts(Render(ds)), Some(start), Some(end)))) == Render(FlattenDims(ds, start, end))
  {
    assert ValidDims(ds);
    PartsOfRender(ds);
    FlattenPartsOfSizes(ds, start, end);
    PartTextsOfSizes(FlattenDims(ds, start, end));
  }

  /** The order inside the range keeps only the range's first letter. */
  lemma FlattenOrderInRange(order: string, start: nat, end: nat)
    requires start <= end < |order|
    ensures FlattenOrder(order, Some(start), Some(end)) == order[..start] + [order[start]] + order[end + 1..]
  {
    assert order[..start] == order[0..start];
    assert order[end + 1..] == order[end + 1..|order|];
  }

  /** A one-axis range leaves an all-size shape and its order unchanged. */
  lemma SingleAxisIsIdentity(ds: seq<Dim>, order: string, k: nat)
    requires AllSizes(ds) && k < |ds| && k < |order|
    ensures FlattenDims(ds, k, k) == ds
    ensures FlattenOrder(order, Some(k), Some(k)) == order
  {
    assert ds[k..k + 1] == [ds[k]];
    assert SizeProduct([ds[k]]) == ds[k].n * SizeProduct([]);
    assert ds[..k] + [ds[k]] + ds[k + 1..] == ds;
    FlattenOrderInRange(order, k, k);
    assert order[..k] + [order[k]] + order[k + 1..] == order;
  }
}
