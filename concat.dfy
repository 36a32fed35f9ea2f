/**
 * The concatenation node. Two target handles, a and b, name its operands:
 * the source of the first incoming edge on each. When both operands have a
 * shape, both are read back as tokens (parentheses stripped, split on
 * commas, trimmed) and combined axis by axis; a rank or axis mismatch sets
 * an error and gives "Not Connected" with a null order, success gives the
 * joined tokens in parentheses and the first operand's order.
 */
module ConcatNode {
  import opened Wrappers
  import opened Numbers
  import opened Values
  import opened Shapes
  import Text

  const MismatchError: string := "The dimensions of the input tensors do not match."

  /** `{ outputShape: "Not Connected", outputShapeOrder: null }`. */
  const NotConnectedPatch: Data := map["outputShape" := Str(NotConnected), "outputShapeOrder" := Null]

  /** The dimension selector's initial value, `useState(0)`. */
  const InitialDim: Option<int> := Some(0)

  // ---------------------------------------------------------------------
  // Port resolution

  predicate IncomingOn(e: Edge, id: string, handle: string) {
    e.target == id && e.targetHandle == Some(handle)
  }

  /** The position of the first edge into `id` on `handle`, or -1. */
  function FirstIncoming(edges: seq<Edge>, id: string, handle: string): (r: int)
    ensures -1 <= r < |edges|
    ensures r == -1 <==> forall i :: 0 <= i < |edges| ==> !IncomingOn(edges[i], id, handle)
    ensures r >= 0 ==> IncomingOn(edges[r], id, handle) && forall i :: 0 <= i < r ==> !IncomingOn(edges[i], id, handle)
  {
    if edges == [] then -1
    else if IncomingOn(edges[0], id, handle) then 0
    else
      var k := FirstIncoming(edges[1..], id, handle);
      if k < 0 then -1 else k + 1
  }

  /** `incomingEdges.find(e => e.targetHandle === handle)?.source || null`. */
  function PortSource(edges: seq<Edge>, id: string, handle: string): (r: Option<string>)
    ensures r.Some? ==> r.value != "" && exists i :: 0 <= i < |edges| && IncomingOn(edges[i], id, handle) && edges[i].source == r.value
    ensures (forall i :: 0 <= i < |edges| ==> !IncomingOn(edges[i], id, handle)) ==> r.None?
  {
    var k := FirstIncoming(edges, id, handle);
    if k < 0 || edges[k].source == "" then None else Some(edges[k].source)
  }

  /** The two operands: the sources on handle a and on handle b. */
  datatype Ports = Ports(input1: Option<string>, input2: Option<string>)

  function ResolvePorts(edges: seq<Edge>, id: string, handleA: string, handleB: string): Ports {
    Ports(PortSource(edges, id, handleA), PortSource(edges, id, handleB))
  }

  /** The port effect writes the placeholder when an operand is missing, and nothing otherwise. */
  function PortPatch(ports: Ports): (patch: Option<Data>)
    ensures patch.Some? <==> ports.input1.None? || ports.input2.None?
    ensures patch.Some? ==> patch.value == NotConnectedPatch
  {
    if ports.input1.None? || ports.input2.None? then Some(NotConnectedPatch) else None
  }

  // ---------------------------------------------------------------------
  // The concatenation rule on tokens

  /** One output axis: a token, or the clash of two different sizes off the concatenation axis. */
  datatype Axis = Keep(t: string) | Clash

  /** `dim.charAt(0)`. */
  function FirstChar(t: string): (r: string)
    ensures t != "" ==> r == [t[0]]
    ensures t == "" ==> r == ""
  {
    if t == "" then "" else t[..1]
  }

  /** The rule for axis `idx`: symbols win, sizes add on the concatenation axis, elsewhere they must agree. */
  function AxisRule(t1: string, t2: string, idx: int, dim: Option<int>): Axis {
    var n1 := JsParseInt(t1);
    var n2 := JsParseInt(t2);
    if n1.None? && n2.None? then Keep(FirstChar(t1))
    else if n1.None? then Keep(t1)
    else if n2.None? then Keep(t2)
    else if dim == Some(idx) then Keep(IntText(n1.value + n2.value))
    else if t1 == t2 then Keep(t1)
    else Clash
  }

  function AxisRules(ts1: seq<string>, ts2: seq<string>, dim: Option<int>): (axes: seq<Axis>)
    requires |ts1| == |ts2|
    ensures |axes| == |ts1| && forall i :: 0 <= i < |ts1| ==> axes[i] == AxisRule(ts1[i], ts2[i], i, dim)
  {
    seq(|ts1|, i requires 0 <= i < |ts1| => AxisRule(ts1[i], ts2[i], i, dim))
  }

  /** `.filter(Boolean)`: the kept tokens that are not empty, in order. */
  function Kept(axes: seq<Axis>): (ts: seq<string>)
    ensures |ts| <= |axes|
  {
    if axes == [] then []
    else (if axes[0].Keep? && axes[0].t != "" then [axes[0].t] else []) + Kept(axes[1..])
  }

  datatype Outcome = Concatenated(shape: string) | RankMismatch | AxisMismatch

  predicate HasClash(axes: seq<Axis>) {
    exists i :: 0 <= i < |axes| && axes[i].Clash?
  }

  /** The rule on two token lists. */
  function ConcatTokens(ts1: seq<string>, ts2: seq<string>, dim: Option<int>): (o: Outcome)
    ensures |ts1| != |ts2| <==> o == RankMismatch
  {
    if |ts1| != |ts2| then RankMismatch
    else
      var axes := AxisRules(ts1, ts2, dim);
      if HasClash(axes) then AxisMismatch else Concatenated(RenderTexts(Kept(axes)))
  }

  /** `updateOutputShape` on two present shape texts. */
  function Concat(shape1: string, shape2: string, dim: Option<int>): (o: Outcome)
    ensures |Tokens(shape1)| != |Tokens(shape2)| <==> o == RankMismatch
  {
    ConcatTokens(Tokens(shape1), Tokens(shape2), dim)
  }

  /** What the second effect writes, and the error it shows. */
  datatype Update = Update(patch: Data, error: string)

  /** `node?.data.outputShape || null`, as text. */
  function OperandShape(nodes: seq<Node>, input: Option<string>): string {
    match input
    case None => ""
    case Some(id) =>
      match FindNode(nodes, id)
      case None => ""
      case Some(n) => ShapeText(Get(n.data, "outputShape"))
  }

  /** `updateOutputShape`: the patch written through the store and the error text. */
  function UpdateOutputShape(nodes: seq<Node>, ports: Ports, dim: Option<int>): (u: Update)
    ensures OperandShape(nodes, ports.input1) == "" || OperandShape(nodes, ports.input2) == ""
            ==> u == Update(NotConnectedPatch, "")
    ensures u.error != "" ==> u == Update(NotConnectedPatch, MismatchError)
    ensures u.patch.Keys == {"outputShape", "outputShapeOrder"}
  {
    var shape1 := OperandShape(nodes, ports.input1);
    var shape2 := OperandShape(nodes, ports.input2);
    if shape1 != "" && shape2 != "" then
      match Concat(shape1, shape2, dim)
      case Concatenated(s) =>
        var order := Get(FindNode(nodes, ports.input1.value).value.data, "outputShapeOrder");
        Update(map["outputShape" := Str(s), "outputShapeOrder" := order], "")
      case _ => Update(NotConnectedPatch, MismatchError)
    else Update(NotConnectedPatch, "")
  }

  /** The selectable concatenation dimensions: one per token of operand 1's shape, none without it. */
  function DimOptions(inputShape1: string): (r: seq<int>)
    ensures inputShape1 == NotConnected ==> r == []
    ensures inputShape1 != NotConnected ==> |r| == |Tokens(inputShape1)|
    ensures forall i :: 0 <= i < |r| ==> r[i] == i
  {
    if inputShape1 == NotConnected then [] else seq(|Tokens(inputShape1)|, i => i)
  }

  /** `handleDimChange`: `parseInt` of the chosen option's value. */
  function DimChoice(optionValue: string): Option<int> {
    JsParseInt(optionValue)
  }

  // ---------------------------------------------------------------------
  // The rule on dimensions

  datatype DimAxis = KeepDim(d: Dim) | DimClash

  /** Concatenating one axis of two shapes, as a rule on dimensions. */
  function ConcatDim(d1: Dim, d2: Dim, idx: int, dim: Option<int>): DimAxis {
    match (d1, d2)
    case (Sym(a), Sym(_)) => KeepDim(Sym(FirstChar(a)))
    case (Sym(_), Size(_)) => KeepDim(d1)
    case (Size(_), Sym(_)) => KeepDim(d2)
    case (Size(a), Size(b)) =>
      if dim == Some(idx) then KeepDim(Size(a + b))
      else if a == b then KeepDim(d1)
      else DimClash
  }

  datatype DimOutcome = Joined(ds: seq<Dim>) | RankDiffers | AxisDiffers

  /** The reference rule: same rank, no clash, then the axis results in order. */
  function ConcatDims(ds1: seq<Dim>, ds2: seq<Dim>, dim: Option<int>): (o: DimOutcome)
    ensures o.Joined? ==> |o.ds| == |ds1| == |ds2|
  {
    if |ds1| != |ds2| then RankDiffers
    else if exists i :: 0 <= i < |ds1| && ConcatDim(ds1[i], ds2[i], i, dim).DimClash? then AxisDiffers
    else Joined(seq(|ds1|, i requires 0 <= i < |ds1| && |ds1| == |ds2| => ConcatDim(ds1[i], ds2[i], i, dim).d))
  }

  /** The token a dimension-level result stands for. */
  function AxisOf(a: DimAxis): Axis {
    match a
    case KeepDim(d) => Keep(DimText(d))
    case DimClash => Clash
  }

  /** `parseInt` of a dimension text: the size, or NaN for a name. */
  lemma ParseDimText(d: Dim)
    requires ValidDim(d)
    ensures JsParseInt(DimText(d)) == (if d.Size? then Some(d.n) else None)
  {
    ParseIntOfDimText(d, "");
    assert DimText(d) + "" == DimText(d);
  }

  /** `parseInt` reads back an integer's text. */
  lemma ParseIntText(n: int)
    ensures JsParseInt(IntText(n)) == Some(n)
  {
    ParseIntOfIntText(n, "");
    assert IntText(n) + "" == IntText(n);
  }

  /** Different integers have different texts. */
  lemma IntTextInjective(a: int, b: int)
    requires IntText(a) == IntText(b)
    ensures a == b
  {
    ParseIntText(a);
    ParseIntText(b);
  }

  /** The first letter of a name is a name. */
  lemma FirstCharValid(a: string)
    requires ValidSym(a)
    ensures ValidSym(FirstChar(a))
  {
  }

  /** The token rule decided by what `parseInt` makes of the two tokens. */
  lemma AxisRuleByParse(t1: string, t2: string, idx: int, dim: Option<int>, p1: Option<int>, p2: Option<int>)
    requires JsParseInt(t1) == p1 && JsParseInt(t2) == p2
    ensures AxisRule(t1, t2, idx, dim)
            == if p1.None? && p2.None? then Keep(FirstChar(t1))
               else if p1.None? then Keep(t1)
               else if p2.None? then Keep(t2)
               else if dim == Some(idx) then Keep(IntText(p1.value + p2.value))
               else if t1 == t2 then Keep(t1)
               else Clash
  {
  }

  /** Two sizes: added on the concatenation axis, kept when equal, a clash otherwise. */
  lemma AxisRuleOfSizes(a: int, b: int, idx: int, dim: Option<int>)
    ensures AxisRule(IntText(a), IntText(b), idx, dim)
            == if dim == Some(idx) then Keep(IntText(a + b)) else if a == b then Keep(IntText(a)) else Clash
  {
    ParseIntText(a);
    ParseIntText(b);
    TextsEqualIff(a, b);
    AxisRuleOfParsed(IntText(a), IntText(b), idx, dim, a, b);
  }

  /** Two integers have the same text exactly when they are equal. */
  lemma TextsEqualIff(a: int, b: int)
    ensures IntText(a) == IntText(b) <==> a == b
  {
    if IntText(a) == IntText(b) {
      IntTextInjective(a, b);
    }
  }

  /** Two tokens that parse as integers, equal exactly when the integers are. */
  lemma AxisRuleOfParsed(t1: string, t2: string, idx: int, dim: Option<int>, a: int, b: int)
    requires JsParseInt(t1) == Some(a) && JsParseInt(t2) == Some(b) && (t1 == t2 <==> a == b)
    ensures AxisRule(t1, t2, idx, dim)
            == if dim == Some(idx) then Keep(IntText(a + b)) else if a == b then Keep(t1) else Clash
  {
    var p1, p2 := JsParseInt(t1), JsParseInt(t2);
    assert p1 == p2 <==> a == b;
    AxisRuleOfNumbers(t1, t2, idx, dim, p1, p2);
    NumbersRule(AxisRule(t1, t2, idx, dim), t1, idx, dim, p1, p2, a, b);
  }

  /** Two tokens that both parse, equal exactly when their values are. */
  lemma AxisRuleOfNumbers(t1: string, t2: string, idx: int, dim: Option<int>, p1: Option<int>, p2: Option<int>)
    requires JsParseInt(t1) == p1 && JsParseInt(t2) == p2 && p1.Some? && p2.Some? && (t1 == t2 <==> p1 == p2)
    ensures AxisRule(t1, t2, idx, dim)
            == if dim == Some(idx) then Keep(IntText(p1.value + p2.value)) else if p1 == p2 then Keep(t1) else Clash
  {
    AxisRuleByParse(t1, t2, idx, dim, p1, p2);
  }

  /** The rule on two parsed values, stated with the values themselves. */
  lemma NumbersRule(x: Axis, t1: string, idx: int, dim: Option<int>, p1: Option<int>, p2: Option<int>, a: int, b: int)
    requires p1 == Some(a) && p2 == Some(b)
    requires x == if dim == Some(idx) then Keep(IntText(p1.value + p2.value)) else if p1 == p2 then Keep(t1) else Clash
    ensures x == if dim == Some(idx) then Keep(IntText(a + b)) else if a == b then Keep(t1) else Clash
  {
  }

  /** On the texts of two valid dimensions the token rule is the dimension rule. */
  lemma AxisRuleOfDims(d1: Dim, d2: Dim, idx: int, dim: Option<int>)
    requires ValidDim(d1) && ValidDim(d2)
    ensures AxisRule(DimText(d1), DimText(d2), idx, dim) == AxisOf(ConcatDim(d1, d2, idx, dim))
    ensures ConcatDim(d1, d2, idx, dim).KeepDim? ==> ValidDim(ConcatDim(d1, d2, idx, dim).d)
  {
    if d1.Size? && d2.Size? {
      AxisRuleOfSizeDims(d1.n, d2.n, idx, dim);
    } else {
      AxisRuleWithName(d1, d2, idx, dim);
    }
  }

  /** `AxisRuleOfDims` for two sizes. */
  lemma AxisRuleOfSizeDims(a: int, b: int, idx: int, dim: Option<int>)
    ensures AxisRule(DimText(Size(a)), DimText(Size(b)), idx, dim) == AxisOf(ConcatDim(Size(a), Size(b), idx, dim))
  {
    AxisRuleOfSizes(a, b, idx, dim);
    SizesAxisOf(a, b, idx, dim);
  }

  /** The dimension rule on two sizes, as tokens. */
  lemma SizesAxisOf(a: int, b: int, idx: int, dim: Option<int>)
    ensures DimText(Size(a)) == IntText(a) && DimText(Size(b)) == IntText(b)
    ensures AxisOf(ConcatDim(Size(a), Size(b), idx, dim))
            == if dim == Some(idx) then Keep(IntText(a + b)) else if a == b then Keep(IntText(a)) else Clash
  {
  }

  /** `AxisRuleOfDims` when at least one dimension is a name. */
  lemma AxisRuleWithName(d1: Dim, d2: Dim, idx: int, dim: Option<int>)
    requires ValidDim(d1) && ValidDim(d2) && (d1.Sym? || d2.Sym?)
    ensures AxisRule(DimText(d1), DimText(d2), idx, dim) == AxisOf(ConcatDim(d1, d2, idx, dim))
    ensures ConcatDim(d1, d2, idx, dim).KeepDim? ==> ValidDim(ConcatDim(d1, d2, idx, dim).d)
  {
    ParseDimText(d1);
    ParseDimText(d2);
    AxisRuleByParse(DimText(d1), DimText(d2), idx, dim, JsParseInt(DimText(d1)), JsParseInt(DimText(d2)));
    if d1.Sym? && d2.Sym? {
      FirstCharValid(d1.name);
    }
  }

  /** Dimension texts are never empty, so the filter keeps every one. */
  lemma DimTextNonEmpty(d: Dim)
    requires ValidDim(d)
    ensures DimText(d) != ""
  {
  }

  /** With every axis a non-empty token, the filter keeps them all, in order. */
  lemma {:induction false} KeptAll(axes: seq<Axis>)
    requires forall i :: 0 <= i < |axes| ==> axes[i].Keep? && axes[i].t != ""
    ensures |Kept(axes)| == |axes| && forall i :: 0 <= i < |axes| ==> Kept(axes)[i] == axes[i].t
  {
    if axes != [] {
      KeptAll(axes[1..]);
      assert Kept(axes) == [axes[0].t] + Kept(axes[1..]);
    }
  }

  /** The string outcome a dimension-level outcome stands for. */
  function OutcomeOf(o: DimOutcome): Outcome {
    match o
    case Joined(ds) => Concatenated(Render(ds))
    case RankDiffers => RankMismatch
    case AxisDiffers => AxisMismatch
  }

  /** Axis by axis, the token rule on dimension texts is the dimension rule. */
  lemma AxisRulesOfDims(ds1: seq<Dim>, ds2: seq<Dim>, dim: Option<int>)
    requires |ds1| == |ds2| && ValidDims(ds1) && ValidDims(ds2)
    ensures forall i :: 0 <= i < |ds1| ==>
              AxisRules(DimTexts(ds1), DimTexts(ds2), dim)[i] == AxisOf(ConcatDim(ds1[i], ds2[i], i, dim))
              && (ConcatDim(ds1[i], ds2[i], i, dim).KeepDim? ==> ValidDim(ConcatDim(ds1[i], ds2[i], i, dim).d))
  {
    forall i | 0 <= i < |ds1|
      ensures AxisRules(DimTexts(ds1), DimTexts(ds2), dim)[i] == AxisOf(ConcatDim(ds1[i], ds2[i], i, dim))
      ensures ConcatDim(ds1[i], ds2[i], i, dim).KeepDim? ==> ValidDim(ConcatDim(ds1[i], ds2[i], i, dim).d)
    {
      AxisRuleOfDims(ds1[i], ds2[i], i, dim);
    }
  }

  /** Without a clash, the tokens kept are the texts of the joined dimensions. */
  lemma KeptOfJoined(ds1: seq<Dim>, ds2: seq<Dim>, dim: Option<int>)
    requires |ds1| == |ds2| && ValidDims(ds1) && ValidDims(ds2)
    requires ConcatDims(ds1, ds2, dim).Joined?
    ensures Kept(AxisRules(DimTexts(ds1), DimTexts(ds2), dim)) == DimTexts(ConcatDims(ds1, ds2, dim).ds)
  {
    var axes := AxisRules(DimTexts(ds1), DimTexts(ds2), dim);
    var ds := ConcatDims(ds1, ds2, dim).ds;
    AxisRulesOfDims(ds1, ds2, dim);
    forall i | 0 <= i < |axes|
      ensures axes[i].Keep? && axes[i].t != "" && axes[i].t == DimTexts(ds)[i]
    {
      DimTextNonEmpty(ds[i]);
    }
    KeptAll(axes);
  }

  /** The token rule on dimension texts is the dimension rule. */
  lemma ConcatTokensOfDims(ds1: seq<Dim>, ds2: seq<Dim>, dim: Option<int>)
    requires ValidDims(ds1) && ValidDims(ds2)
    ensures ConcatTokens(DimTexts(ds1), DimTexts(ds2), dim) == OutcomeOf(ConcatDims(ds1, ds2, dim))
  {
    if |ds1| == |ds2| {
      AxisRulesOfDims(ds1, ds2, dim);
      var axes := AxisRules(DimTexts(ds1), DimTexts(ds2), dim);
      assert HasClash(axes) <==> exists i :: 0 <= i < |ds1| && ConcatDim(ds1[i], ds2[i], i, dim).DimClash?;
      if !HasClash(axes) {
        KeptOfJoined(ds1, ds2, dim);
      }
    }
  }

  /**
   * On two rendered shapes the node computes the dimension rule: a rank
   * difference and a size clash are reported, and otherwise the output is
   * the rendered result.
   */
  lemma ConcatOfRender(ds1: seq<Dim>, ds2: seq<Dim>, dim: Option<int>)
    requires |ds1| >= 1 && |ds2| >= 1 && ValidDims(ds1) && ValidDims(ds2)
    ensures Concat(Render(ds1), Render(ds2), dim) == OutcomeOf(ConcatDims(ds1, ds2, dim))
  {
    TokensOfRenderDims(ds1);
    TokensOfRenderDims(ds2);
    ConcatTokensOfDims(ds1, ds2, dim);
  }

  /** (N, 3, L) and (N, 5, L) on dimension 1 give (N, 8, L). */
  lemma ConcatExample()
    ensures ConcatDims([Sym("N"), Size(3), Sym("L")], [Sym("N"), Size(5), Sym("L")], Some(1))
            == Joined([Sym("N"), Size(8), Sym("L")])
  {
    assert FirstChar("N") == "N" && FirstChar("L") == "L";
  }

  /** The same example on the shape texts the node reads and writes. */
  lemma ConcatExampleRendered()
    ensures Concat(Render([Sym("N"), Size(3), Sym("L")]), Render([Sym("N"), Size(5), Sym("L")]), Some(1))
            == Concatenated(Render([Sym("N"), Size(8), Sym("L")]))
  {
    var ds1, ds2 := [Sym("N"), Size(3), Sym("L")], [Sym("N"), Size(5), Sym("L")];
    assert ValidSym("N") && ValidSym("L");
    assert ValidDims(ds1) && ValidDims(ds2);
    ConcatOfRender(ds1, ds2, Some(1));
    ConcatExample();
  }

  /** (N, 3, 20) and (N, 3, 10) on dimension 1 clash on axis 2. */
  lemma ClashExample()
    ensures ConcatDims([Sym("N"), Size(3), Size(20)], [Sym("N"), Size(3), Size(10)], Some(1)) == AxisDiffers
  {
    var ds1, ds2 := [Sym("N"), Size(3), Size(20)], [Sym("N"), Size(3), Size(10)];
    assert ConcatDim(ds1[2], ds2[2], 2, Some(1)).DimClash?;
  }

  /** Without both operands both effects write the placeholder with a null order. */
  lemma MissingOperand(nodes: seq<Node>, edges: seq<Edge>, id: string, handleA: string, handleB: string, dim: Option<int>)
    requires var p := ResolvePorts(edges, id, handleA, handleB); p.input1.None? || p.input2.None?
    ensures PortPatch(ResolvePorts(edges, id, handleA, handleB)) == Some(NotConnectedPatch)
    ensures UpdateOutputShape(nodes, ResolvePorts(edges, id, handleA, handleB), dim) == Update(NotConnectedPatch, "")
  {
  }

  /** On success the order comes from operand 1 and no error is shown. */
  lemma SuccessTakesFirstOrder(nodes: seq<Node>, ports: Ports, dim: Option<int>, s: string)
    requires ports.input1.Some? && ports.input2.Some?
    requires Concat(OperandShape(nodes, ports.input1), OperandShape(nodes, ports.input2), dim) == Concatenated(s)
    requires OperandShape(nodes, ports.input1) != "" && OperandShape(nodes, ports.input2) != ""
    ensures FindNode(nodes, ports.input1.value).Some?
    ensures UpdateOutputShape(nodes, ports, dim)
            == Update(map["outputShape" := Str(s),
                          "outputShapeOrder" := Get(FindNode(nodes, ports.input1.value).value.data, "outputShapeOrder")], "")
  {
  }

  /** Each offered option's value parses back to its own index. */
  lemma DimOptionsParseBack(inputShape1: string, i: int)
    requires 0 <= i < |DimOptions(inputShape1)|
    ensures DimChoice(IntText(DimOptions(inputShape1)[i])) == Some(i)
  {
    ParseIntOfIntText(i, "");
    assert IntText(i) + "" == IntText(i);
  }
}
