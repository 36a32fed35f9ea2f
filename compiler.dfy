/**
 * The pure parts of the PyTorch code generator: the table from node type to
 * layer class, the parsing of a node's shape string into integers, the
 * indexes a permute layer is given, and Python's `str.replace`.
 *
 * The generator receives the nodes as JSON, so a key holding `undefined` is
 * absent and a NaN arrives as `None`.
 */
module PyTorchCompiler {
  import opened Wrappers
  import opened Numbers
  import opened Values
  import Text
  import Shapes
  import PermuteNode
  import NodeCatalog

  // ---------------------------------------------------------------------
  // LAYER_MAPPING

  /** The layer classes the generator knows, named after the strings it maps node types to. */
  datatype Op =
    | NnIdentity | FTanh | FRelu | FSigmoid | NnLinear | NnConv1d | NnConv2d | NnLSTM | NnGRU
    | NnMaxPool1d | NnMaxPool2d | NnLayerNorm | NnBatchNorm1d | NnBatchNorm2d
    | NnDropout | NnDropout1d | NnDropout2d | TorchPermute | TorchCat | TorchFlatten | UnknownLayer

  function OpName(op: Op): string {
    match op
    case NnIdentity => "nn.Identity"
    case FTanh => "F.tanh"
    case FRelu => "F.relu"
    case FSigmoid => "F.sigmoid"
    case NnLinear => "nn.Linear"
    case NnConv1d => "nn.Conv1d"
    case NnConv2d => "nn.Conv2d"
    case NnLSTM => "nn.LSTM"
    case NnGRU => "nn.GRU"
    case NnMaxPool1d => "nn.MaxPool1d"
    case NnMaxPool2d => "nn.MaxPool2d"
    case NnLayerNorm => "nn.LayerNorm"
    case NnBatchNorm1d => "nn.BatchNorm1d"
    case NnBatchNorm2d => "nn.BatchNorm2d"
    case NnDropout => "nn.Dropout"
    case NnDropout1d => "nn.Dropout1d"
    case NnDropout2d => "nn.Dropout2d"
    case TorchPermute => "torch.permute"
    case TorchCat => "torch.cat"
    case TorchFlatten => "torch.flatten"
    case UnknownLayer => "UnknownLayer"
  }

  /** `LAYER_MAPPING.get(node_type, "UnknownLayer")`. */
  function LayerClass(nodeType: string): Op {
    match nodeType
    case "tabular-input" => NnIdentity
    case "timeseries-input" => NnIdentity
    case "image-input" => NnIdentity
    case "tanh" => FTanh
    case "relu" => FRelu
    case "sigmoid" => FSigmoid
    case "linear" => NnLinear
    case "conv1d" => NnConv1d
    case "conv2d" => NnConv2d
    case "lstm" => NnLSTM
    case "gru" => NnGRU
    case "maxpool1d" => NnMaxPool1d
    case "maxpool2d" => NnMaxPool2d
    case "layernorm" => NnLayerNorm
    case "batchnorm1d" => NnBatchNorm1d
    case "batchnorm2d" => NnBatchNorm2d
    case "dropout" => NnDropout
    case "dropout1d" => NnDropout
    case "dropout2d" => NnDropout2d
    case "permute" => TorchPermute
    case "concat" => TorchCat
    case "flatten" => TorchFlatten
    case _ => UnknownLayer
  }

  /** The layer class of each registered kind, read off `LAYER_MAPPING` by the kind's key. */
  function KindClass(k: NodeCatalog.Kind): Op {
    match k
    case PositionLogger | TextUpdater | FullyConnected | RegressionOutput => UnknownLayer
    case TabularInput | TimeseriesInput | ImageInput => NnIdentity
    case Tanh => FTanh
    case Relu => FRelu
    case Sigmoid => FSigmoid
    case Linear => NnLinear
    case Conv1D => NnConv1d
    case Conv2D => NnConv2d
    case LSTM => NnLSTM
    case GRU => NnGRU
    case MaxPool1D => NnMaxPool1d
    case MaxPool2D => NnMaxPool2d
    case LayerNorm => NnLayerNorm
    case BatchNorm1D => NnBatchNorm1d
    case BatchNorm2D => NnBatchNorm2d
    case Dropout | Dropout1D => NnDropout
    case Dropout2D => NnDropout2d
    case Permute => TorchPermute
    case Concat => TorchCat
    case Flatten => TorchFlatten
  }

  // ---------------------------------------------------------------------
  // process_node_data

  /** Why generation stopped: a `ValueError` (answered as a bad request) or any other exception. */
  datatype Fault = BadInput | Crash

  datatype Outcome<T> = Done(value: T) | Fails(fault: Fault)

  /** A value that reaches Python as `None`. */
  predicate IsNone(v: Value) {
    v == Null || v == Number(NaN)
  }

  /** The key reaches Python (JSON drops keys holding `undefined`). */
  predicate Has(d: Data, key: string) {
    key in d && d[key] != Undefined
  }

  /** Python truthiness of a value as it arrives (an absent key reads as the default ""). */
  predicate PyTruthy(v: Value) {
    match v
    case Undefined => false
    case Null => false
    case Bool(b) => b
    case Number(n) => n.Num? && n.m != 0
    case Str(s) => s != ""
    case Items(xs) => xs != []
  }

  /** `[int(part) for part in parts]`: `None` when some part is not an integer literal. */
  function ParseInts(parts: seq<string>): (r: Option<seq<int>>)
    ensures r.Some? ==> |r.value| == |parts| && forall i :: 0 <= i < |parts| ==> PyInt(parts[i]) == Some(r.value[i])
    ensures r.None? <==> exists i :: 0 <= i < |parts| && PyInt(parts[i]).None?
  {
    if parts == [] then Some([])
    else
      var head := PyInt(parts[0]);
      var rest := ParseInts(parts[1..]);
      if head.None? then None
      else if rest.None? then
        var i :| 0 <= i < |parts[1..]| && PyInt(parts[1..][i]).None?;
        assert PyInt(parts[i + 1]).None?;
        None
      else
        assert forall i :: 1 <= i < |parts| ==> parts[i] == parts[1..][i - 1];
        Some([head.value] + rest.value)
  }

  /** Some value of the record reaches Python as `None`. */
  predicate HasNone(d: Data) {
    exists k :: k in d && IsNone(d[k])
  }

  /**
   * The shape part of `process_node_data`: nothing for a falsy shape;
   * otherwise the string without its parentheses, split at commas, each part
   * stripped and read by `int`. A part that is not an integer raises
   * `ValueError`; a shape that is not a string has no `replace` and raises
   * `AttributeError`.
   */
  function ParseShape(shape: Value): (r: Outcome<Option<seq<int>>>)
    ensures r.Done? && r.value.Some? ==> |r.value.value| >= 1
  {
    if !PyTruthy(shape) then Done(None)
    else if !shape.Str? then Fails(Crash)
    else match ParseInts(Shapes.Tokens(shape.s))
      case None => Fails(BadInput)
      case Some(xs) => Done(Some(xs))
  }

  /** `process_node_data(node)`: `None` when some value is `None`, else the parsed input shape. */
  function ProcessNodeData(d: Data): (r: Outcome<Option<seq<int>>>)
    ensures r.Done? && r.value.Some? ==> |r.value.value| >= 1
    ensures HasNone(d) ==> r == Done(None)
  {
    if HasNone(d) then Done(None) else ParseShape(Get(d, "inputShape"))
  }

  /** A node the loop passes over: no parsed shape, and "input" nowhere in its type. */
  predicate Skipped(nodeType: string, shape: Option<seq<int>>) {
    shape.None? && !Text.Includes(nodeType, "input")
  }

  // ---------------------------------------------------------------------
  // The permute indexes

  /**
   * `[in_order.index(dim) for dim in out_order]`: `None` (a `ValueError`)
   * when some letter of the output order is not in the input order.
   */
  function PermuteIndexes(inOrder: string, outOrder: string): (r: Option<seq<int>>)
    ensures r.Some? ==>
              |r.value| == |outOrder|
              && forall i :: 0 <= i < |outOrder| ==> r.value[i] == Text.IndexOf(inOrder, outOrder[i]) && r.value[i] >= 0
    ensures r.None? <==> exists i :: 0 <= i < |outOrder| && outOrder[i] !in inOrder
  {
    if forall i :: 0 <= i < |outOrder| ==> outOrder[i] in inOrder
    then Some(seq(|outOrder|, i requires 0 <= i < |outOrder| => Text.IndexOf(inOrder, outOrder[i])))
    else None
  }

  // ---------------------------------------------------------------------
  // str.replace

  /** The pattern occurs in `s` at position `i`. */
  predicate OccursAt(s: string, pat: string, i: int) {
    0 <= i <= |s| - |pat| && s[i..i + |pat|] == pat
  }

  /** Python's `s.replace(old, new)`: every non-overlapping occurrence, scanning left to right. */
  function ReplaceAll(s: string, pat: string, rep: string): (r: string)
    requires pat != []
    decreases |s|
  {
    if |s| < |pat| then s
    else if s[..|pat|] == pat then rep + ReplaceAll(s[|pat|..], pat, rep)
    else [s[0]] + ReplaceAll(s[1..], pat, rep)
  }

  // ---------------------------------------------------------------------
  // Properties

  /**
   * Every kind the editor creates with a default record maps to a known
   * layer class; the three input kinds, and only they, map to `nn.Identity`.
   */
  lemma KnownKinds(k: NodeCatalog.Kind)
    requires NodeCatalog.InitialData(k).Some?
    ensures LayerClass(NodeCatalog.KindName(k)) != UnknownLayer
    ensures LayerClass(NodeCatalog.KindName(k)) == NnIdentity
            <==> k in {NodeCatalog.TabularInput, NodeCatalog.TimeseriesInput, NodeCatalog.ImageInput}
  {
    LayerClassOfKind(k);
  }

  /** The four oldest kinds have no layer class. */
  lemma LegacyKindsUnknown(k: NodeCatalog.Kind)
    requires NodeCatalog.InitialData(k).None?
    ensures LayerClass(NodeCatalog.KindName(k)) == UnknownLayer
  {
    LayerClassOfKind(k);
  }

  /** Looking a kind's key up in `LAYER_MAPPING` gives the kind's layer class. */
  lemma LayerClassOfKind(k: NodeCatalog.Kind)
    ensures LayerClass(NodeCatalog.KindName(k)) == KindClass(k)
  {
    match k
    case PositionLogger | TextUpdater | FullyConnected | RegressionOutput
       | TabularInput | TimeseriesInput | ImageInput | Tanh | Relu =>
      LayerClassOfEarlyKind(k);
    case Sigmoid | Linear | Conv1D | Conv2D | LSTM | GRU | MaxPool1D | MaxPool2D | LayerNorm =>
      LayerClassOfLayerKind(k);
    case _ =>
      LayerClassOfLateKind(k);
  }

  /** `LayerClassOfKind` for the legacy, input and first activation kinds. */
  lemma LayerClassOfEarlyKind(k: NodeCatalog.Kind)
    requires k in {NodeCatalog.PositionLogger, NodeCatalog.TextUpdater, NodeCatalog.FullyConnected,
                   NodeCatalog.RegressionOutput, NodeCatalog.TabularInput, NodeCatalog.TimeseriesInput,
                   NodeCatalog.ImageInput, NodeCatalog.Tanh, NodeCatalog.Relu}
    ensures LayerClass(NodeCatalog.KindName(k)) == KindClass(k)
  {
  }

  /** `LayerClassOfKind` for the sigmoid, linear, convolution, recurrent, pooling and layer-norm kinds. */
  lemma LayerClassOfLayerKind(k: NodeCatalog.Kind)
    requires k in {NodeCatalog.Sigmoid, NodeCatalog.Linear, NodeCatalog.Conv1D, NodeCatalog.Conv2D,
                   NodeCatalog.LSTM, NodeCatalog.GRU, NodeCatalog.MaxPool1D, NodeCatalog.MaxPool2D,
                   NodeCatalog.LayerNorm}
    ensures LayerClass(NodeCatalog.KindName(k)) == KindClass(k)
  {
  }

  /** `LayerClassOfKind` for the batch-norm, dropout and tensor-operator kinds. */
  lemma LayerClassOfLateKind(k: NodeCatalog.Kind)
    requires k in {NodeCatalog.BatchNorm1D, NodeCatalog.BatchNorm2D, NodeCatalog.Dropout,
                   NodeCatalog.Dropout1D, NodeCatalog.Dropout2D, NodeCatalog.Permute,
                   NodeCatalog.Concat, NodeCatalog.Flatten}
    ensures LayerClass(NodeCatalog.KindName(k)) == KindClass(k)
  {
  }

  /** "dropout1d" maps to plain `nn.Dropout`, so no node type reaches the `nn.Dropout1d` branch. */
  lemma Dropout1dIsPlainDropout(nodeType: string)
    ensures LayerClass("dropout1d") == NnDropout
    ensures LayerClass(nodeType) != NnDropout1d
  {
  }

  /** The dimensions of a list of sizes. */
  function SizeDims(sizes: seq<int>): (ds: seq<Shapes.Dim>)
    ensures |ds| == |sizes| && forall i :: 0 <= i < |sizes| ==> ds[i] == Shapes.Size(sizes[i])
  {
    seq(|sizes|, i requires 0 <= i < |sizes| => Shapes.Size(sizes[i]))
  }

  /** Parts that each read as the matching integer parse to those integers. */
  lemma {:induction false} ParseIntsOf(parts: seq<string>, xs: seq<int>)
    requires |parts| == |xs| && forall i :: 0 <= i < |parts| ==> PyInt(parts[i]) == Some(xs[i])
    ensures ParseInts(parts) == Some(xs)
  {
    if parts != [] {
      assert PyInt(parts[0]) == Some(xs[0]);
      forall i | 0 <= i < |parts[1..]| ensures PyInt(parts[1..][i]) == Some(xs[1..][i]) {
        assert parts[1..][i] == parts[i + 1];
      }
      ParseIntsOf(parts[1..], xs[1..]);
      assert [xs[0]] + xs[1..] == xs;
    }
  }

  /** `int` reads back every size text. */
  lemma ParseSizeTexts(sizes: seq<int>)
    ensures ParseInts(Shapes.DimTexts(SizeDims(sizes))) == Some(sizes)
  {
    var ds := SizeDims(sizes);
    var ts := Shapes.DimTexts(ds);
    forall i | 0 <= i < |ts| ensures PyInt(ts[i]) == Some(sizes[i]) {
      assert ts[i] == IntText(sizes[i]);
      PyIntOfIntText(sizes[i]);
    }
    ParseIntsOf(ts, sizes);
  }

  /** A shape of sizes rendered as the editor renders it parses back to those sizes. */
  lemma ShapeRoundTrip(sizes: seq<int>)
    requires |sizes| >= 1
    ensures ParseShape(Str(Shapes.Render(SizeDims(sizes)))) == Done(Some(sizes))
  {
    var ds := SizeDims(sizes);
    assert Shapes.ValidDims(ds) by {
      forall i | 0 <= i < |ds| ensures Shapes.ValidDim(ds[i]) {
        assert ds[i].Size?;
      }
    }
    Shapes.TokensOfRenderDims(ds);
    var text := Shapes.Render(ds);
    assert PyTruthy(Str(text));
    ParseSizeTexts(sizes);
    assert Shapes.Tokens(text) == Shapes.DimTexts(ds);
  }

  /** A record holding only a rendered shape of sizes, with no null value, gives those sizes. */
  lemma RecordRoundTrip(d: Data, sizes: seq<int>)
    requires |sizes| >= 1 && !HasNone(d)
    requires Get(d, "inputShape") == Str(Shapes.Render(SizeDims(sizes)))
    ensures ProcessNodeData(d) == Done(Some(sizes))
  {
    ShapeRoundTrip(sizes);
  }

  /** A name such as N or Lout is not an integer literal for Python. */
  lemma SymbolNotInt(name: string)
    requires Shapes.ValidSym(name)
    ensures PyInt(name).None?
  {
    assert !Text.IsSpace(name[0]) && !Text.IsSpace(name[|name| - 1]) by {
      assert Shapes.IsLetter(name[|name| - 1]) || IsDigit(name[|name| - 1]) || name[|name| - 1] == '_';
    }
    Text.TrimNoSpace(name);
    assert !IsDigit(name[0]);
  }

  /**
   * A rendered shape with a symbolic axis (the editor's placeholders such as
   * "(N, 3, L)", or "Lout") makes the generator raise `ValueError`.
   */
  lemma SymbolicShapeRejected(ds: seq<Shapes.Dim>, j: int)
    requires |ds| >= 1 && Shapes.ValidDims(ds) && 0 <= j < |ds| && ds[j].Sym?
    ensures ParseShape(Str(Shapes.Render(ds))) == Fails(BadInput)
  {
    Shapes.TokensOfRenderDims(ds);
    var text := Shapes.Render(ds);
    var ts := Shapes.Tokens(text);
    assert ts[j] == ds[j].name;
    assert Shapes.ValidDim(ds[j]);
    SymbolNotInt(ds[j].name);
    assert ParseInts(ts).None?;
    assert PyTruthy(Str(text));
  }

  /** A missing, null or empty input shape parses to nothing, so only input kinds are kept. */
  lemma NoShapeSkipsNonInput(d: Data, nodeType: string)
    requires !PyTruthy(Get(d, "inputShape"))
    ensures ProcessNodeData(d) == Done(None)
    ensures Skipped(nodeType, ProcessNodeData(d).value) <==> !Text.Includes(nodeType, "input")
  {
  }

  /**
   * For a reordering of the input order the indexes are a permutation of
   * 0..n-1, and `torch.permute` with them moves the axes exactly as the
   * permute node's displayed shape does.
   */
  lemma PermuteIndexesMatchNode<T>(xs: seq<T>, inOrder: string, outOrder: string)
    requires PermuteNode.Reorders(outOrder, inOrder) && |xs| == |inOrder|
    ensures PermuteIndexes(inOrder, outOrder).Some?
    ensures var ix := PermuteIndexes(inOrder, outOrder).value;
            |ix| == |inOrder|
            && (forall i :: 0 <= i < |ix| ==> 0 <= ix[i] < |inOrder|)
            && (forall i, j :: 0 <= i < j < |ix| ==> ix[i] != ix[j])
            && (forall k :: 0 <= k < |inOrder| ==> k in ix)
            && PermuteNode.Gatherable(xs, inOrder, outOrder)
            && forall i :: 0 <= i < |ix| ==> PermuteNode.Gather(xs, inOrder, outOrder)[i] == xs[ix[i]]
  {
    forall i | 0 <= i < |outOrder| ensures outOrder[i] in inOrder {
      assert outOrder[i] in outOrder;
    }
    var ix := PermuteIndexes(inOrder, outOrder).value;
    PermuteNode.ReorderGatherable(xs, inOrder, outOrder);
    forall i, j | 0 <= i < j < |ix| ensures ix[i] != ix[j] {
      PermuteNode.FoundIn(inOrder, outOrder[i]);
      PermuteNode.FoundIn(inOrder, outOrder[j]);
    }
    forall k | 0 <= k < |inOrder| ensures k in ix {
      assert inOrder[k] in inOrder;
      var i := Text.IndexOf(outOrder, inOrder[k]);
      PermuteNode.IndexOfDistinct(inOrder, k);
      assert ix[i] == k;
    }
  }

  /** A letter of the output order missing from the input order makes `index` raise `ValueError`. */
  lemma PermuteMissingLetter(inOrder: string, outOrder: string, i: int)
    requires 0 <= i < |outOrder| && outOrder[i] !in inOrder
    ensures PermuteIndexes(inOrder, outOrder).None?
  {
  }

  /** `replace` changes nothing in a text where the pattern does not occur. */
  lemma {:induction false} ReplaceAbsent(s: string, pat: string, rep: string)
    requires pat != []
    requires forall i :: 0 <= i <= |s| - |pat| ==> !OccursAt(s, pat, i)
    ensures ReplaceAll(s, pat, rep) == s
    decreases |s|
  {
    if |s| >= |pat| {
      assert s[0..|pat|] == s[..|pat|];
      assert !OccursAt(s, pat, 0);
      forall i | 0 <= i <= |s[1..]| - |pat| ensures !OccursAt(s[1..], pat, i) {
        assert s[1..][i..i + |pat|] == s[i + 1..i + 1 + |pat|];
        assert !OccursAt(s, pat, i + 1);
      }
      ReplaceAbsent(s[1..], pat, rep);
      assert [s[0]] + s[1..] == s;
    }
  }

  /** The only name the rename meets when at most one input variable was made: "x1" becomes "x". */
  lemma RenameSingleInput()
    ensures ReplaceAll("x1", "x1", "x") == "x"
  {
    assert "x1"[..2] == "x1";
    assert "x1"[2..] == "";
  }
}
