/**
 * `generate_pytorch_model`: the walk over the nodes in topological order
 * that names a tensor variable per node, records one constructor line per
 * layer module and one forward line per operation, and renames "x1" to "x"
 * when the model has a single input. Lines are kept as the values they
 * format (the layer, its number, the variables it reads), not as text.
 */
module ModelGenerator {
  import opened Wrappers
  import opened Numbers
  import opened Values
  import Text
  import Shapes
  import NodeCatalog
  import opened PyTorchCompiler

  // ---------------------------------------------------------------------
  // Layer families and their counters

  /** The classes that share a numbered attribute prefix in `__init__`. */
  datatype Family = ConvFamily | RnnFamily | LinearFamily | PoolFamily | NormFamily | DropoutFamily

  function FamilyOf(op: Op): Option<Family> {
    match op
    case NnLinear => Some(LinearFamily)
    case NnConv1d | NnConv2d => Some(ConvFamily)
    case NnLSTM | NnGRU => Some(RnnFamily)
    case NnMaxPool1d | NnMaxPool2d => Some(PoolFamily)
    case NnLayerNorm | NnBatchNorm1d | NnBatchNorm2d => Some(NormFamily)
    case NnDropout | NnDropout1d | NnDropout2d => Some(DropoutFamily)
    case _ => None
  }

  function Prefix(f: Family): string {
    match f
    case ConvFamily => "conv"
    case RnnFamily => "rnn"
    case LinearFamily => "linear"
    case PoolFamily => "pool"
    case NormFamily => "norm"
    case DropoutFamily => "dropout"
  }

  /** The attribute a layer module is stored under, such as `self.conv_2`. */
  function LayerName(f: Family, number: nat): string {
    "self." + Prefix(f) + "_" + NatText(number)
  }

  /** `conv_layer_num`, `rnn_layer_num`, ...: the next number of each family. */
  datatype Counters = Counters(conv: nat, rnn: nat, linear: nat, pool: nat, norm: nat, dropout: nat)

  function Count(c: Counters, f: Family): nat {
    match f
    case ConvFamily => c.conv
    case RnnFamily => c.rnn
    case LinearFamily => c.linear
    case PoolFamily => c.pool
    case NormFamily => c.norm
    case DropoutFamily => c.dropout
  }

  /** `<family>_layer_num += 1`: that family's counter moves on and no other does. */
  function Bump(c: Counters, f: Family): (r: Counters)
    ensures forall g :: Count(r, g) == Count(c, g) + (if g == f then 1 else 0)
  {
    match f
    case ConvFamily => c.(conv := c.conv + 1)
    case RnnFamily => c.(rnn := c.rnn + 1)
    case LinearFamily => c.(linear := c.linear + 1)
    case PoolFamily => c.(pool := c.pool + 1)
    case NormFamily => c.(norm := c.norm + 1)
    case DropoutFamily => c.(dropout := c.dropout + 1)
  }

  // ---------------------------------------------------------------------
  // Generated lines

  /** One line of `__init__`: a numbered module of a family, or `UnknownLayer(...)` for a node. */
  datatype Layer = Module(family: Family, number: nat, op: Op) | UnknownModule(nodeId: string)

  /** A tensor variable of the generated `forward`: `x<index>`. */
  datatype Var = X(index: nat)

  /** One line of `forward`: the variable it assigns and the variables it reads. */
  datatype Forward<N> =
    | ModuleCall(target: N, family: Family, number: nat, input: N)
    | Functional(target: N, op: Op, inputs: seq<N>)
    | PermuteCall(target: N, input: N, indexes: seq<int>)

  /** The variables a forward line mentions, the assigned one first. */
  function ForwardNames<N>(f: Forward<N>): (names: seq<N>)
    ensures |names| >= 1 && names[0] == f.target
  {
    match f
    case ModuleCall(target, _, _, input) => [target, input]
    case Functional(target, _, inputs) => [target] + inputs
    case PermuteCall(target, input, _) => [target, input]
  }

  /** The lines one node contributes. */
  datatype Emitted = Emitted(layer: Option<Layer>, forward: Option<Forward<Var>>)

  // ---------------------------------------------------------------------
  // Keys read from the node record

  /**
   * The record keys a class's lines index with `nd[...]`; a missing one is a
   * `KeyError`. The batch-norm lines read their running-stats flag under
   * `statsKey`.
   */
  function ReadKeys(op: Op, statsKey: string): set<string> {
    match op
    case NnLinear => {"numNeurons", "bias"}
    case NnConv1d | NnConv2d => {"numFilters", "kernelSize", "stride", "padding", "dilation"}
    case NnDropout | NnDropout1d | NnDropout2d => {"p"}
    case NnLayerNorm => {"normalizedShape", "eps", "elementwiseAffine"}
    case NnBatchNorm1d | NnBatchNorm2d => {"eps", "momentum", "affine", statsKey}
    case NnMaxPool1d | NnMaxPool2d => {"kernelSize", "stride", "padding", "dilation"}
    case NnLSTM | NnGRU => {"hiddenSize", "numLayers", "dropout", "bidirectional"}
    case TorchFlatten => {"flattenStart", "flattenEnd"}
    case TorchCat => {"dim"}
    case _ => {}
  }

  /** The keys as the batch-norm branches read them: `track_running_stats`. */
  function RequiredKeysAsWritten(op: Op): (keys: set<string>)
    ensures op in {NnBatchNorm1d, NnBatchNorm2d} ==> "track_running_stats" in keys
  {
    ReadKeys(op, "track_running_stats")
  }

  /** The keys with the record's own name for the running-stats flag, `trackRunningStats`. */
  function RequiredKeys(op: Op): (keys: set<string>)
    ensures "track_running_stats" !in keys
  {
    ReadKeys(op, "trackRunningStats")
  }

  /** Every required key reaches Python. */
  predicate HasKeys(d: Data, keys: set<string>) {
    forall k :: k in keys ==> Has(d, k)
  }

  /** The shape a class's constructor line indexes: the last axis, or axis 1 for channels. */
  predicate ShapeFits(op: Op, shape: Option<seq<int>>) {
    match op
    case NnLinear | NnLSTM | NnGRU | NnLayerNorm => shape.Some?
    case NnConv1d | NnConv2d | NnBatchNorm1d | NnBatchNorm2d => shape.Some? && |shape.value| >= 2
    case _ => true
  }

  /** A value Python accepts as a slice bound: a bool or an integral number. */
  predicate SliceIndex(v: Value) {
    v.Bool? || (v.Number? && v.n.Num? && v.n.e == 0)
  }

  /**
   * The record and shape let the class's lines be formatted without an
   * exception, when the batch-norm lines read their flag under `statsKey`.
   */
  predicate Formattable(op: Op, d: Data, shape: Option<seq<int>>, statsKey: string) {
    HasKeys(d, ReadKeys(op, statsKey)) && ShapeFits(op, shape)
    && (op == NnLayerNorm ==> SliceIndex(d["normalizedShape"]))
  }

  /** `[variable_map[source] for source in predecessors]`. */
  function Lookup(preds: seq<string>, vmap: map<string, Var>): (vs: seq<Var>)
    requires forall p :: p in preds ==> p in vmap
    ensures |vs| == |preds| && forall i :: 0 <= i < |preds| ==> vs[i] == vmap[preds[i]]
  {
    seq(|preds|, i requires 0 <= i < |preds| => vmap[preds[i]])
  }

  /**
   * The permute branch: the output order is read first, then for each of its
   * letters its index in the input order (a missing letter is a `ValueError`),
   * then the parent variable.
   */
  function PermuteForward(d: Data, varName: Var, parentVar: Option<Var>): (r: Outcome<Emitted>)
    ensures r.Done? ==>
              parentVar.Some? && r.value.layer.None? && r.value.forward.Some?
              && r.value.forward.value.PermuteCall?
              && r.value.forward.value.target == varName && r.value.forward.value.input == parentVar.value
  {
    if !Has(d, "outputShapeOrder") || !d["outputShapeOrder"].Str? then Fails(Crash)
    else
      var outOrder := d["outputShapeOrder"].s;
      if outOrder != "" && (!Has(d, "inputShapeOrder") || !d["inputShapeOrder"].Str?) then Fails(Crash)
      else
        var indexes := if outOrder == "" then Some([]) else PermuteIndexes(d["inputShapeOrder"].s, outOrder);
        if indexes.None? then Fails(BadInput)
        else if parentVar.None? then Fails(Crash)
        else Done(Emitted(None, Some(PermuteCall(varName, parentVar.value, indexes.value))))
  }

  /**
   * The `if layer_class == ...` chain for one node: its constructor line and
   * its forward line. `number` is the family counter before this node.
   * Formatting a line raises when a key or axis it reads is missing, or
   * when no single-parent node has yet set `parent_var`.
   */
  function Emit(op: Op, d: Data, shape: Option<seq<int>>, nodeId: string, varName: Var,
                parentVar: Option<Var>, preds: seq<string>, vmap: map<string, Var>, number: nat): (r: Outcome<Emitted>)
    ensures r.Done? && r.value.forward.Some? ==>
              r.value.forward.value.target == varName
              && forall v :: v in ForwardNames(r.value.forward.value)[1..] ==>
                   parentVar == Some(v) || exists p :: p in vmap && vmap[p] == v
    ensures r.Done? && r.value.layer.Some? && r.value.layer.value.Module? ==>
              FamilyOf(op).Some? && r.value.layer.value == Module(FamilyOf(op).value, number, op)
    ensures r.Done? && FamilyOf(op).Some? ==> r.value.layer == Some(Module(FamilyOf(op).value, number, op))
  {
    if op == NnIdentity then Done(Emitted(None, None))
    else if op == UnknownLayer then Done(Emitted(Some(UnknownModule(nodeId)), None))
    else if op == TorchPermute then PermuteForward(d, varName, parentVar)
    else if op == TorchCat then CatForward(d, varName, preds, vmap)
    else ClassForward(op, d, shape, varName, parentVar, number, "track_running_stats")
  }

  /**
   * The concat branch: every predecessor's variable is looked up (a missing
   * one raises), then the axis key is read.
   */
  function CatForward(d: Data, varName: Var, preds: seq<string>, vmap: map<string, Var>): (r: Outcome<Emitted>)
    ensures r.Done? <==> (forall p :: p in preds ==> p in vmap) && HasKeys(d, RequiredKeys(TorchCat))
    ensures r.Done? ==>
              r.value.layer.None? && r.value.forward.Some? && r.value.forward.value.target == varName
              && forall v :: v in ForwardNames(r.value.forward.value)[1..] ==> exists p :: p in vmap && vmap[p] == v
  {
    if exists p :: p in preds && p !in vmap then Fails(Crash)
    else if !HasKeys(d, RequiredKeys(TorchCat)) then Fails(Crash)
    else
      var inputs := Lookup(preds, vmap);
      assert forall v :: v in inputs ==> exists p :: p in vmap && vmap[p] == v;
      assert ForwardNames(Functional(varName, TorchCat, inputs))[1..] == inputs;
      Done(Emitted(None, Some(Functional(varName, TorchCat, inputs))))
  }

  /**
   * The branches of the modules and of the one-input functions: the lines
   * read the record keys and shape axes, then `parent_var`. The walk reads
   * the batch-norm flag under `track_running_stats`, as the code does.
   */
  function ClassForward(op: Op, d: Data, shape: Option<seq<int>>, varName: Var,
                        parentVar: Option<Var>, number: nat, statsKey: string): (r: Outcome<Emitted>)
    ensures r.Done? <==> Formattable(op, d, shape, statsKey) && parentVar.Some?
    ensures r.Done? ==>
              r.value.forward.Some? && r.value.forward.value.target == varName
              && ForwardNames(r.value.forward.value)[1..] == [parentVar.value]
              && r.value.layer == (if FamilyOf(op).Some? then Some(Module(FamilyOf(op).value, number, op)) else None)
  {
    if !Formattable(op, d, shape, statsKey) || parentVar.None? then Fails(Crash)
    else match FamilyOf(op)
      case Some(f) => Done(Emitted(Some(Module(f, number, op)), Some(ModuleCall(varName, f, number, parentVar.value))))
      case None => Done(Emitted(None, Some(Functional(varName, op, [parentVar.value]))))
  }

  /** The branches that set `need_torch`. */
  predicate NeedsTorch(op: Op) {
    op in {TorchFlatten, TorchCat, TorchPermute}
  }

  /** The branches that set `need_functional`. */
  predicate NeedsFunctional(op: Op) {
    op in {FRelu, FTanh, FSigmoid}
  }

  // ---------------------------------------------------------------------
  // The graph as the generator sees it

  /** The sources of the edges into `id`, one per edge, in edge order. */
  function Sources(edges: seq<Edge>, id: string): (r: seq<string>)
    ensures forall p :: p in r <==> exists j :: 0 <= j < |edges| && edges[j].target == id && edges[j].source == p
  {
    if edges == [] then []
    else
      var rest := Sources(edges[1..], id);
      assert forall j :: 1 <= j < |edges| ==> edges[j] == edges[1..][j - 1];
      (if edges[0].target == id then [edges[0].source] else []) + rest
  }

  /** The first occurrence of each element, in order, skipping those already `seen`. */
  function Dedup(xs: seq<string>, seen: set<string>): (r: seq<string>)
    ensures forall x :: x in r <==> x in xs && x !in seen
    ensures forall i, j :: 0 <= i < j < |r| ==> r[i] != r[j]
  {
    if xs == [] then []
    else if xs[0] in seen then Dedup(xs[1..], seen)
    else [xs[0]] + Dedup(xs[1..], seen + {xs[0]})
  }

  /** `G.predecessors(node_id)`: each source of an edge into `id` once, in the order first linked. */
  function Preds(edges: seq<Edge>, id: string): (r: seq<string>)
    ensures forall i, j :: 0 <= i < j < |r| ==> r[i] != r[j]
    ensures forall p :: p in r <==> exists j :: 0 <= j < |edges| && edges[j].target == id && edges[j].source == p
  {
    Dedup(Sources(edges, id), {})
  }

  /** `G.successors(node_id)` is non-empty. */
  predicate HasChildren(edges: seq<Edge>, id: string) {
    exists j :: 0 <= j < |edges| && edges[j].source == id
  }

  /** Some parent of `id` has another child. */
  predicate HasSiblings(edges: seq<Edge>, id: string) {
    exists j, k :: 0 <= j < |edges| && 0 <= k < |edges|
                   && edges[j].target == id && edges[k].source == edges[j].source && edges[k].target != id
  }

  // ---------------------------------------------------------------------
  // The walk

  /** The generator's state between two nodes. `parentVar` keeps its value from node to node. */
  datatype Gen = Gen(
    layers: seq<Layer>, forwards: seq<Forward<Var>>, counters: Counters,
    inputVars: seq<Var>, variableMap: map<string, Var>, outputVars: seq<Var>,
    inputCounter: nat, parentVar: Option<Var>, needTorch: bool, needFunctional: bool)

  /** The state before the first node. */
  function Initial(): Gen {
    Gen([], [], Counters(1, 1, 1, 1, 1, 1), [], map[], [], 1, None, false, false)
  }

  /** The state after naming a node, with the name it got. */
  datatype Naming = Naming(g: Gen, varName: Var)

  /**
   * Naming a node: a node with no parent gets a fresh input variable; a node
   * with one parent takes the parent's variable and sets `parent_var`; a node
   * with several parents or with siblings gets a fresh variable. A node
   * without children adds its variable to the outputs.
   */
  function Name(edges: seq<Edge>, g: Gen, id: string): (r: Outcome<Naming>)
    ensures r.Done? ==> id in r.value.g.variableMap && r.value.g.variableMap[id] == r.value.varName
    ensures r.Done? ==> r.value.g.inputCounter >= g.inputCounter
  {
    NameAmong(g, id, Preds(edges, id), HasSiblings(edges, id), HasChildren(edges, id))
  }

  /** `Name` once the node's predecessors and whether it has siblings and children are known. */
  function NameAmong(g: Gen, id: string, preds: seq<string>, siblings: bool, children: bool): (r: Outcome<Naming>)
    ensures r.Done? ==> id in r.value.g.variableMap && r.value.g.variableMap[id] == r.value.varName
    ensures r.Done? ==> r.value.g.inputCounter >= g.inputCounter
  {
    if |preds| == 1 && preds[0] !in g.variableMap then Fails(Crash)
    else
      var first := Taken(g, preds);
      var numbered := |preds| > 1 || siblings;
      var varName :=
        if numbered then X(first.inputCounter)
        else if |preds| == 0 then X(g.inputCounter)
        else g.variableMap[preds[0]];
      Done(Naming(Registered(first, id, varName, numbered, children), varName))
  }

  /**
   * The start of naming: an input node takes a fresh input variable, a node
   * with one parent sets `parent_var` to the parent's variable.
   */
  function Taken(g: Gen, preds: seq<string>): Gen
    requires |preds| == 1 ==> preds[0] in g.variableMap
  {
    if |preds| == 0 then g.(inputCounter := g.inputCounter + 1, inputVars := g.inputVars + [X(g.inputCounter)])
    else if |preds| == 1 then g.(parentVar := Some(g.variableMap[preds[0]]))
    else g
  }

  /**
   * The end of naming: a numbered node moves the input counter on, a node
   * without children is added to the outputs, and the node is mapped to its
   * variable.
   */
  function Registered(first: Gen, id: string, varName: Var, numbered: bool, children: bool): (r: Gen)
    ensures id in r.variableMap && r.variableMap[id] == varName
    ensures r.inputCounter >= first.inputCounter
  {
    var second := if numbered then first.(inputCounter := first.inputCounter + 1) else first;
    var outputs := if children then second.outputVars else second.outputVars + [varName];
    second.(outputVars := outputs, variableMap := second.variableMap[id := varName])
  }

  function Opt<T>(x: Option<T>): (r: seq<T>)
    ensures |r| <= 1
  {
    if x.Some? then [x.value] else []
  }

  /** The lines and flags one node adds to the state. */
  function Record(g: Gen, op: Op, e: Emitted): Gen {
    g.(layers := g.layers + Opt(e.layer), forwards := g.forwards + Opt(e.forward),
       counters := if FamilyOf(op).Some? then Bump(g.counters, FamilyOf(op).value) else g.counters,
       needTorch := g.needTorch || NeedsTorch(op), needFunctional := g.needFunctional || NeedsFunctional(op))
  }

  /**
   * The end of the loop body: the family counter moves on, the import flags
   * are raised, and the emitted module and forward line are appended.
   */
  method RecordLines(g0: Gen, op: Op, e: Emitted) returns (g: Gen)
    ensures g == Record(g0, op, e)
  {
    g := g0;
    var family := FamilyOf(op);
    if family.Some? {
      g := g.(counters := Bump(g.counters, family.value));
    }
    g := g.(needTorch := g.needTorch || NeedsTorch(op), needFunctional := g.needFunctional || NeedsFunctional(op));
    if e.layer.Some? {
      g := g.(layers := g.layers + [e.layer.value]);
    }
    if e.forward.Some? {
      g := g.(forwards := g.forwards + [e.forward.value]);
    }
  }

  /** One iteration of the loop, for the node `id`. */
  function Step(nodes: map<string, Node>, edges: seq<Edge>, g: Gen, id: string): Outcome<Gen> {
    if id !in nodes then Fails(Crash)
    else
      var node := nodes[id];
      var op := LayerClass(node.kind);
      match ProcessNodeData(node.data)
      case Fails(f) => Fails(f)
      case Done(shape) =>
        if Skipped(node.kind, shape) then Done(g)
        else match Name(edges, g, id)
          case Fails(f) => Fails(f)
          case Done(n) =>
            var number := if FamilyOf(op).Some? then Count(g.counters, FamilyOf(op).value) else 0;
            match Emit(op, node.data, shape, id, n.varName, n.g.parentVar, Preds(edges, id), n.g.variableMap, number)
            case Fails(f) => Fails(f)
            case Done(e) => Done(Record(n.g, op, e))
  }

  /** The loop over the nodes in the given order, stopping at the first exception. */
  function Run(nodes: map<string, Node>, edges: seq<Edge>, g: Gen, order: seq<string>): Outcome<Gen>
    decreases |order|
  {
    if order == [] then Done(g)
    else match Step(nodes, edges, g, order[0])
      case Fails(f) => Fails(f)
      case Done(g') => Run(nodes, edges, g', order[1..])
  }

  /** The generated model: its lines, its signature's inputs, its returned outputs and its imports. */
  datatype Model = Model(layers: seq<Layer>, forwards: seq<Forward<string>>, inputVars: seq<string>,
                         outputVars: seq<string>, needTorch: bool, needFunctional: bool)

  /** A variable as the code spells it, `f"x{input_counter}"`. */
  function VarText(v: Var): string {
    "x" + NatText(v.index)
  }

  /** How a variable appears in the final code: `model_code.replace("x1", "x")` when `renamed`. */
  function Spell(v: Var, renamed: bool): string {
    if renamed then ReplaceAll(VarText(v), "x1", "x") else VarText(v)
  }

  function SpellAll(vs: seq<Var>, renamed: bool): (r: seq<string>)
    ensures |r| == |vs| && forall i :: 0 <= i < |vs| ==> r[i] == Spell(vs[i], renamed)
  {
    seq(|vs|, i requires 0 <= i < |vs| => Spell(vs[i], renamed))
  }

  function SpellForward(f: Forward<Var>, renamed: bool): (r: Forward<string>)
    ensures ForwardNames(r) == SpellAll(ForwardNames(f), renamed)
  {
    match f
    case ModuleCall(target, family, number, input) =>
      assert SpellAll([target, input], renamed) == [Spell(target, renamed), Spell(input, renamed)];
      ModuleCall(Spell(target, renamed), family, number, Spell(input, renamed))
    case Functional(target, op, inputs) =>
      assert SpellAll([target] + inputs, renamed) == [Spell(target, renamed)] + SpellAll(inputs, renamed);
      Functional(Spell(target, renamed), op, SpellAll(inputs, renamed))
    case PermuteCall(target, input, indexes) =>
      assert SpellAll([target, input], renamed) == [Spell(target, renamed), Spell(input, renamed)];
      PermuteCall(Spell(target, renamed), Spell(input, renamed), indexes)
  }

  function SpellForwards(fs: seq<Forward<Var>>, renamed: bool): (r: seq<Forward<string>>)
    ensures |r| == |fs| && forall i :: 0 <= i < |fs| ==> r[i] == SpellForward(fs[i], renamed)
  {
    seq(|fs|, i requires 0 <= i < |fs| => SpellForward(fs[i], renamed))
  }

  /** The model the final state formats; "x1" is renamed "x" when `input_counter <= 2`. */
  function Finish(g: Gen): Model {
    var renamed := g.inputCounter <= 2;
    Model(g.layers, SpellForwards(g.forwards, renamed), SpellAll(g.inputVars, renamed),
          SpellAll(g.outputVars, renamed), g.needTorch, g.needFunctional)
  }

  function Finished(o: Outcome<Gen>): Outcome<Model> {
    match o
    case Fails(f) => Fails(f)
    case Done(g) => Done(Finish(g))
  }

  /** The loop from position `i` is one step, then the loop from `i + 1`. */
  lemma RunFrom(nodes: map<string, Node>, edges: seq<Edge>, g: Gen, order: seq<string>, i: int)
    requires 0 <= i < |order|
    ensures Run(nodes, edges, g, order[i..])
            == match Step(nodes, edges, g, order[i])
               case Fails(f) => Fails(f)
               case Done(g') => Run(nodes, edges, g', order[i + 1..])
  {
    assert order[i..][0] == order[i] && order[i..][1..] == order[i + 1..];
  }

  /** A step that gets past the skip rule is the naming, then the class's lines. */
  lemma StepOfKept(nodes: map<string, Node>, edges: seq<Edge>, g: Gen, id: string, shape: Option<seq<int>>)
    requires id in nodes && ProcessNodeData(nodes[id].data) == Done(shape) && !Skipped(nodes[id].kind, shape)
    ensures var op := LayerClass(nodes[id].kind);
            Step(nodes, edges, g, id)
            == match Name(edges, g, id)
               case Fails(f) => Fails(f)
               case Done(n) =>
                 var number := if FamilyOf(op).Some? then Count(g.counters, FamilyOf(op).value) else 0;
                 match Emit(op, nodes[id].data, shape, id, n.varName, n.g.parentVar, Preds(edges, id), n.g.variableMap, number)
                 case Fails(f) => Fails(f)
                 case Done(e) => Done(Record(n.g, op, e))
  {
  }

  /** A kept node whose naming and lines succeed is recorded after them. */
  lemma StepOfParts(nodes: map<string, Node>, edges: seq<Edge>, g: Gen, id: string, shape: Option<seq<int>>,
                    n: Naming, e: Emitted)
    requires id in nodes && ProcessNodeData(nodes[id].data) == Done(shape) && !Skipped(nodes[id].kind, shape)
    requires Name(edges, g, id) == Done(n)
    requires var op := LayerClass(nodes[id].kind);
             var number := if FamilyOf(op).Some? then Count(g.counters, FamilyOf(op).value) else 0;
             Emit(op, nodes[id].data, shape, id, n.varName, n.g.parentVar, Preds(edges, id), n.g.variableMap, number)
             == Done(e)
    ensures Step(nodes, edges, g, id) == Done(Record(n.g, LayerClass(nodes[id].kind), e))
  {
    StepOfKept(nodes, edges, g, id, shape);
  }

  /**
   * The naming part of the loop body: the node's variable, the input and output
   * lists, `parent_var` and `variable_map` after naming it.
   */
  method NameNode(edges: seq<Edge>, g: Gen, nodeId: string) returns (r: Outcome<Naming>)
    ensures r == Name(edges, g, nodeId)
  {
    var predecessors := Preds(edges, nodeId);
    var siblings := HasSiblings(edges, nodeId);
    var children := HasChildren(edges, nodeId);
    r := NameNodeAmong(g, nodeId, predecessors, siblings, children);
  }

  /** `NameNode` once the predecessors and whether the node has siblings and children are known. */
  method NameNodeAmong(g: Gen, nodeId: string, predecessors: seq<string>, siblings: bool, children: bool)
    returns (r: Outcome<Naming>)
    ensures r == NameAmong(g, nodeId, predecessors, siblings, children)
  {
    var inputCounter := g.inputCounter;
    var inputVars := g.inputVars;
    var parentVar := g.parentVar;
    var outputVars := g.outputVars;
    var varName := X(0);
    if |predecessors| == 0 {
      varName := X(inputCounter);
      inputCounter := inputCounter + 1;
      inputVars := inputVars + [varName];
    } else if |predecessors| == 1 {
      if predecessors[0] !in g.variableMap {
        return Fails(Crash);
      }
      parentVar := Some(g.variableMap[predecessors[0]]);
      varName := parentVar.value;
    }
    if |predecessors| > 1 || siblings {
      varName := X(inputCounter);
      inputCounter := inputCounter + 1;
    }
    if !children {
      outputVars := outputVars + [varName];
    }
    var variableMap := g.variableMap[nodeId := varName];
    r := Done(Naming(g.(inputCounter := inputCounter, inputVars := inputVars, parentVar := parentVar,
                        outputVars := outputVars, variableMap := variableMap), varName));
  }

  /**
   * `generate_pytorch_model` over the nodes in topological order: the loop
   * updates the generator's variables, held together in `g`, and stops at
   * the first exception.
   */
  method Generate(nodes: map<string, Node>, edges: seq<Edge>, order: seq<string>) returns (r: Outcome<Model>)
    ensures r == Finished(Run(nodes, edges, Initial(), order))
  {
    var g := Initial();
    var i := 0;
    while i < |order|
      invariant 0 <= i <= |order|
      invariant Run(nodes, edges, g, order[i..]) == Run(nodes, edges, Initial(), order)
    {
      var nodeId := order[i];
      RunFrom(nodes, edges, g, order, i);
      if nodeId !in nodes {
        return Fails(Crash);
      }
      var node := nodes[nodeId];
      var layerClass := LayerClass(node.kind);
      var processed := ProcessNodeData(node.data);
      if processed.Fails? {
        return Fails(processed.fault);
      }
      var inputShape := processed.value;
      if inputShape.None? && !Text.Includes(node.kind, "input") {
        i := i + 1;
        continue;
      }
      var naming := NameNode(edges, g, nodeId);
      if naming.Fails? {
        StepOfKept(nodes, edges, g, nodeId, inputShape);
        return Fails(naming.fault);
      }
      var family := FamilyOf(layerClass);
      var number := if family.Some? then Count(g.counters, family.value) else 0;
      var varName := naming.value.varName;
      var emitted := Emit(layerClass, node.data, inputShape, nodeId, varName, naming.value.g.parentVar,
                          Preds(edges, nodeId), naming.value.g.variableMap, number);
      if emitted.Fails? {
        StepOfKept(nodes, edges, g, nodeId, inputShape);
        return Fails(emitted.fault);
      }
      StepOfParts(nodes, edges, g, nodeId, inputShape, naming.value, emitted.value);
      g := RecordLines(naming.value.g, layerClass, emitted.value);
      i := i + 1;
    }
    return Done(Finish(g));
  }

  // ---------------------------------------------------------------------
  // Properties

  /** A variable numbered below the input counter. */
  predicate Below(v: Var, bound: nat) {
    1 <= v.index < bound
  }

  /**
   * Every variable the state mentions was made by the input counter: it is
   * numbered from 1 up to the counter, and there are fewer input variables
   * than the counter.
   */
  predicate WellNamed(g: Gen) {
    |g.inputVars| < g.inputCounter
    && (forall v :: v in g.inputVars ==> Below(v, g.inputCounter))
    && (forall v :: v in g.outputVars ==> Below(v, g.inputCounter))
    && (forall id :: id in g.variableMap ==> Below(g.variableMap[id], g.inputCounter))
    && (g.parentVar.Some? ==> Below(g.parentVar.value, g.inputCounter))
    && (forall f :: f in g.forwards ==> forall v :: v in ForwardNames(f) ==> Below(v, g.inputCounter))
  }

  /** Naming a node keeps every variable below the (grown) counter. */
  lemma NameWellNamed(edges: seq<Edge>, g: Gen, id: string)
    requires WellNamed(g) && Name(edges, g, id).Done?
    ensures var n := Name(edges, g, id).value;
            WellNamed(n.g) && Below(n.varName, n.g.inputCounter)
            && n.g.layers == g.layers && n.g.forwards == g.forwards && n.g.counters == g.counters
  {
    NameAmongWellNamed(g, id, Preds(edges, id), HasSiblings(edges, id), HasChildren(edges, id));
  }

  /** `NameWellNamed` for any predecessors, siblings and children. */
  lemma NameAmongWellNamed(g: Gen, id: string, preds: seq<string>, siblings: bool, children: bool)
    requires WellNamed(g) && NameAmong(g, id, preds, siblings, children).Done?
    ensures var n := NameAmong(g, id, preds, siblings, children).value;
            WellNamed(n.g) && Below(n.varName, n.g.inputCounter)
            && n.g.layers == g.layers && n.g.forwards == g.forwards && n.g.counters == g.counters
  {
    TakenWellNamed(g, preds);
    var first := Taken(g, preds);
    var numbered := |preds| > 1 || siblings;
    var varName := NameAmong(g, id, preds, siblings, children).value.varName;
    if |preds| == 1 {
      assert g.variableMap[preds[0]] in g.variableMap.Values;
    }
    KeptWellNamed(first, id, varName, numbered, children);
  }

  /** Taking the input variable or the parent's keeps the state well named. */
  lemma TakenWellNamed(g: Gen, preds: seq<string>)
    requires WellNamed(g) && (|preds| == 1 ==> preds[0] in g.variableMap)
    ensures WellNamed(Taken(g, preds))
    ensures Taken(g, preds).inputCounter >= g.inputCounter
    ensures Taken(g, preds).layers == g.layers && Taken(g, preds).forwards == g.forwards
    ensures Taken(g, preds).counters == g.counters
  {
    var first := Taken(g, preds);
    if |preds| == 1 {
      assert g.variableMap[preds[0]] in g.variableMap.Values;
    }
    forall f | f in first.forwards ensures forall v :: v in ForwardNames(f) ==> Below(v, first.inputCounter) {
      assert f in g.forwards;
    }
  }

  /**
   * The last part of naming: renumbering, the output list and the variable
   * map keep the state well named.
   */
  lemma KeptWellNamed(first: Gen, id: string, varName: Var, numbered: bool, children: bool)
    requires WellNamed(first)
    requires numbered ==> varName == X(first.inputCounter)
    requires !numbered ==> Below(varName, first.inputCounter)
    ensures var n := Registered(first, id, varName, numbered, children);
            WellNamed(n) && Below(varName, n.inputCounter)
            && n.layers == first.layers && n.forwards == first.forwards && n.counters == first.counters
  {
    var n := Registered(first, id, varName, numbered, children);
    forall f | f in n.forwards ensures forall v :: v in ForwardNames(f) ==> Below(v, n.inputCounter) {
      assert f in first.forwards;
    }
  }

  /** One step keeps every variable of the state below the input counter. */
  lemma StepWellNamed(nodes: map<string, Node>, edges: seq<Edge>, g: Gen, id: string)
    requires WellNamed(g) && Step(nodes, edges, g, id).Done?
    ensures WellNamed(Step(nodes, edges, g, id).value)
  {
    var node := nodes[id];
    var shape := ProcessNodeData(node.data).value;
    if !Skipped(node.kind, shape) {
      StepOfKept(nodes, edges, g, id, shape);
      var n := Name(edges, g, id).value;
      NameWellNamed(edges, g, id);
      var op := LayerClass(node.kind);
      var number := if FamilyOf(op).Some? then Count(g.counters, FamilyOf(op).value) else 0;
      var e := Emit(op, node.data, shape, id, n.varName, n.g.parentVar, Preds(edges, id), n.g.variableMap, number).value;
      var g' := Record(n.g, op, e);
      assert g' == Step(nodes, edges, g, id).value;
      forall f | f in g'.forwards ensures forall v :: v in ForwardNames(f) ==> Below(v, g'.inputCounter) {
        if f !in n.g.forwards {
          assert e.forward == Some(f);
          forall v | v in ForwardNames(f) ensures Below(v, g'.inputCounter) {
            if v != f.target {
              assert v in ForwardNames(f)[1..];
              if n.g.parentVar != Some(v) {
                var p :| p in n.g.variableMap && n.g.variableMap[p] == v;
              }
            }
          }
        }
      }
    }
  }

  /** The whole walk keeps every variable below the input counter. */
  lemma {:induction false} RunWellNamed(nodes: map<string, Node>, edges: seq<Edge>, g: Gen, order: seq<string>)
    requires WellNamed(g) && Run(nodes, edges, g, order).Done?
    ensures WellNamed(Run(nodes, edges, g, order).value)
    decreases |order|
  {
    if order != [] {
      StepWellNamed(nodes, edges, g, order[0]);
      RunWellNamed(nodes, edges, Step(nodes, edges, g, order[0]).value, order[1..]);
    }
  }

  /** The first variable is spelled "x1", and the rename turns it into "x". */
  lemma FirstVarRenamed()
    ensures VarText(X(1)) == "x1"
    ensures Spell(X(1), true) == "x"
  {
    assert NatText(1) == ['1'];
    RenameSingleInput();
  }

  /** Variables numbered below 2 are all spelled "x" after the rename. */
  lemma SpellAllX(vs: seq<Var>)
    requires forall v :: v in vs ==> Below(v, 2)
    ensures forall s :: s in SpellAll(vs, true) ==> s == "x"
  {
    FirstVarRenamed();
    forall s | s in SpellAll(vs, true) ensures s == "x" {
      var i :| 0 <= i < |vs| && SpellAll(vs, true)[i] == s;
      assert vs[i] in vs;
      assert vs[i] == X(1);
    }
  }

  /** Forward lines whose variables are numbered below 2 mention only "x" after the rename. */
  lemma SpellForwardsX(fs: seq<Forward<Var>>)
    requires forall f :: f in fs ==> forall v :: v in ForwardNames(f) ==> Below(v, 2)
    ensures forall f :: f in SpellForwards(fs, true) ==> forall s :: s in ForwardNames(f) ==> s == "x"
  {
    forall f | f in SpellForwards(fs, true) ensures forall s :: s in ForwardNames(f) ==> s == "x" {
      var i :| 0 <= i < |fs| && SpellForwards(fs, true)[i] == f;
      assert fs[i] in fs;
      SpellAllX(ForwardNames(fs[i]));
    }
  }

  /**
   * With at most one numbered variable (`input_counter <= 2`) the model has
   * at most one input, and every variable in its signature, its forward
   * lines and its return is spelled "x".
   */
  lemma SingleInputSpelledX(nodes: map<string, Node>, edges: seq<Edge>, order: seq<string>)
    requires Run(nodes, edges, Initial(), order).Done?
    requires Run(nodes, edges, Initial(), order).value.inputCounter <= 2
    ensures var m := Finish(Run(nodes, edges, Initial(), order).value);
            |m.inputVars| <= 1
            && (forall s :: s in m.inputVars ==> s == "x")
            && (forall s :: s in m.outputVars ==> s == "x")
            && (forall f :: f in m.forwards ==> forall s :: s in ForwardNames(f) ==> s == "x")
  {
    var g := Run(nodes, edges, Initial(), order).value;
    RunWellNamed(nodes, edges, Initial(), order);
    SpellAllX(g.inputVars);
    SpellAllX(g.outputVars);
    SpellForwardsX(g.forwards);
  }

  /** Different variables are spelled differently, so without the rename no two are merged. */
  lemma VarTextInjective(v: Var, w: Var)
    requires VarText(v) == VarText(w)
    ensures v == w
  {
    assert NatText(v.index) == VarText(v)[1..];
    assert NatText(w.index) == VarText(w)[1..];
    NatTextValue(v.index);
    NatTextValue(w.index);
  }

  /**
   * Layer numbering: each family's counter is at least 1, every module line
   * is numbered below its family's counter, and within a family the numbers
   * increase along the lines.
   */
  predicate Numbered(g: Gen) {
    (forall f :: Count(g.counters, f) >= 1)
    && (forall i :: 0 <= i < |g.layers| && g.layers[i].Module? ==>
          1 <= g.layers[i].number < Count(g.counters, g.layers[i].family))
    && (forall i, j ::
          (0 <= i < j < |g.layers| && g.layers[i].Module? && g.layers[j].Module?
           && g.layers[i].family == g.layers[j].family) ==> g.layers[i].number < g.layers[j].number)
  }

  /** One step numbers a new module with its family's counter and moves that counter on. */
  lemma StepNumbered(nodes: map<string, Node>, edges: seq<Edge>, g: Gen, id: string)
    requires Numbered(g) && Step(nodes, edges, g, id).Done?
    ensures Numbered(Step(nodes, edges, g, id).value)
  {
    var node := nodes[id];
    var shape := ProcessNodeData(node.data).value;
    if !Skipped(node.kind, shape) {
      StepOfKept(nodes, edges, g, id, shape);
      var n := Name(edges, g, id).value;
      NameWellNamedFrame(edges, g, id);
      var op := LayerClass(node.kind);
      var number := if FamilyOf(op).Some? then Count(g.counters, FamilyOf(op).value) else 0;
      var e := Emit(op, node.data, shape, id, n.varName, n.g.parentVar, Preds(edges, id), n.g.variableMap, number).value;
      assert Numbered(n.g);
      RecordNumbered(n.g, op, e);
    }
  }

  /** Recording a module numbered with its family's counter keeps the numbering. */
  lemma RecordNumbered(g: Gen, op: Op, e: Emitted)
    requires Numbered(g)
    requires e.layer.Some? && e.layer.value.Module? ==>
               FamilyOf(op).Some? && e.layer.value == Module(FamilyOf(op).value, Count(g.counters, FamilyOf(op).value), op)
    ensures Numbered(Record(g, op, e))
  {
    var g' := Record(g, op, e);
    if e.layer.Some? && e.layer.value.Module? {
      assert g'.layers == g.layers + [e.layer.value];
    } else {
      assert g'.layers == g.layers + Opt(e.layer);
      assert forall i :: 0 <= i < |g'.layers| && g'.layers[i].Module? ==> i < |g.layers|;
    }
  }

  /** Naming a node does not touch the lines or the counters. */
  lemma NameWellNamedFrame(edges: seq<Edge>, g: Gen, id: string)
    requires Name(edges, g, id).Done?
    ensures var n := Name(edges, g, id).value;
            n.g.layers == g.layers && n.g.forwards == g.forwards && n.g.counters == g.counters
  {
  }

  /** The whole walk keeps the layer numbering. */
  lemma {:induction false} RunNumbered(nodes: map<string, Node>, edges: seq<Edge>, g: Gen, order: seq<string>)
    requires Numbered(g) && Run(nodes, edges, g, order).Done?
    ensures Numbered(Run(nodes, edges, g, order).value)
    decreases |order|
  {
    if order != [] {
      StepNumbered(nodes, edges, g, order[0]);
      RunNumbered(nodes, edges, Step(nodes, edges, g, order[0]).value, order[1..]);
    }
  }

  /** Two families never share an attribute name: their prefixes start with different letters. */
  lemma LayerNameInjective(f: Family, n: nat, f': Family, n': nat)
    requires LayerName(f, n) == LayerName(f', n')
    ensures f == f' && n == n'
  {
    assert LayerName(f, n)[5] == Prefix(f)[0];
    assert LayerName(f', n')[5] == Prefix(f')[0];
    var k := 5 + |Prefix(f)| + 1;
    assert NatText(n) == LayerName(f, n)[k..];
    assert NatText(n') == LayerName(f', n')[k..];
    NatTextValue(n);
    NatTextValue(n');
  }

  /** In a generated model no two module lines define the same attribute. */
  lemma LayerNamesDistinct(nodes: map<string, Node>, edges: seq<Edge>, order: seq<string>)
    requires Run(nodes, edges, Initial(), order).Done?
    ensures var ls := Run(nodes, edges, Initial(), order).value.layers;
            forall i, j :: 0 <= i < j < |ls| && ls[i].Module? && ls[j].Module? ==>
              LayerName(ls[i].family, ls[i].number) != LayerName(ls[j].family, ls[j].number)
  {
    RunNumbered(nodes, edges, Initial(), order);
    var ls := Run(nodes, edges, Initial(), order).value.layers;
    forall i, j | 0 <= i < j < |ls| && ls[i].Module? && ls[j].Module?
      ensures LayerName(ls[i].family, ls[i].number) != LayerName(ls[j].family, ls[j].number)
    {
      if LayerName(ls[i].family, ls[i].number) == LayerName(ls[j].family, ls[j].number) {
        LayerNameInjective(ls[i].family, ls[i].number, ls[j].family, ls[j].number);
      }
    }
  }

  /** A node that is not an input and whose record holds a null adds nothing. */
  lemma NullRecordSkipped(nodes: map<string, Node>, edges: seq<Edge>, g: Gen, id: string)
    requires id in nodes && HasNone(nodes[id].data) && !Text.Includes(nodes[id].kind, "input")
    ensures Step(nodes, edges, g, id) == Done(g)
  {
  }

  /**
   * A node skipped for a null value is given no variable, so the next node
   * whose one parent it is raises when it looks that variable up: the 500
   * outcome.
   */
  lemma SkippedParentFailsChild(nodes: map<string, Node>, edges: seq<Edge>, g: Gen,
                                parent: string, child: string, shape: Option<seq<int>>)
    requires parent in nodes && HasNone(nodes[parent].data) && !Text.Includes(nodes[parent].kind, "input")
    requires parent !in g.variableMap
    requires child in nodes && ProcessNodeData(nodes[child].data) == Done(shape) && !Skipped(nodes[child].kind, shape)
    requires Preds(edges, child) == [parent]
    ensures Run(nodes, edges, g, [parent, child]) == Fails(Crash)
  {
  }

  /**
   * The batch-norm branches read `track_running_stats`, a key no editor record
   * holds (the record says `trackRunningStats`): a batch-norm node that gets
   * past the skip rule always raises `KeyError`.
   */
  lemma BatchNormKeyMissing(k: NodeCatalog.Kind, d: Data)
    requires k == NodeCatalog.BatchNorm1D || k == NodeCatalog.BatchNorm2D
    requires "track_running_stats" !in d
    ensures !HasKeys(d, RequiredKeysAsWritten(LayerClass(NodeCatalog.KindName(k))))
    ensures "track_running_stats" !in NodeCatalog.InitialData(k).value
  {
    LayerClassOfKind(k);
    assert !Has(d, "track_running_stats");
  }

  /** With the record's own key name, every kind's default record holds the keys its lines read. */
  lemma DefaultsHaveRequiredKeys(k: NodeCatalog.Kind)
    requires NodeCatalog.InitialData(k).Some?
    ensures HasKeys(NodeCatalog.InitialData(k).value, RequiredKeys(LayerClass(NodeCatalog.KindName(k))))
  {
    LayerClassOfKind(k);
    var op := KindClass(k);
    if op in {NnIdentity, FTanh, FRelu, FSigmoid, TorchPermute} {
      NoKeysRead(op, NodeCatalog.InitialData(k).value);
    } else if op == TorchCat {
      assert k == NodeCatalog.Concat;
      ConcatRecordHasKeys();
    } else {
      LayerRecord(k);
      ExtraFieldsHaveKeys(k);
      KeysSurviveUnion(NodeCatalog.ShapeFields(), NodeCatalog.ExtraFields(k), RequiredKeys(op));
    }
  }

  /** The activation, identity and permute lines read no key of the record. */
  lemma NoKeysRead(op: Op, d: Data)
    requires op in {NnIdentity, FTanh, FRelu, FSigmoid, TorchPermute}
    ensures HasKeys(d, RequiredKeys(op))
  {
  }

  /** The concat record holds the axis its line reads. */
  lemma ConcatRecordHasKeys()
    ensures HasKeys(NodeCatalog.ConcatData(), RequiredKeys(TorchCat))
  {
  }

  /** A layer kind's default record is the shape fields followed by its own fields. */
  lemma LayerRecord(k: NodeCatalog.Kind)
    requires NodeCatalog.InitialData(k).Some? && KindClass(k) !in {NnIdentity, FRelu, TorchCat}
    ensures NodeCatalog.InitialData(k).value == NodeCatalog.ShapeFields() + NodeCatalog.ExtraFields(k)
  {
  }

  /**
   * The fields a layer kind adds to the shape fields hold every key its lines
   * read with the record's own flag name; with the flag name as written they
   * hold them exactly for the kinds other than batch norm.
   */
  lemma ExtraFieldsHaveKeys(k: NodeCatalog.Kind)
    requires KindClass(k) !in {NnIdentity, FTanh, FRelu, FSigmoid, TorchPermute, TorchCat, UnknownLayer}
    ensures HasKeys(NodeCatalog.ExtraFields(k), RequiredKeys(KindClass(k)))
    ensures HasKeys(NodeCatalog.ExtraFields(k), RequiredKeysAsWritten(KindClass(k)))
            <==> k !in {NodeCatalog.BatchNorm1D, NodeCatalog.BatchNorm2D}
  {
    if k in {NodeCatalog.BatchNorm1D, NodeCatalog.BatchNorm2D} {
      BatchNormFieldsLackFlag(k);
    } else {
      KeysAgreeOffBatchNorm(KindClass(k), "track_running_stats", "trackRunningStats");
    }
    match k
    case Conv1D | Conv2D | MaxPool1D | MaxPool2D => WindowFieldsHaveKeys(k);
    case Linear | LSTM | GRU => UnitFieldsHaveKeys(k);
    case LayerNorm | BatchNorm1D | BatchNorm2D => NormFieldsHaveKeys(k);
    case _ => OtherFieldsHaveKeys(k);
  }

  /** The batch-norm fields name the flag `trackRunningStats`, never `track_running_stats`. */
  lemma BatchNormFieldsLackFlag(k: NodeCatalog.Kind)
    requires k in {NodeCatalog.BatchNorm1D, NodeCatalog.BatchNorm2D}
    ensures !HasKeys(NodeCatalog.ExtraFields(k), RequiredKeysAsWritten(KindClass(k)))
  {
    assert !Has(NodeCatalog.ExtraFields(k), "track_running_stats");
  }

  /** Only the batch-norm lines read the flag, so for every other class its name does not matter. */
  lemma KeysAgreeOffBatchNorm(op: Op, a: string, b: string)
    requires op !in {NnBatchNorm1d, NnBatchNorm2d}
    ensures ReadKeys(op, a) == ReadKeys(op, b)
  {
  }

  /**
   * As written, every default record holds the keys its lines read except
   * the batch-norm records, which lack `track_running_stats`.
   */
  lemma DefaultsReadableAsWritten(k: NodeCatalog.Kind)
    requires NodeCatalog.InitialData(k).Some?
    ensures HasKeys(NodeCatalog.InitialData(k).value, RequiredKeysAsWritten(LayerClass(NodeCatalog.KindName(k))))
            <==> k !in {NodeCatalog.BatchNorm1D, NodeCatalog.BatchNorm2D}
  {
    var d := NodeCatalog.InitialData(k).value;
    DefaultsHaveRequiredKeys(k);
    LayerClassOfKind(k);
    if k in {NodeCatalog.BatchNorm1D, NodeCatalog.BatchNorm2D} {
      BatchNormKeyMissing(k, map[]);
      BatchNormKeyMissing(k, d);
    } else {
      KeysAgreeOffBatchNorm(KindClass(k), "track_running_stats", "trackRunningStats");
    }
  }

  /**
   * As written, the batch-norm branch raises `KeyError` on any record without
   * `track_running_stats`, whatever its shape and parent.
   */
  lemma BatchNormLinesRaise(op: Op, d: Data, shape: Option<seq<int>>, nodeId: string, varName: Var,
                            parentVar: Option<Var>, preds: seq<string>, vmap: map<string, Var>, number: nat)
    requires op in {NnBatchNorm1d, NnBatchNorm2d} && !Has(d, "track_running_stats")
    ensures Emit(op, d, shape, nodeId, varName, parentVar, preds, vmap, number) == Fails(Crash)
  {
    assert !HasKeys(d, ReadKeys(op, "track_running_stats"));
  }

  /**
   * With the flag read under the record's own name, a batch-norm record that
   * holds its keys, on a shape with a channel axis, emits its numbered
   * module and its call on the parent.
   */
  lemma BatchNormLinesCorrected(op: Op, d: Data, shape: Option<seq<int>>, varName: Var, parent: Var, number: nat)
    requires op in {NnBatchNorm1d, NnBatchNorm2d} && HasKeys(d, RequiredKeys(op))
    requires shape.Some? && |shape.value| >= 2
    ensures ClassForward(op, d, shape, varName, Some(parent), number, "trackRunningStats")
            == Done(Emitted(Some(Module(NormFamily, number, op)), Some(ModuleCall(varName, NormFamily, number, parent))))
  {
  }

  /** `ExtraFieldsHaveKeys` for the convolution and pooling kinds. */
  lemma WindowFieldsHaveKeys(k: NodeCatalog.Kind)
    requires k in {NodeCatalog.Conv1D, NodeCatalog.Conv2D, NodeCatalog.MaxPool1D, NodeCatalog.MaxPool2D}
    ensures HasKeys(NodeCatalog.ExtraFields(k), RequiredKeys(KindClass(k)))
  {
  }

  /** `ExtraFieldsHaveKeys` for the linear and recurrent kinds. */
  lemma UnitFieldsHaveKeys(k: NodeCatalog.Kind)
    requires k in {NodeCatalog.Linear, NodeCatalog.LSTM, NodeCatalog.GRU}
    ensures HasKeys(NodeCatalog.ExtraFields(k), RequiredKeys(KindClass(k)))
  {
  }

  /** `ExtraFieldsHaveKeys` for the normalisation kinds. */
  lemma NormFieldsHaveKeys(k: NodeCatalog.Kind)
    requires k in {NodeCatalog.LayerNorm, NodeCatalog.BatchNorm1D, NodeCatalog.BatchNorm2D}
    ensures HasKeys(NodeCatalog.ExtraFields(k), RequiredKeys(KindClass(k)))
  {
  }

  /** `ExtraFieldsHaveKeys` for the dropout and flatten kinds. */
  lemma OtherFieldsHaveKeys(k: NodeCatalog.Kind)
    requires k in {NodeCatalog.Dropout, NodeCatalog.Dropout1D, NodeCatalog.Dropout2D, NodeCatalog.Flatten}
    ensures HasKeys(NodeCatalog.ExtraFields(k), RequiredKeys(KindClass(k)))
  {
  }

  /** Keys present on the right of a map union stay present. */
  lemma KeysSurviveUnion(a: Data, b: Data, keys: set<string>)
    requires HasKeys(b, keys)
    ensures HasKeys(a + b, keys)
  {
  }

  /** A tabular input feeding one linear layer of 5 neurons, whose input shape shows the given sizes. */
  function InputLinearNodes(sizes: seq<int>): map<string, Node> {
    map["in" := Node("in", "tabular-input", map["outputShapeOrder" := Str("NC")]),
        "fc" := Node("fc", "linear", LinearRecord(sizes))]
  }

  function LinearRecord(sizes: seq<int>): Data {
    LinearFields(Str(Shapes.Render(SizeDims(sizes))))
  }

  /** A linear record of 5 neurons with a bias, holding the given input shape. */
  function LinearFields(shape: Value): Data {
    map["inputShape" := shape, "numNeurons" := Number(Int(5)), "bias" := Bool(true)]
  }

  function InputLinearEdges(): seq<Edge> {
    [Edge("e1", "in", "fc", None, None)]
  }

  /** The state after the input node: variable `x1` made, input counter at 2. */
  function AfterInput(): Gen {
    Initial().(inputCounter := 2, inputVars := [X(1)], variableMap := map["in" := X(1)])
  }

  /** The state after the linear node: its module and forward line recorded, `x1` returned. */
  function AfterLinear(): Gen {
    AfterInput().(layers := [Module(LinearFamily, 1, NnLinear)], forwards := [ModuleCall(X(1), LinearFamily, 1, X(1))],
                  counters := Counters(1, 1, 2, 1, 1, 1), outputVars := [X(1)], parentVar := Some(X(1)),
                  variableMap := map["in" := X(1), "fc" := X(1)])
  }

  /** The edge structure of the example, as the loop queries it. */
  lemma ExampleGraph()
    ensures Preds(InputLinearEdges(), "in") == [] && !HasSiblings(InputLinearEdges(), "in")
    ensures HasChildren(InputLinearEdges(), "in")
    ensures Preds(InputLinearEdges(), "fc") == ["in"] && !HasSiblings(InputLinearEdges(), "fc")
    ensures !HasChildren(InputLinearEdges(), "fc")
  {
    var edges := InputLinearEdges();
    assert edges[0].target == "fc" && edges[0].source == "in";
    assert Sources(edges, "in") == [] by {
      assert edges[1..] == [];
    }
    assert Sources(edges, "fc") == ["in"] by {
      assert edges[1..] == [];
    }
  }

  /** The input node's record parses to no shape, and its type names an input. */
  lemma ExampleInputRecord()
    ensures ProcessNodeData(map["outputShapeOrder" := Str("NC")]) == Done(None)
    ensures Text.Includes("tabular-input", "input")
  {
    var d: Data := map["outputShapeOrder" := Str("NC")];
    assert d.Keys == {"outputShapeOrder"};
    assert !HasNone(d);
    Text.IncludesAt("tabular-input", "input", 8);
  }

  /** The linear node's record parses to its sizes and holds the keys its lines read. */
  lemma ExampleLinearRecord(sizes: seq<int>)
    requires |sizes| >= 1
    ensures ProcessNodeData(LinearRecord(sizes)) == Done(Some(sizes))
    ensures Formattable(NnLinear, LinearRecord(sizes), Some(sizes), "track_running_stats")
  {
    var shape := Str(Shapes.Render(SizeDims(sizes)));
    LinearFieldsReadable(shape, Some(sizes));
    RecordRoundTrip(LinearRecord(sizes), sizes);
  }

  /** A linear record with a string shape holds no null and every key the linear lines read. */
  lemma LinearFieldsReadable(shape: Value, parsed: Option<seq<int>>)
    requires shape.Str? && parsed.Some?
    ensures !HasNone(LinearFields(shape)) && Get(LinearFields(shape), "inputShape") == shape
    ensures Formattable(NnLinear, LinearFields(shape), parsed, "track_running_stats")
  {
    var d := LinearFields(shape);
    assert d.Keys == {"inputShape", "numNeurons", "bias"};
  }

  lemma InputNodeStep(sizes: seq<int>)
    ensures Step(InputLinearNodes(sizes), InputLinearEdges(), Initial(), "in") == Done(AfterInput())
  {
    ExampleGraph();
    ExampleInputRecord();
    StepOfKept(InputLinearNodes(sizes), InputLinearEdges(), Initial(), "in", None);
    assert Initial().variableMap["in" := X(1)] == AfterInput().variableMap;
    assert Initial().inputVars + [X(Initial().inputCounter)] == [X(1)];
    assert |Preds(InputLinearEdges(), "in")| == 0;
    assert Name(InputLinearEdges(), Initial(), "in") == Done(Naming(AfterInput(), X(1)));
  }

  /** The linear node takes its parent's variable `x1`, sets `parent_var` and is returned. */
  function LinearNamed(): Gen {
    AfterInput().(outputVars := [X(1)], parentVar := Some(X(1)), variableMap := map["in" := X(1), "fc" := X(1)])
  }

  lemma LinearNaming()
    ensures Name(InputLinearEdges(), AfterInput(), "fc") == Done(Naming(LinearNamed(), X(1)))
  {
    ExampleGraph();
    var preds := Preds(InputLinearEdges(), "fc");
    assert |preds| == 1 && preds[0] == "in";
    assert "in" in AfterInput().variableMap && AfterInput().variableMap["in"] == X(1);
    assert AfterInput().outputVars + [X(1)] == [X(1)];
    assert AfterInput().variableMap["fc" := X(1)] == LinearNamed().variableMap;
  }

  /** Recording the linear node's lines moves the linear counter to 2. */
  lemma LinearRecorded()
    ensures Record(LinearNamed(), NnLinear, Emitted(Some(Module(LinearFamily, 1, NnLinear)),
                                                    Some(ModuleCall(X(1), LinearFamily, 1, X(1))))) == AfterLinear()
  {
    assert Bump(Counters(1, 1, 1, 1, 1, 1), LinearFamily) == Counters(1, 1, 2, 1, 1, 1);
    assert [] + Opt(Some(Module(LinearFamily, 1, NnLinear))) == [Module(LinearFamily, 1, NnLinear)];
    assert [] + Opt(Some(ModuleCall(X(1), LinearFamily, 1, X(1)))) == [ModuleCall(X(1), LinearFamily, 1, X(1))];
  }

  lemma LinearClass()
    ensures LayerClass("linear") == NnLinear
  {
  }

  lemma LinearNodeStep(sizes: seq<int>)
    requires |sizes| >= 1
    ensures Step(InputLinearNodes(sizes), InputLinearEdges(), AfterInput(), "fc") == Done(AfterLinear())
  {
    var node := InputLinearNodes(sizes)["fc"];
    assert node == Node("fc", "linear", LinearRecord(sizes));
    ExampleLinearRecord(sizes);
    LinearClass();
    LinearNaming();
    var e := Emitted(Some(Module(LinearFamily, 1, NnLinear)), Some(ModuleCall(X(1), LinearFamily, 1, X(1))));
    EmitModule(NnLinear, LinearFamily, LinearRecord(sizes), Some(sizes), "fc", X(1), X(1),
               Preds(InputLinearEdges(), "fc"), LinearNamed().variableMap, 1);
    StepOfParts(InputLinearNodes(sizes), InputLinearEdges(), AfterInput(), "fc", Some(sizes),
                Naming(LinearNamed(), X(1)), e);
    LinearRecorded();
  }

  /** A module branch whose keys and shape are readable emits its module and its call on the parent. */
  lemma EmitModule(op: Op, f: Family, d: Data, shape: Option<seq<int>>, nodeId: string, varName: Var,
                   parent: Var, preds: seq<string>, vmap: map<string, Var>, number: nat)
    requires FamilyOf(op) == Some(f) && Formattable(op, d, shape, "track_running_stats")
    ensures Emit(op, d, shape, nodeId, varName, Some(parent), preds, vmap, number)
            == Done(Emitted(Some(Module(f, number, op)), Some(ModuleCall(varName, f, number, parent))))
  {
    assert op !in {NnIdentity, UnknownLayer, TorchPermute, TorchCat};
  }

  lemma ExampleRun(sizes: seq<int>)
    requires |sizes| >= 1
    ensures Run(InputLinearNodes(sizes), InputLinearEdges(), Initial(), ["in", "fc"]) == Done(AfterLinear())
  {
    InputNodeStep(sizes);
    LinearNodeStep(sizes);
    RunFrom(InputLinearNodes(sizes), InputLinearEdges(), Initial(), ["in", "fc"], 0);
    RunFrom(InputLinearNodes(sizes), InputLinearEdges(), AfterInput(), ["in", "fc"], 1);
    assert ["in", "fc"][2..] == [];
  }

  lemma ExampleFinish()
    ensures Finish(AfterLinear()) == Model([Module(LinearFamily, 1, NnLinear)], [ModuleCall("x", LinearFamily, 1, "x")],
                                           ["x"], ["x"], false, false)
  {
    FirstVarRenamed();
    assert SpellAll([X(1)], true) == ["x"];
    assert SpellForward(ModuleCall(X(1), LinearFamily, 1, X(1)), true) == ModuleCall("x", LinearFamily, 1, "x");
    assert SpellForwards(AfterLinear().forwards, true) == [ModuleCall("x", LinearFamily, 1, "x")];
  }

  /**
   * The two-node model: one `nn.Linear` module `self.linear_1`, one forward
   * line `x = self.linear_1(x)`, input `x` and output `x`, and no extra import.
   */
  lemma InputLinearModel(sizes: seq<int>)
    requires |sizes| >= 1
    ensures Finished(Run(InputLinearNodes(sizes), InputLinearEdges(), Initial(), ["in", "fc"]))
            == Done(Model([Module(LinearFamily, 1, NnLinear)], [ModuleCall("x", LinearFamily, 1, "x")],
                          ["x"], ["x"], false, false))
  {
    ExampleRun(sizes);
    ExampleFinish();
  }
}
