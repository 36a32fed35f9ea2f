/**
 * The JavaScript values a node's `data` object holds, the node and edge
 * records of the graph, and the coercions the components apply to them:
 * truthiness (`x ? a : b`, `x || y`), template-literal text, and the numeric
 * conversion arithmetic performs.
 */
module Values {
  import opened Wrappers
  import opened Numbers
  import Text

  datatype Value =
    | Undefined
    | Null
    | Bool(b: bool)
    | Number(n: JsNum)
    | Str(s: string)
    | Items(items: seq<Value>)

  /** A node's `data` object: its own keys and their values. */
  type Data = map<string, Value>

  /** `data[key]`: `undefined` for a key the object does not have. */
  function Get(d: Data, key: string): Value {
    if key in d then d[key] else Undefined
  }

  /** `{...d, ...patch}`: the keys of both, the patch's value winning. */
  function Merge(d: Data, patch: Data): (r: Data)
    ensures r.Keys == d.Keys + patch.Keys
    ensures forall k :: k in patch ==> r[k] == patch[k]
    ensures forall k :: k in d && k !in patch ==> r[k] == d[k]
  {
    d + patch
  }

  /** JavaScript truthiness. */
  predicate Truthy(v: Value) {
    match v
    case Undefined => false
    case Null => false
    case Bool(b) => b
    case Number(n) => Numbers.Truthy(n)
    case Str(s) => s != ""
    case Items(_) => true
  }

  /** `a || b`. */
  function Or(a: Value, b: Value): (r: Value)
    ensures Truthy(a) ==> r == a
    ensures !Truthy(a) ==> r == b
  {
    if Truthy(a) then a else b
  }

  /** `String(v)`, the text a template literal or `join` inserts. */
  function ValueText(v: Value): string
    decreases v
  {
    match v
    case Undefined => "undefined"
    case Null => "null"
    case Bool(b) => if b then "true" else "false"
    case Number(n) => NumberText(n)
    case Str(s) => s
    case Items(items) => ItemsText(v, items)
  }

  /** `items.join(",")`, with `null` and `undefined` elements rendered empty. */
  function ItemsText(whole: Value, items: seq<Value>): string
    requires forall i :: 0 <= i < |items| ==> items[i] < whole
    decreases whole, |items|
  {
    if items == [] then ""
    else
      var head := if items[0].Undefined? || items[0].Null? then "" else ValueText(items[0]);
      if |items| == 1 then head else head + "," + ItemsText(whole, items[1..])
  }

  /** The number arithmetic makes of a value: `null` is 0 and `undefined` is NaN. */
  function ToNumber(v: Value): JsNum {
    match v
    case Undefined => NaN
    case Null => Int(0)
    case Bool(b) => Int(if b then 1 else 0)
    case Number(n) => n
    case Str(s) => JsNumber(s)
    case Items(items) =>
      if items == [] then Int(0)
      else if |items| == 1 then JsNumber(ValueText(Items(items)))
      else NaN
  }

  /** The text a shape field holds; `null`, `undefined` and non-text values read as empty, as both are falsy. */
  function ShapeText(v: Value): (s: string)
    ensures s != "" <==> Truthy(v) && v.Str?
  {
    if v.Str? then v.s else ""
  }

  /** A numeric field that the components test with `!== null`. */
  function NumberField(v: Value): Option<JsNum> {
    if v.Number? then Some(v.n) else None
  }

  /** The value written back for an optional number. */
  function OfNumber(x: Option<JsNum>): (v: Value)
    ensures NumberField(v) == x
  {
    match x
    case Some(n) => Number(n)
    case None => Null
  }

  /** A graph node: its id, its kind (the renderer it uses) and its data. */
  datatype Node = Node(id: string, kind: string, data: Data)

  /** The position of the first node with this id, or -1 when there is none. */
  function NodeIndex(nodes: seq<Node>, id: string): (r: int)
    ensures -1 <= r < |nodes|
    ensures r == -1 <==> forall i :: 0 <= i < |nodes| ==> nodes[i].id != id
    ensures r >= 0 ==> nodes[r].id == id && forall i :: 0 <= i < r ==> nodes[i].id != id
  {
    if nodes == [] then -1
    else if nodes[0].id == id then 0
    else
      var k := NodeIndex(nodes[1..], id);
      if k < 0 then -1 else k + 1
  }

  /** `nodes.find(n => n.id === id)`. */
  function FindNode(nodes: seq<Node>, id: string): (r: Option<Node>)
    ensures r.None? <==> forall i :: 0 <= i < |nodes| ==> nodes[i].id != id
    ensures r.Some? ==> r.value == nodes[NodeIndex(nodes, id)]
  {
    var k := NodeIndex(nodes, id);
    if k < 0 then None else Some(nodes[k])
  }

  /** A directed edge from a source node's handle to a target node's handle. */
  datatype Edge = Edge(id: string, source: string, target: string,
                       sourceHandle: Option<string>, targetHandle: Option<string>)

  /** What the canvas reports when the user drags a wire: every field may be null. */
  datatype Connection = Connection(source: Option<string>, target: Option<string>,
                                   sourceHandle: Option<string>, targetHandle: Option<string>)
}
