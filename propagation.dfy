/**
 * What the two stores' `updateNodeData` / `updateChildren` recursion does to
 * the node list, written as functions the store methods are proved against.
 *
 * `updateNodeData(id, patch)` merges `patch` into the data of every node with
 * that id and then runs `updateChildren(id)`. `updateChildren(p)` takes a
 * snapshot of the nodes, stops when `p` is missing or its output key is
 * falsy, and otherwise calls `updateNodeData(child, forwarded)` for every edge
 * leaving `p` whose target is in the snapshot, in edge order. The forwarded
 * patch copies the parent's output keys into the child's input keys. The two
 * stores differ only in which keys these are (`Channel`).
 *
 * The recursion has no cycle check, so it terminates only on an acyclic edge
 * list. A ghost `rank` that strictly decreases along every edge
 * (`Ranked`) is the measure.
 */
module Propagation {
  import opened Wrappers
  import opened Values

  /** The keys one store forwards along an edge. */
  datatype Channel =
    | ShapeChannel  // the graph store: outputShape/outputShapeOrder into inputShape/inputShapeOrder
    | SizeChannel   // the legacy store: outputSize into inputSize

  /** The parent key whose truthiness decides whether anything is forwarded. */
  function Guard(c: Channel): string {
    match c
    case ShapeChannel => "outputShape"
    case SizeChannel => "outputSize"
  }

  /** The child keys that propagation writes. */
  function InKeys(c: Channel): set<string> {
    match c
    case ShapeChannel => {"inputShape", "inputShapeOrder"}
    case SizeChannel => {"inputSize"}
  }

  /** The patch a child receives from a parent with data `parent`. */
  function Forwarded(c: Channel, parent: Data): (patch: Data)
    ensures patch.Keys == InKeys(c)
    ensures Guard(c) !in InKeys(c)
  {
    match c
    case ShapeChannel =>
      map["inputShape" := Get(parent, "outputShape"), "inputShapeOrder" := Get(parent, "outputShapeOrder")]
    case SizeChannel =>
      map["inputSize" := Get(parent, "outputSize")]
  }

  // ---------------------------------------------------------------------
  // Acyclicity

  /** Every edge goes from a higher to a strictly lower rank, so the edges form a DAG. */
  predicate Ranked(edges: seq<Edge>, rank: map<string, nat>) {
    forall j :: 0 <= j < |edges| ==>
      edges[j].source in rank && edges[j].target in rank && rank[edges[j].target] < rank[edges[j].source]
  }

  /** The rank of a node id, 0 for ids no edge mentions. */
  function Level(rank: map<string, nat>, id: string): nat {
    if id in rank then rank[id] else 0
  }

  /** A new edge from `source` to `target` that keeps the ranking. */
  predicate Linkable(rank: map<string, nat>, source: string, target: string) {
    source in rank && target in rank && rank[target] < rank[source]
  }

  /** Every edge of `sub` is an edge of `edges`. */
  predicate EdgesWithin(sub: seq<Edge>, edges: seq<Edge>) {
    forall e :: e in sub ==> e in edges
  }

  /** Dropping edges keeps a ranking. */
  lemma RankedWithin(sub: seq<Edge>, edges: seq<Edge>, rank: map<string, nat>)
    requires Ranked(edges, rank) && EdgesWithin(sub, edges)
    ensures Ranked(sub, rank)
  {
    forall j | 0 <= j < |sub|
      ensures sub[j].source in rank && sub[j].target in rank && rank[sub[j].target] < rank[sub[j].source]
    {
      assert sub[j] in edges;
      var k :| 0 <= k < |edges| && edges[k] == sub[j];
    }
  }

  /** An edge of a ranked list goes down in rank. */
  lemma EdgeDescends(edges: seq<Edge>, rank: map<string, nat>, e: Edge)
    requires Ranked(edges, rank) && e in edges
    ensures Level(rank, e.target) < Level(rank, e.source)
    ensures e.source in rank && e.target in rank
  {
    var k :| 0 <= k < |edges| && edges[k] == e;
  }

  /** Appending an edge that keeps the ranking keeps the list ranked. */
  lemma RankedAppend(edges: seq<Edge>, rank: map<string, nat>, e: Edge)
    requires Ranked(edges, rank) && Linkable(rank, e.source, e.target)
    ensures Ranked(edges + [e], rank)
  {
  }

  // ---------------------------------------------------------------------
  // The recursion, as functions

  /** `nodes.map(n => n.id === id ? {...n, data: {...n.data, ...patch}} : n)`. */
  function Merged(nodes: seq<Node>, id: string, patch: Data): (r: seq<Node>)
    ensures |r| == |nodes|
    ensures forall i :: 0 <= i < |nodes| ==> r[i].id == nodes[i].id && r[i].kind == nodes[i].kind
    ensures forall i :: 0 <= i < |nodes| && nodes[i].id != id ==> r[i] == nodes[i]
    ensures forall i :: 0 <= i < |nodes| && nodes[i].id == id ==> r[i].data == Merge(nodes[i].data, patch)
  {
    seq(|nodes|, i requires 0 <= i < |nodes| =>
      if nodes[i].id == id then nodes[i].(data := Merge(nodes[i].data, patch)) else nodes[i])
  }

  /** `edges.filter(e => e.source === parent)`, in edge order. */
  function ChildEdges(edges: seq<Edge>, parent: string): (kids: seq<Edge>)
    ensures forall e :: e in kids <==> e in edges && e.source == parent
  {
    if edges == [] then []
    else (if edges[0].source == parent then [edges[0]] else []) + ChildEdges(edges[1..], parent)
  }

  /** `updateNodeData(id, patch)`: the merge, then `updateChildren(id)`. */
  function Push(c: Channel, nodes: seq<Node>, edges: seq<Edge>, rank: map<string, nat>,
                id: string, patch: Data): (r: seq<Node>)
    requires Ranked(edges, rank)
    ensures |r| == |nodes|
    decreases Level(rank, id), 2, 0
  {
    Children(c, Merged(nodes, id, patch), edges, rank, id)
  }

  /** `updateChildren(parent)`: nothing for a missing parent or a falsy output, else one push per child edge. */
  function Children(c: Channel, nodes: seq<Node>, edges: seq<Edge>, rank: map<string, nat>,
                    parent: string): (r: seq<Node>)
    requires Ranked(edges, rank)
    ensures |r| == |nodes|
    decreases Level(rank, parent), 1, 0
  {
    match FindNode(nodes, parent)
    case None => nodes
    case Some(p) =>
      if !Truthy(Get(p.data, Guard(c))) then nodes
      else PushEach(c, nodes, nodes, edges, rank, parent, ChildEdges(edges, parent), Forwarded(c, p.data))
  }

  /**
   * The `forEach` over the child edges `kids`: each one whose target is in the
   * snapshot taken at the start of `updateChildren` gets `updateNodeData`.
   */
  function PushEach(c: Channel, snapshot: seq<Node>, nodes: seq<Node>, edges: seq<Edge>,
                    rank: map<string, nat>, parent: string, kids: seq<Edge>, patch: Data): (r: seq<Node>)
    requires Ranked(edges, rank)
    requires forall e :: e in kids ==> e in edges && e.source == parent
    ensures |r| == |nodes|
    decreases Level(rank, parent), 0, |kids|
  {
    if kids == [] then nodes
    else
      EdgeDescends(edges, rank, kids[0]);
      var next := if FindNode(snapshot, kids[0].target).Some?
                  then Push(c, nodes, edges, rank, kids[0].target, patch) else nodes;
      PushEach(c, snapshot, next, edges, rank, parent, kids[1..], patch)
  }

  /** `ids.forEach(id => updateNodeData(id, patch))`. */
  function PushAll(c: Channel, nodes: seq<Node>, edges: seq<Edge>, rank: map<string, nat>,
                   ids: seq<string>, patch: Data): (r: seq<Node>)
    requires Ranked(edges, rank)
    ensures |r| == |nodes|
    decreases |ids|
  {
    if ids == [] then nodes
    else PushAll(c, Push(c, nodes, edges, rank, ids[0], patch), edges, rank, ids[1..], patch)
  }

  // ---------------------------------------------------------------------
  // Frame: what a propagation pass may change

  /** Some edge into `id` comes from a node ranked below `bound`. */
  predicate Fed(edges: seq<Edge>, rank: map<string, nat>, id: string, bound: nat) {
    exists j :: 0 <= j < |edges| && edges[j].target == id && edges[j].source in rank && rank[edges[j].source] < bound
  }

  /** Data that agree outside the input keys. */
  predicate SameOutside(c: Channel, a: Data, b: Data) {
    a - InKeys(c) == b - InKeys(c)
  }

  /**
   * `b` is `a` with only input keys changed, and only in nodes fed from
   * below `bound` or named in `extra`; ids and kinds are kept.
   */
  predicate Frame(c: Channel, a: seq<Node>, b: seq<Node>, edges: seq<Edge>, rank: map<string, nat>,
                  bound: nat, extra: set<string>) {
    |a| == |b| &&
    forall i :: 0 <= i < |a| ==>
      b[i].id == a[i].id && b[i].kind == a[i].kind && SameOutside(c, a[i].data, b[i].data) &&
      (!Fed(edges, rank, a[i].id, bound) && a[i].id !in extra ==> b[i] == a[i])
  }

  lemma FrameRefl(c: Channel, a: seq<Node>, edges: seq<Edge>, rank: map<string, nat>, bound: nat, extra: set<string>)
    ensures Frame(c, a, a, edges, rank, bound, extra)
  {
  }

  /** Frames compose, and a larger bound or a larger exception set keeps a frame. */
  lemma FrameTrans(c: Channel, a: seq<Node>, b: seq<Node>, d: seq<Node>, edges: seq<Edge>, rank: map<string, nat>,
                   bound1: nat, extra1: set<string>, bound2: nat, extra2: set<string>, bound: nat, extra: set<string>)
    requires Frame(c, a, b, edges, rank, bound1, extra1) && Frame(c, b, d, edges, rank, bound2, extra2)
    requires bound1 <= bound && bound2 <= bound && extra1 <= extra && extra2 <= extra
    ensures Frame(c, a, d, edges, rank, bound, extra)
  {
    forall i | 0 <= i < |a|
      ensures d[i].id == a[i].id && d[i].kind == a[i].kind && SameOutside(c, a[i].data, d[i].data)
      ensures !Fed(edges, rank, a[i].id, bound) && a[i].id !in extra ==> d[i] == a[i]
    {
      if !Fed(edges, rank, a[i].id, bound) && a[i].id !in extra {
        assert !Fed(edges, rank, a[i].id, bound1);
        assert !Fed(edges, rank, a[i].id, bound2);
      }
    }
  }

  /** Merging a patch of input keys stays inside the frame of the node it is merged into. */
  lemma MergedFrame(c: Channel, nodes: seq<Node>, edges: seq<Edge>, rank: map<string, nat>,
                    id: string, patch: Data, bound: nat, extra: set<string>)
    requires patch.Keys <= InKeys(c)
    requires Fed(edges, rank, id, bound) || id in extra
    ensures Frame(c, nodes, Merged(nodes, id, patch), edges, rank, bound, extra)
  {
    var r := Merged(nodes, id, patch);
    forall i | 0 <= i < |nodes|
      ensures SameOutside(c, nodes[i].data, r[i].data)
    {
      if nodes[i].id == id {
        assert Merge(nodes[i].data, patch) - InKeys(c) == nodes[i].data - InKeys(c);
      }
    }
  }

  /** A node is never fed from below its own rank: every edge into it comes from above. */
  lemma NotSelfFed(edges: seq<Edge>, rank: map<string, nat>, id: string)
    requires Ranked(edges, rank)
    ensures !Fed(edges, rank, id, Level(rank, id) + 1)
  {
  }

  /** A child of `parent` is fed from below the parent's rank plus one. */
  lemma ChildFed(edges: seq<Edge>, rank: map<string, nat>, parent: string, e: Edge)
    requires Ranked(edges, rank) && e in edges && e.source == parent
    ensures Fed(edges, rank, e.target, Level(rank, parent) + 1)
  {
    var k :| 0 <= k < |edges| && edges[k] == e;
  }

  /**
   * `updateChildren(parent)` changes only the input keys, and only of nodes
   * fed by an edge from a node ranked no higher than `parent`.
   */
  lemma {:induction false} ChildrenFrame(c: Channel, nodes: seq<Node>, edges: seq<Edge>, rank: map<string, nat>,
                                         parent: string)
    requires Ranked(edges, rank)
    ensures Frame(c, nodes, Children(c, nodes, edges, rank, parent), edges, rank, Level(rank, parent) + 1, {})
    decreases Level(rank, parent), 1, 0
  {
    match FindNode(nodes, parent)
    case None =>
      FrameRefl(c, nodes, edges, rank, Level(rank, parent) + 1, {});
    case Some(p) =>
      if !Truthy(Get(p.data, Guard(c))) {
        FrameRefl(c, nodes, edges, rank, Level(rank, parent) + 1, {});
      } else {
        PushEachFrame(c, nodes, nodes, edges, rank, parent, ChildEdges(edges, parent), Forwarded(c, p.data));
      }
  }

  /** The `forEach` over child edges keeps the same frame. */
  lemma {:induction false} PushEachFrame(c: Channel, snapshot: seq<Node>, nodes: seq<Node>, edges: seq<Edge>,
                                         rank: map<string, nat>, parent: string, kids: seq<Edge>, patch: Data)
    requires Ranked(edges, rank)
    requires forall e :: e in kids ==> e in edges && e.source == parent
    requires patch.Keys <= InKeys(c)
    ensures Frame(c, nodes, PushEach(c, snapshot, nodes, edges, rank, parent, kids, patch),
                  edges, rank, Level(rank, parent) + 1, {})
    decreases Level(rank, parent), 0, |kids|
  {
    var bound := Level(rank, parent) + 1;
    if kids == [] {
      FrameRefl(c, nodes, edges, rank, bound, {});
    } else {
      var k := kids[0];
      EdgeDescends(edges, rank, k);
      var next := if FindNode(snapshot, k.target).Some? then Push(c, nodes, edges, rank, k.target, patch) else nodes;
      if FindNode(snapshot, k.target).Some? {
        ChildFed(edges, rank, parent, k);
        var merged := Merged(nodes, k.target, patch);
        MergedFrame(c, nodes, edges, rank, k.target, patch, bound, {});
        ChildrenFrame(c, merged, edges, rank, k.target);
        FrameTrans(c, nodes, merged, next, edges, rank, bound, {}, Level(rank, k.target) + 1, {}, bound, {});
      } else {
        FrameRefl(c, nodes, edges, rank, bound, {});
      }
      PushEachFrame(c, snapshot, next, edges, rank, parent, kids[1..], patch);
      FrameTrans(c, nodes, next, PushEach(c, snapshot, next, edges, rank, parent, kids[1..], patch),
                 edges, rank, bound, {}, bound, {}, bound, {});
    }
  }

  /**
   * `updateNodeData(id, patch)`: every node with that id ends with exactly
   * `{...data, ...patch}` (its own propagation never comes back to it); every
   * other node keeps its id, kind and all keys but the input keys, and a node
   * that no edge from a node ranked at most `id`'s feeds is not touched.
   */
  lemma UpdateMergesTarget(c: Channel, nodes: seq<Node>, edges: seq<Edge>, rank: map<string, nat>,
                           id: string, patch: Data)
    requires Ranked(edges, rank)
    ensures var r := Push(c, nodes, edges, rank, id, patch);
            |r| == |nodes| &&
            forall i :: 0 <= i < |nodes| ==>
              r[i].id == nodes[i].id && r[i].kind == nodes[i].kind &&
              (nodes[i].id == id ==> r[i].data == Merge(nodes[i].data, patch)) &&
              (nodes[i].id != id ==> SameOutside(c, nodes[i].data, r[i].data)) &&
              (nodes[i].id != id && !Fed(edges, rank, nodes[i].id, Level(rank, id) + 1) ==> r[i] == nodes[i])
  {
    var merged := Merged(nodes, id, patch);
    ChildrenFrame(c, merged, edges, rank, id);
    NotSelfFed(edges, rank, id);
  }

  /** A pass never changes an output key of any node other than the one updated. */
  lemma OutputsUnchanged(c: Channel, nodes: seq<Node>, edges: seq<Edge>, rank: map<string, nat>,
                         id: string, patch: Data, i: int, key: string)
    requires Ranked(edges, rank) && 0 <= i < |nodes| && nodes[i].id != id && key !in InKeys(c)
    ensures Get(Push(c, nodes, edges, rank, id, patch)[i].data, key) == Get(nodes[i].data, key)
  {
    UpdateMergesTarget(c, nodes, edges, rank, id, patch);
    var a, b := nodes[i].data, Push(c, nodes, edges, rank, id, patch)[i].data;
    assert (key in a) == (key in a - InKeys(c));
    assert (key in b) == (key in b - InKeys(c));
    if key in a {
      assert a[key] == (a - InKeys(c))[key];
      assert b[key] == (b - InKeys(c))[key];
    }
  }

  // ---------------------------------------------------------------------
  // Delivery: what a child receives

  /** Every edge into `id` comes from `parent`. */
  predicate OnlyParent(edges: seq<Edge>, id: string, parent: string) {
    forall j :: 0 <= j < |edges| && edges[j].target == id ==> edges[j].source == parent
  }

  /** Merging the same patch twice is merging it once. */
  lemma MergeTwice(d: Data, patch: Data)
    ensures Merge(Merge(d, patch), patch) == Merge(d, patch)
  {
  }

  /**
   * A node whose only parent is `parent` ends the `forEach` merged with the
   * forwarded patch if some child edge points to it, and untouched otherwise.
   */
  lemma {:induction false} PushEachDelivers(c: Channel, snapshot: seq<Node>, nodes: seq<Node>, edges: seq<Edge>,
                                            rank: map<string, nat>, parent: string, kids: seq<Edge>, patch: Data,
                                            i: int)
    requires Ranked(edges, rank)
    requires forall e :: e in kids ==> e in edges && e.source == parent
    requires 0 <= i < |nodes| && OnlyParent(edges, nodes[i].id, parent)
    requires FindNode(snapshot, nodes[i].id).Some?
    ensures var r := PushEach(c, snapshot, nodes, edges, rank, parent, kids, patch);
            |r| == |nodes| && r[i].id == nodes[i].id &&
            r[i].data == if exists e :: e in kids && e.target == nodes[i].id
                         then Merge(nodes[i].data, patch) else nodes[i].data
    decreases |kids|
  {
    if kids != [] {
      var k := kids[0];
      EdgeDescends(edges, rank, k);
      var next := if FindNode(snapshot, k.target).Some? then Push(c, nodes, edges, rank, k.target, patch) else nodes;
      UpdateMergesTarget(c, nodes, edges, rank, k.target, patch);
      if k.target != nodes[i].id && FindNode(snapshot, k.target).Some? {
        // the child pushed to is another node, ranked below the parent, so it cannot feed nodes[i]
        assert !Fed(edges, rank, nodes[i].id, Level(rank, k.target) + 1);
      }
      assert next[i].id == nodes[i].id;
      PushEachDelivers(c, snapshot, next, edges, rank, parent, kids[1..], patch, i);
      if k.target == nodes[i].id {
        assert next[i].data == Merge(nodes[i].data, patch);
        MergeTwice(nodes[i].data, patch);
      } else {
        assert next[i] == nodes[i];
        if exists e :: e in kids && e.target == nodes[i].id {
          var e :| e in kids && e.target == nodes[i].id;
          assert e in kids[1..];
        }
      }
    }
  }

  /**
   * `updateChildren(parent)` for a parent with a truthy output: a child whose
   * only parent it is ends with `{...data, ...forwarded}`, so it holds the
   * parent's output (and order) in its input keys.
   */
  lemma ChildrenDeliver(c: Channel, nodes: seq<Node>, edges: seq<Edge>, rank: map<string, nat>,
                        parent: string, i: int)
    requires Ranked(edges, rank)
    requires FindNode(nodes, parent).Some? && Truthy(Get(FindNode(nodes, parent).value.data, Guard(c)))
    requires 0 <= i < |nodes| && OnlyParent(edges, nodes[i].id, parent)
    requires exists e :: e in edges && e.source == parent && e.target == nodes[i].id
    ensures Children(c, nodes, edges, rank, parent)[i].data
            == Merge(nodes[i].data, Forwarded(c, FindNode(nodes, parent).value.data))
  {
    var p := FindNode(nodes, parent).value;
    var kids := ChildEdges(edges, parent);
    assert FindNode(nodes, nodes[i].id).Some?;
    PushEachDelivers(c, nodes, nodes, edges, rank, parent, kids, Forwarded(c, p.data), i);
    var e :| e in edges && e.source == parent && e.target == nodes[i].id;
    assert e in kids;
  }

  /**
   * `updateNodeData(parent, patch)` where the patch gives the parent a truthy
   * output: every child whose only parent it is receives that output in its
   * input key; in the graph store also the order.
   */
  lemma UpdateReachesChild(c: Channel, nodes: seq<Node>, edges: seq<Edge>, rank: map<string, nat>,
                           parent: string, patch: Data, i: int)
    requires Ranked(edges, rank)
    requires FindNode(nodes, parent).Some?
    requires Guard(c) in patch && Truthy(patch[Guard(c)])
    requires 0 <= i < |nodes| && OnlyParent(edges, nodes[i].id, parent)
    requires exists e :: e in edges && e.source == parent && e.target == nodes[i].id
    ensures var r := Push(c, nodes, edges, rank, parent, patch);
            var pd := Merge(FindNode(nodes, parent).value.data, patch);
            r[i].data == Merge(nodes[i].data, Forwarded(c, pd))
  {
    var merged := Merged(nodes, parent, patch);
    var k := NodeIndex(nodes, parent);
    assert FindNode(merged, parent) == Some(merged[k]) by {
      assert NodeIndex(merged, parent) == k;
    }
    var e :| e in edges && e.source == parent && e.target == nodes[i].id;
    EdgeDescends(edges, rank, e);
    assert nodes[i].id != parent;
    ChildrenDeliver(c, merged, edges, rank, parent, i);
  }

  /**
   * The "Not Connected" placeholder is truthy, so it is forwarded like any
   * shape: a sole child of a node whose output becomes the placeholder
   * receives it.
   */
  lemma NotConnectedForwarded(nodes: seq<Node>, edges: seq<Edge>, rank: map<string, nat>,
                              parent: string, order: Value, i: int)
    requires Ranked(edges, rank)
    requires FindNode(nodes, parent).Some?
    requires 0 <= i < |nodes| && OnlyParent(edges, nodes[i].id, parent)
    requires exists e :: e in edges && e.source == parent && e.target == nodes[i].id
    ensures var patch := map["outputShape" := Str("Not Connected"), "outputShapeOrder" := order];
            var r := Push(ShapeChannel, nodes, edges, rank, parent, patch);
            Get(r[i].data, "inputShape") == Str("Not Connected") && Get(r[i].data, "inputShapeOrder") == order
  {
    var patch := map["outputShape" := Str("Not Connected"), "outputShapeOrder" := order];
    UpdateReachesChild(ShapeChannel, nodes, edges, rank, parent, patch, i);
  }

  /** A falsy output (null, undefined, "") stops propagation: only the merge happens. */
  lemma FalsyOutputStops(c: Channel, nodes: seq<Node>, edges: seq<Edge>, rank: map<string, nat>,
                         parent: string, patch: Data)
    requires Ranked(edges, rank)
    requires FindNode(nodes, parent).Some?
    requires Guard(c) in patch && !Truthy(patch[Guard(c)])
    ensures Push(c, nodes, edges, rank, parent, patch) == Merged(nodes, parent, patch)
  {
    var merged := Merged(nodes, parent, patch);
    var k := NodeIndex(nodes, parent);
    assert NodeIndex(merged, parent) == k;
  }

  // ---------------------------------------------------------------------
  // Several pushes in a row (deleteNode's loop)

  /**
   * Pushing to each of `ids`, all ranked below `bound`, with a patch of input
   * keys changes only input keys, and only of the ids themselves and of nodes
   * fed from below `bound`.
   */
  lemma {:induction false} PushAllFrame(c: Channel, nodes: seq<Node>, edges: seq<Edge>, rank: map<string, nat>,
                                        ids: seq<string>, patch: Data, bound: nat)
    requires Ranked(edges, rank) && patch.Keys <= InKeys(c)
    requires forall k :: k in ids ==> Level(rank, k) < bound
    ensures Frame(c, nodes, PushAll(c, nodes, edges, rank, ids, patch), edges, rank, bound, set k | k in ids)
    decreases |ids|
  {
    var extra := set k | k in ids;
    if ids == [] {
      FrameRefl(c, nodes, edges, rank, bound, extra);
    } else {
      var k := ids[0];
      var merged := Merged(nodes, k, patch);
      var next := Push(c, nodes, edges, rank, k, patch);
      MergedFrame(c, nodes, edges, rank, k, patch, bound, extra);
      ChildrenFrame(c, merged, edges, rank, k);
      FrameTrans(c, nodes, merged, next, edges, rank, bound, extra, Level(rank, k) + 1, {}, bound, extra);
      PushAllFrame(c, next, edges, rank, ids[1..], patch, bound);
      var rest := set k | k in ids[1..];
      FrameTrans(c, nodes, next, PushAll(c, next, edges, rank, ids[1..], patch), edges, rank,
                 bound, extra, bound, rest, bound, extra);
    }
  }

  /**
   * A node that no edge feeds ends the pushes merged with the patch if its id
   * is among `ids` and untouched otherwise.
   */
  lemma {:induction false} PushAllUnfed(c: Channel, nodes: seq<Node>, edges: seq<Edge>, rank: map<string, nat>,
                                        ids: seq<string>, patch: Data, i: int)
    requires Ranked(edges, rank)
    requires 0 <= i < |nodes| && forall j :: 0 <= j < |edges| ==> edges[j].target != nodes[i].id
    ensures var r := PushAll(c, nodes, edges, rank, ids, patch);
            |r| == |nodes| && r[i].id == nodes[i].id &&
            r[i].data == if nodes[i].id in ids then Merge(nodes[i].data, patch) else nodes[i].data
    decreases |ids|
  {
    if ids != [] {
      var next := Push(c, nodes, edges, rank, ids[0], patch);
      UpdateMergesTarget(c, nodes, edges, rank, ids[0], patch);
      assert !Fed(edges, rank, nodes[i].id, Level(rank, ids[0]) + 1);
      PushAllUnfed(c, next, edges, rank, ids[1..], patch, i);
      if ids[0] == nodes[i].id {
        MergeTwice(nodes[i].data, patch);
      } else {
        assert nodes[i].id in ids <==> nodes[i].id in ids[1..];
      }
    }
  }
}
