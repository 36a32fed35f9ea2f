/**
 * The graph store: the node and edge lists the editor draws, and the
 * operations that change them. Node data updates are pushed to every child
 * through the recursion that `Propagation` specifies, on the
 * outputShape/outputShapeOrder → inputShape/inputShapeOrder keys.
 *
 * Each operation that runs the recursion takes a ghost `rank` under which the
 * edge list is acyclic (`Ranked`); the store itself never checks for cycles.
 */
module GraphStore {
  import opened Wrappers
  import opened Values
  import opened Propagation
  import opened EdgeLists
  import NodeCatalog

  /** `nodes.filter(n => n.id !== id)`. */
  function WithoutNode(nodes: seq<Node>, id: string): (r: seq<Node>)
    ensures forall n :: n in r <==> n in nodes && n.id != id
    ensures |r| <= |nodes|
  {
    if nodes == [] then []
    else (if nodes[0].id != id then [nodes[0]] else []) + WithoutNode(nodes[1..], id)
  }

  /** `edges.filter(e => e.source !== id && e.target !== id)`. */
  function WithoutEdgesOf(edges: seq<Edge>, id: string): (r: seq<Edge>)
    ensures forall e :: e in r <==> e in edges && e.source != id && e.target != id
  {
    if edges == [] then []
    else (if edges[0].source != id && edges[0].target != id then [edges[0]] else [])
         + WithoutEdgesOf(edges[1..], id)
  }

  /** `edges.map(e => e.target)`. */
  function Targets(edges: seq<Edge>): (ids: seq<string>)
    ensures |ids| == |edges| && forall j :: 0 <= j < |edges| ==> ids[j] == edges[j].target
  {
    seq(|edges|, j requires 0 <= j < |edges| => edges[j].target)
  }

  /** The patch `deleteNode` gives each former child. */
  function ClearedInput(): Data {
    map["inputShape" := Null]
  }

  /** The node list `deleteNode(id)` leaves: the node gone, then each former child's input cleared in turn. */
  function Deleted(nodes: seq<Node>, edges: seq<Edge>, rank: map<string, nat>, id: string): seq<Node>
    requires Ranked(edges, rank)
  {
    var rest := WithoutEdgesOf(edges, id);
    RankedWithin(rest, edges, rank);
    PushAll(ShapeChannel, WithoutNode(nodes, id), rest, rank, Targets(ChildEdges(edges, id)), ClearedInput())
  }

  /**
   * The node a drop onto the canvas creates: the dropped kind, the id the
   * canvas generates, and `initialData[kind] || {}` as its data. It carries
   * no output shape yet.
   */
  function NewNode(id: string, kind: string): (n: Node)
    ensures n.id == id && n.kind == kind
    ensures NodeCatalog.HasDefaults(kind) ==> n.data == NodeCatalog.DefaultData(kind)
    ensures !NodeCatalog.HasDefaults(kind) ==> n.data == map[]
    ensures !Truthy(Get(n.data, "outputShape"))
  {
    if NodeCatalog.HasDefaults(kind) then
      NodeCatalog.NoInitialOutput(NodeCatalog.ParseKind(kind).value);
      Node(id, kind, NodeCatalog.DefaultData(kind))
    else Node(id, kind, map[])
  }

  class Store {
    var nodes: seq<Node>
    var edges: seq<Edge>

    /** The store starts with no nodes and no edges. */
    constructor ()
      ensures nodes == [] && edges == []
    {
      nodes := [];
      edges := [];
    }

    /** `addNode(node)`: appended, with no propagation. */
    method AddNode(node: Node)
      modifies this
      ensures nodes == old(nodes) + [node] && edges == old(edges)
    {
      nodes := nodes + [node];
    }

    /** `updateNodeData(nodeId, data)`: merge, then push to the children. */
    method UpdateNodeData(nodeId: string, data: Data, ghost rank: map<string, nat>)
      requires Ranked(edges, rank)
      modifies this
      ensures edges == old(edges)
      ensures nodes == Push(ShapeChannel, old(nodes), edges, rank, nodeId, data)
      decreases Level(rank, nodeId), 2, 0
    {
      nodes := Merged(nodes, nodeId, data);
      UpdateChildren(nodeId, rank);
    }

    /** `updateChildren(parentId)`: forward the parent's shape and order along each of its edges. */
    method UpdateChildren(parentId: string, ghost rank: map<string, nat>)
      requires Ranked(edges, rank)
      modifies this
      ensures edges == old(edges)
      ensures nodes == Children(ShapeChannel, old(nodes), edges, rank, parentId)
      decreases Level(rank, parentId), 1, 0
    {
      var snapshot := nodes;
      var parentNode := FindNode(snapshot, parentId);
      if parentNode.None? || !Truthy(Get(parentNode.value.data, "outputShape")) {
        return;
      }
      var forwarded := map["inputShape" := Get(parentNode.value.data, "outputShape"),
                           "inputShapeOrder" := Get(parentNode.value.data, "outputShapeOrder")];
      assert forwarded == Forwarded(ShapeChannel, parentNode.value.data);
      var childrenEdges := ChildEdges(edges, parentId);
      ForEachChild(snapshot, parentId, childrenEdges, forwarded, rank);
    }

    /**
     * The `forEach` of `updateChildren` over the parent's edges: each edge
     * whose target was in the snapshot gets `updateNodeData(target, forwarded)`.
     */
    method ForEachChild(snapshot: seq<Node>, parentId: string, kids: seq<Edge>, forwarded: Data,
                        ghost rank: map<string, nat>)
      requires Ranked(edges, rank)
      requires forall e :: e in kids ==> e in edges && e.source == parentId
      modifies this
      ensures edges == old(edges)
      ensures nodes == PushEach(ShapeChannel, snapshot, old(nodes), edges, rank, parentId, kids, forwarded)
      decreases Level(rank, parentId), 0, |kids|
    {
      var i := 0;
      while i < |kids|
        invariant 0 <= i <= |kids|
        invariant edges == old(edges)
        invariant PushEach(ShapeChannel, snapshot, nodes, edges, rank, parentId, kids[i..], forwarded)
                  == PushEach(ShapeChannel, snapshot, old(nodes), edges, rank, parentId, kids, forwarded)
      {
        var edge := kids[i];
        assert kids[i..][0] == edge && kids[i..][1..] == kids[i + 1..];
        EdgeDescends(edges, rank, edge);
        var childNode := FindNode(snapshot, edge.target);
        if childNode.Some? {
          UpdateNodeData(childNode.value.id, forwarded, rank);
        }
        i := i + 1;
      }
      assert kids[i..] == [];
    }

    /**
     * `onConnect(connection)`: when both endpoints exist the edge is appended
     * and the source's shape is pushed along its edges; otherwise nothing
     * changes. The new edge must keep the graph acyclic.
     */
    method OnConnect(connection: Connection, edgeId: string, ghost rank: map<string, nat>)
      requires Ranked(edges, rank)
      requires Connectable(nodes, connection) ==> Linkable(rank, connection.source.value, connection.target.value)
      modifies this
      ensures Connectable(old(nodes), connection) ==>
                edges == old(edges) + [EdgeOf(connection, edgeId)] && Ranked(edges, rank)
                && nodes == Children(ShapeChannel, old(nodes), edges, rank, connection.source.value)
      ensures !Connectable(old(nodes), connection) ==> edges == old(edges) && nodes == old(nodes)
    {
      var sourceNode := if connection.source.Some? then FindNode(nodes, connection.source.value) else None;
      var targetNode := if connection.target.Some? then FindNode(nodes, connection.target.value) else None;
      if sourceNode.Some? && targetNode.Some? && connection.source.Some? && connection.source.value != "" {
        var edge := EdgeOf(connection, edgeId);
        RankedAppend(edges, rank, edge);
        edges := edges + [edge];
        UpdateChildren(connection.source.value, rank);
      }
    }

    /** `onReconnect(oldEdge, connection)`: the edge list is rewired and no node changes. */
    method OnReconnect(oldEdge: Edge, connection: Connection)
      modifies this
      ensures edges == Reconnected(old(edges), oldEdge.id, connection)
      ensures nodes == old(nodes)
    {
      edges := Reconnected(edges, oldEdge.id, connection);
    }

    /**
     * `deleteNode(nodeId)`: the node and every edge touching it are removed,
     * then each former child (in the order of the old edges) gets
     * `inputShape: null`, which it pushes on to its own children.
     */
    method DeleteNode(nodeId: string, ghost rank: map<string, nat>)
      requires Ranked(edges, rank)
      modifies this
      ensures edges == WithoutEdgesOf(old(edges), nodeId)
      ensures nodes == Deleted(old(nodes), old(edges), rank, nodeId)
    {
      var childrenEdges := ChildEdges(edges, nodeId);
      var childrenIds := Targets(childrenEdges);
      var remaining := WithoutEdgesOf(edges, nodeId);
      RankedWithin(remaining, edges, rank);
      nodes := WithoutNode(nodes, nodeId);
      edges := remaining;
      ClearInputs(childrenIds, rank);
    }

    /** The loop of `deleteNode` over the former children: each one's input shape is cleared in turn. */
    method ClearInputs(ids: seq<string>, ghost rank: map<string, nat>)
      requires Ranked(edges, rank)
      modifies this
      ensures edges == old(edges)
      ensures nodes == PushAll(ShapeChannel, old(nodes), edges, rank, ids, ClearedInput())
    {
      var i := 0;
      while i < |ids|
        invariant 0 <= i <= |ids|
        invariant edges == old(edges)
        invariant PushAll(ShapeChannel, nodes, edges, rank, ids[i..], ClearedInput())
                  == PushAll(ShapeChannel, old(nodes), edges, rank, ids, ClearedInput())
      {
        assert ids[i..][0] == ids[i] && ids[i..][1..] == ids[i + 1..];
        UpdateNodeData(ids[i], ClearedInput(), rank);
        i := i + 1;
      }
      assert ids[i..] == [];
    }
  }

  /** The canvas's drop handler: an empty kind is ignored, any other kind becomes a new node. */
  method OnDrop(store: Store, kind: string, id: string)
    modifies store
    ensures kind == "" ==> store.nodes == old(store.nodes)
    ensures kind != "" ==> store.nodes == old(store.nodes) + [NewNode(id, kind)]
    ensures store.edges == old(store.edges)
  {
    if kind == "" {
      return;
    }
    store.AddNode(NewNode(id, kind));
  }

  // ---------------------------------------------------------------------
  // Properties of the operations

  /** After `deleteNode(id)` no node has that id and no edge touches it. */
  lemma DeleteRemoves(nodes: seq<Node>, edges: seq<Edge>, rank: map<string, nat>, id: string)
    requires Ranked(edges, rank)
    ensures var r := Deleted(nodes, edges, rank, id);
            forall i :: 0 <= i < |r| ==> r[i].id != id
    ensures forall e :: e in WithoutEdgesOf(edges, id) ==> e.source != id && e.target != id
  {
    var rest := WithoutEdgesOf(edges, id);
    RankedWithin(rest, edges, rank);
    var kept := WithoutNode(nodes, id);
    var ids := Targets(ChildEdges(edges, id));
    forall k | k in ids ensures Level(rank, k) < Level(rank, id) + 1 {
      var j :| 0 <= j < |ids| && ids[j] == k;
      EdgeDescends(edges, rank, ChildEdges(edges, id)[j]);
    }
    PushAllFrame(ShapeChannel, kept, rest, rank, ids, ClearedInput(), Level(rank, id) + 1);
    forall i | 0 <= i < |kept| ensures kept[i].id != id {
      assert kept[i] in kept;
    }
  }

  /**
   * A former child whose every incoming edge came from the deleted node ends
   * with `inputShape: null` merged into its data: its input order and every
   * other key are kept.
   */
  lemma DeleteClearsSoleChild(nodes: seq<Node>, edges: seq<Edge>, rank: map<string, nat>, id: string, i: int)
    requires Ranked(edges, rank)
    requires 0 <= i < |WithoutNode(nodes, id)|
    requires OnlyParent(edges, WithoutNode(nodes, id)[i].id, id)
    requires exists e :: e in edges && e.source == id && e.target == WithoutNode(nodes, id)[i].id
    ensures var r := Deleted(nodes, edges, rank, id);
            var n := WithoutNode(nodes, id)[i];
            r[i].id == n.id && r[i].data == Merge(n.data, ClearedInput())
            && Get(r[i].data, "inputShape") == Null
            && Get(r[i].data, "inputShapeOrder") == Get(n.data, "inputShapeOrder")
  {
    var rest := WithoutEdgesOf(edges, id);
    RankedWithin(rest, edges, rank);
    var kept := WithoutNode(nodes, id);
    var ids := Targets(ChildEdges(edges, id));
    forall j | 0 <= j < |rest| ensures rest[j].target != kept[i].id {
      assert rest[j] in edges;
      var k :| 0 <= k < |edges| && edges[k] == rest[j];
    }
    PushAllUnfed(ShapeChannel, kept, rest, rank, ids, ClearedInput(), i);
    var e :| e in edges && e.source == id && e.target == kept[i].id;
    assert e in ChildEdges(edges, id);
    var j :| 0 <= j < |ChildEdges(edges, id)| && ChildEdges(edges, id)[j] == e;
    assert ids[j] == kept[i].id;
  }

  /**
   * Deleting a node leaves each of its parents, and every other node ranked
   * at least as high that was not its child, exactly as it was.
   */
  lemma DeleteLeavesUpstream(nodes: seq<Node>, edges: seq<Edge>, rank: map<string, nat>, id: string, i: int)
    requires Ranked(edges, rank)
    requires 0 <= i < |WithoutNode(nodes, id)|
    requires var n := WithoutNode(nodes, id)[i];
             !(exists e :: e in edges && e.source == id && e.target == n.id) && Level(rank, n.id) >= Level(rank, id)
    ensures Deleted(nodes, edges, rank, id)[i] == WithoutNode(nodes, id)[i]
  {
    var rest := WithoutEdgesOf(edges, id);
    RankedWithin(rest, edges, rank);
    var kept := WithoutNode(nodes, id);
    var ids := Targets(ChildEdges(edges, id));
    forall k | k in ids ensures Level(rank, k) < Level(rank, id) {
      var j :| 0 <= j < |ids| && ids[j] == k;
      EdgeDescends(edges, rank, ChildEdges(edges, id)[j]);
    }
    PushAllFrame(ShapeChannel, kept, rest, rank, ids, ClearedInput(), Level(rank, id));
    forall j | 0 <= j < |ids| ensures ids[j] != kept[i].id {
      assert ChildEdges(edges, id)[j] in ChildEdges(edges, id);
    }
    // every remaining edge into the node comes from a node ranked above it
    forall j | 0 <= j < |rest| && rest[j].target == kept[i].id
      ensures rest[j].source in rank && rank[rest[j].source] >= Level(rank, id)
    {
      assert rest[j] in edges;
      EdgeDescends(edges, rank, rest[j]);
    }
  }

  /** A parent of the deleted node is one of the nodes `DeleteLeavesUpstream` covers. */
  lemma ParentRankedAbove(edges: seq<Edge>, rank: map<string, nat>, id: string, parent: string)
    requires Ranked(edges, rank)
    requires exists e :: e in edges && e.source == parent && e.target == id
    ensures Level(rank, parent) > Level(rank, id)
    ensures !(exists e :: e in edges && e.source == id && e.target == parent)
  {
    var e :| e in edges && e.source == parent && e.target == id;
    EdgeDescends(edges, rank, e);
    forall f | f in edges ensures !(f.source == id && f.target == parent) {
      EdgeDescends(edges, rank, f);
    }
  }

  /**
   * A node that has just been dropped has no output shape, so connecting it
   * as a source adds the edge and changes no node.
   */
  lemma ConnectFromNewNode(nodes: seq<Node>, edges: seq<Edge>, rank: map<string, nat>, id: string, kind: string)
    requires Ranked(edges, rank) && FindNode(nodes, id) == Some(NewNode(id, kind))
    ensures Children(ShapeChannel, nodes, edges, rank, id) == nodes
  {
  }

  /**
   * Connecting a source whose output is set delivers that output (and its
   * order) to the target, when the new edge is the target's only incoming one.
   */
  lemma ConnectDelivers(nodes: seq<Node>, edges: seq<Edge>, rank: map<string, nat>, connection: Connection,
                        edgeId: string, i: int)
    requires Connectable(nodes, connection)
    requires Ranked(edges + [EdgeOf(connection, edgeId)], rank)
    requires var p := FindNode(nodes, connection.source.value).value; Truthy(Get(p.data, "outputShape"))
    requires 0 <= i < |nodes| && nodes[i].id == connection.target.value
    requires OnlyParent(edges + [EdgeOf(connection, edgeId)], nodes[i].id, connection.source.value)
    ensures var p := FindNode(nodes, connection.source.value).value;
            var r := Children(ShapeChannel, nodes, edges + [EdgeOf(connection, edgeId)], rank, connection.source.value);
            Get(r[i].data, "inputShape") == Get(p.data, "outputShape")
            && Get(r[i].data, "inputShapeOrder") == Get(p.data, "outputShapeOrder")
            && SameOutside(ShapeChannel, nodes[i].data, r[i].data)
  {
    var all := edges + [EdgeOf(connection, edgeId)];
    var e := EdgeOf(connection, edgeId);
    assert e in all;
    ChildrenDeliver(ShapeChannel, nodes, all, rank, connection.source.value, i);
  }
}
