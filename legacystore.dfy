/**
 * The legacy store the older node components are bound to: the same node
 * and edge lists and the same update recursion as the graph store, but on
 * the outputSize → inputSize keys and with no order label; it starts from a
 * three-node seed graph and has no `addNode` or `deleteNode`.
 */
module LegacyStore {
  import opened Wrappers
  import opened Values
  import opened Propagation
  import opened EdgeLists
  import NodeCatalog

  /** The seed graph: a tabular input, a linear layer and a tanh node, none connected. */
  function SeedNodes(): (nodes: seq<Node>)
    ensures |nodes| == 3
  {
    [Node("a", "tabular-input", map["numFeatures" := Null, "batchSize" := Null]),
     Node("b", "linear-layer", map["numNeurons" := Null, "inputSize" := Null, "outputSize" := Null, "bias" := Bool(true)]),
     Node("c", "tanh", map["inputSize" := Null, "outputSize" := Null])]
  }

  class Store {
    var nodes: seq<Node>
    var edges: seq<Edge>

    /** The store starts from the seed graph with no edges. */
    constructor ()
      ensures nodes == SeedNodes() && edges == []
    {
      nodes := SeedNodes();
      edges := [];
    }

    /** `setEdges(edges)`, with a function argument already applied to the current list. */
    method SetEdges(newEdges: seq<Edge>)
      modifies this
      ensures edges == newEdges && nodes == old(nodes)
    {
      edges := newEdges;
    }

    /** `updateNodeData(nodeId, data)`: merge, then push the output size to the children. */
    method UpdateNodeData(nodeId: string, data: Data, ghost rank: map<string, nat>)
      requires Ranked(edges, rank)
      modifies this
      ensures edges == old(edges)
      ensures nodes == Push(SizeChannel, old(nodes), edges, rank, nodeId, data)
      decreases Level(rank, nodeId), 2, 0
    {
      nodes := Merged(nodes, nodeId, data);
      UpdateChildren(nodeId, rank);
    }

    /** `updateChildren(parentId)`: forward the parent's `outputSize` as each child's `inputSize`. */
    method UpdateChildren(parentId: string, ghost rank: map<string, nat>)
      requires Ranked(edges, rank)
      modifies this
      ensures edges == old(edges)
      ensures nodes == Children(SizeChannel, old(nodes), edges, rank, parentId)
      decreases Level(rank, parentId), 1, 0
    {
      var snapshot := nodes;
      var parentNode := FindNode(snapshot, parentId);
      if parentNode.None? || !Truthy(Get(parentNode.value.data, "outputSize")) {
        return;
      }
      var forwarded := map["inputSize" := Get(parentNode.value.data, "outputSize")];
      assert forwarded == Forwarded(SizeChannel, parentNode.value.data);
      var childrenEdges := ChildEdges(edges, parentId);
      ForEachChild(snapshot, parentId, childrenEdges, forwarded, rank);
    }

    /**
     * The `forEach` of `updateChildren` over the parent's edges: each edge
     * whose target was in the snapshot gets `updateNodeData(target, forwarded)`.
     */
    method ForEachChild(snapshot: seq<Node>, parentId: string, kids: seq<Edge>, forwarded: Data,
                        ghost rank: map<string, nat>)
      requires Ranked(edges, rank)
      requires forall e :: e in kids ==> e in edges && e.source == parentId
      modifies this
      ensures edges == old(edges)
      ensures nodes == PushEach(SizeChannel, snapshot, old(nodes), edges, rank, parentId, kids, forwarded)
      decreases Level(rank, parentId), 0, |kids|
    {
      var i := 0;
      while i < |kids|
        invariant 0 <= i <= |kids|
        invariant edges == old(edges)
        invariant PushEach(SizeChannel, snapshot, nodes, edges, rank, parentId, kids[i..], forwarded)
                  == PushEach(SizeChannel, snapshot, old(nodes), edges, rank, parentId, kids, forwarded)
      {
        var edge := kids[i];
        assert kids[i..][0] == edge && kids[i..][1..] == kids[i + 1..];
        EdgeDescends(edges, rank, edge);
        var childNode := FindNode(snapshot, edge.target);
        if childNode.Some? {
          UpdateNodeData(childNode.value.id, forwarded, rank);
        }
        i := i + 1;
      }
    }

    /**
     * `onConnect(connection)`: when both endpoints exist the edge is appended
     * and the source's size is pushed along its edges; otherwise nothing
     * changes. The new edge must keep the graph acyclic.
     */
    method OnConnect(connection: Connection, edgeId: string, ghost rank: map<string, nat>)
      requires Ranked(edges, rank)
      requires Connectable(nodes, connection) ==> Linkable(rank, connection.source.value, connection.target.value)
      modifies this
      ensures Connectable(old(nodes), connection) ==>
                edges == old(edges) + [EdgeOf(connection, edgeId)] && Ranked(edges, rank)
                && nodes == Children(SizeChannel, old(nodes), edges, rank, connection.source.value)
      ensures !Connectable(old(nodes), connection) ==> edges == old(edges) && nodes == old(nodes)
    {
      var sourceNode := if connection.source.Some? then FindNode(nodes, connection.source.value) else None;
      var targetNode := if connection.target.Some? then FindNode(nodes, connection.target.value) else None;
      if sourceNode.Some? && targetNode.Some? && connection.source.Some? && connection.source.value != "" {
        var edge := EdgeOf(connection, edgeId);
        RankedAppend(edges, rank, edge);
        edges := edges + [edge];
        UpdateChildren(connection.source.value, rank);
      }
    }

    /** `onReconnect(oldEdge, connection)`: the edge list is rewired and no node changes. */
    method OnReconnect(oldEdge: Edge, connection: Connection)
      modifies this
      ensures edges == Reconnected(old(edges), oldEdge.id, connection)
      ensures nodes == old(nodes)
    {
      edges := Reconnected(edges, oldEdge.id, connection);
    }
  }

  // ---------------------------------------------------------------------
  // Properties

  /**
   * The seed graph has three distinct ids and no node with an output size,
   * so any first connection in it pushes nothing; the linear node's kind is
   * not a registered key (the registry says "linear").
   */
  lemma SeedGraph()
    ensures forall i, j :: 0 <= i < j < |SeedNodes()| ==> SeedNodes()[i].id != SeedNodes()[j].id
    ensures forall i :: 0 <= i < |SeedNodes()| ==> !Truthy(Get(SeedNodes()[i].data, "outputSize"))
    ensures NodeCatalog.ParseKind(SeedNodes()[1].kind).None?
    ensures NodeCatalog.ParseKind(SeedNodes()[0].kind) == Some(NodeCatalog.TabularInput)
    ensures NodeCatalog.ParseKind(SeedNodes()[2].kind) == Some(NodeCatalog.Tanh)
  {
    var s := SeedNodes();
    assert s[0].id == "a" && s[1].id == "b" && s[2].id == "c";
  }

  /** In the seed graph, connecting any source forwards nothing: no seed node has an output size. */
  lemma SeedConnectQuiet(edges: seq<Edge>, rank: map<string, nat>, source: string)
    requires Ranked(edges, rank)
    ensures Children(SizeChannel, SeedNodes(), edges, rank, source) == SeedNodes()
  {
    SeedGraph();
    var s := SeedNodes();
    var k := NodeIndex(s, source);
    if k >= 0 {
      assert !Truthy(Get(s[k].data, "outputSize"));
    }
  }

  /**
   * An update for an id no node has changes nothing: the merge finds no node
   * and the push finds no parent.
   */
  lemma AbsentIdUnchanged(nodes: seq<Node>, edges: seq<Edge>, rank: map<string, nat>, id: string, patch: Data)
    requires Ranked(edges, rank)
    requires forall i :: 0 <= i < |nodes| ==> nodes[i].id != id
    ensures Push(SizeChannel, nodes, edges, rank, id, patch) == nodes
  {
    var merged := Merged(nodes, id, patch);
    assert merged == nodes;
    assert FindNode(merged, id).None?;
  }

  /**
   * The input nodes on the canvas write their shape through this store, but
   * the canvas names its nodes by fresh identifiers, never "a", "b" or "c":
   * such a write leaves the seed graph as it was, so nothing downstream sees it.
   */
  lemma CanvasWriteDropped(edges: seq<Edge>, rank: map<string, nat>, id: string, patch: Data)
    requires Ranked(edges, rank) && id !in {"a", "b", "c"}
    ensures Push(SizeChannel, SeedNodes(), edges, rank, id, patch) == SeedNodes()
  {
    SeedGraph();
    AbsentIdUnchanged(SeedNodes(), edges, rank, id, patch);
  }

  /**
   * The size channel carries only `inputSize`: a legacy push never touches
   * any shape or order key of any node.
   */
  lemma SizePushLeavesShapeKeys(nodes: seq<Node>, edges: seq<Edge>, rank: map<string, nat>,
                                id: string, patch: Data, i: int, key: string)
    requires Ranked(edges, rank) && 0 <= i < |nodes| && nodes[i].id != id
    requires key in {"inputShape", "inputShapeOrder", "outputShape", "outputShapeOrder"}
    ensures Get(Push(SizeChannel, nodes, edges, rank, id, patch)[i].data, key) == Get(nodes[i].data, key)
  {
    OutputsUnchanged(SizeChannel, nodes, edges, rank, id, patch, i, key);
  }
}
