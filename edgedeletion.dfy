/**
 * The delete button of a shape-tracking edge: it clears the target's input
 * size through the legacy store, then removes the edge.
 */
module EdgeDeletion {
  import opened Values
  import opened Propagation
  import opened EdgeLists
  import LegacyStore

  /** The patch the delete button writes into the edge's target. */
  function ClearedSize(): Data {
    map["inputSize" := Null]
  }

  /**
   * `handleDelete` for the edge `id` into `target`: first
   * `updateNodeData(target, {inputSize: null})`, which pushes from the target
   * on the current edges, then `setEdges(edges => edges.filter(e => e.id !== id))`.
   */
  method HandleDelete(store: LegacyStore.Store, id: string, target: string, ghost rank: map<string, nat>)
    requires Ranked(store.edges, rank)
    modifies store
    ensures store.nodes == Push(SizeChannel, old(store.nodes), old(store.edges), rank, target, ClearedSize())
    ensures store.edges == WithoutEdge(old(store.edges), id)
  {
    store.UpdateNodeData(target, map["inputSize" := Null], rank);
    var remaining := WithoutEdge(store.edges, id);
    store.SetEdges(remaining);
  }

  /**
   * After the delete, the target's `inputSize` is null and its other keys are
   * kept; every other node keeps all keys but `inputSize`, and in particular
   * no node's shape or order keys change.
   */
  lemma DeleteClearsTarget(nodes: seq<Node>, edges: seq<Edge>, rank: map<string, nat>, target: string, i: int)
    requires Ranked(edges, rank) && 0 <= i < |nodes|
    ensures var r := Push(SizeChannel, nodes, edges, rank, target, ClearedSize());
            r[i].id == nodes[i].id
            && (nodes[i].id == target ==>
                  Get(r[i].data, "inputSize") == Null && r[i].data - {"inputSize"} == nodes[i].data - {"inputSize"})
            && (nodes[i].id != target ==> r[i].data - {"inputSize"} == nodes[i].data - {"inputSize"})
  {
    UpdateMergesTarget(SizeChannel, nodes, edges, rank, target, ClearedSize());
    var r := Push(SizeChannel, nodes, edges, rank, target, ClearedSize());
    assert InKeys(SizeChannel) == {"inputSize"};
    if nodes[i].id == target {
      ClearedData(nodes[i].data, r[i].data);
    }
  }

  /** Merging the cleared size nulls `inputSize` and keeps every other key. */
  lemma ClearedData(a: Data, b: Data)
    requires b == Merge(a, ClearedSize())
    ensures Get(b, "inputSize") == Null && b - {"inputSize"} == a - {"inputSize"}
  {
  }

  /** The edges left are exactly the old ones without the deleted id, in their old order. */
  lemma DeleteRemovesOnlyThatEdge(edges: seq<Edge>, id: string)
    ensures forall e :: e in WithoutEdge(edges, id) <==> e in edges && e.id != id
    ensures (forall j :: 0 <= j < |edges| ==> edges[j].id != id) ==> WithoutEdge(edges, id) == edges
  {
    if forall j :: 0 <= j < |edges| ==> edges[j].id != id {
      WithoutEdgeKeepsOthers(edges, id);
    }
  }
}
