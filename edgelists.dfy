/**
 * The edge-list operations both stores perform when a wire is drawn or
 * moved: the check that a connection's endpoints exist, the edge built from
 * a connection (React Flow's `addEdge` appends it), the rewiring of an edge
 * (React Flow's `reconnectEdge`), and the removal of edges by id.
 */
module EdgeLists {
  import opened Wrappers
  import opened Values

  /**
   * `sourceNode && targetNode && source`: both endpoints name existing nodes
   * and the source id is a non-empty string.
   */
  predicate Connectable(nodes: seq<Node>, connection: Connection) {
    connection.source.Some? && connection.source.value != "" && connection.target.Some?
    && FindNode(nodes, connection.source.value).Some? && FindNode(nodes, connection.target.value).Some?
  }

  /** The edge `{...connection}` the store appends, under the id the canvas gives it. */
  function EdgeOf(connection: Connection, edgeId: string): (e: Edge)
    requires connection.source.Some? && connection.target.Some?
    ensures e.id == edgeId
    ensures e.source == connection.source.value && e.target == connection.target.value
    ensures e.sourceHandle == connection.sourceHandle && e.targetHandle == connection.targetHandle
  {
    Edge(edgeId, connection.source.value, connection.target.value, connection.sourceHandle, connection.targetHandle)
  }

  /** An edge moved onto the connection's endpoints and handles, keeping its id. */
  function Rewired(e: Edge, connection: Connection): Edge
    requires connection.source.Some? && connection.target.Some?
  {
    e.(source := connection.source.value, target := connection.target.value,
       sourceHandle := connection.sourceHandle, targetHandle := connection.targetHandle)
  }

  /**
   * `reconnectEdge(oldEdge, connection, edges)`: the edge with the old edge's
   * id is moved onto the connection's endpoints; a connection missing an
   * endpoint changes nothing.
   */
  function Reconnected(edges: seq<Edge>, oldId: string, connection: Connection): (r: seq<Edge>)
    ensures |r| == |edges|
    ensures connection.source.None? || connection.target.None? ==> r == edges
  {
    if connection.source.None? || connection.target.None? then edges
    else
      seq(|edges|, j requires 0 <= j < |edges| =>
        (if edges[j].id == oldId then Rewired(edges[j], connection) else edges[j]))
  }

  /** `edges.filter(e => e.id !== id)`. */
  function WithoutEdge(edges: seq<Edge>, id: string): (r: seq<Edge>)
    ensures forall e :: e in r <==> e in edges && e.id != id
    ensures |r| <= |edges|
  {
    if edges == [] then []
    else (if edges[0].id != id then [edges[0]] else []) + WithoutEdge(edges[1..], id)
  }

  /** The ids of an edge list, in order. */
  function EdgeIds(edges: seq<Edge>): (ids: seq<string>)
    ensures |ids| == |edges| && forall j :: 0 <= j < |edges| ==> ids[j] == edges[j].id
  {
    seq(|edges|, j requires 0 <= j < |edges| => edges[j].id)
  }

  // ---------------------------------------------------------------------
  // Properties

  /**
   * Reconnecting keeps every edge's id and position; the edges with the old
   * id join the connection's endpoints and handles, and every other edge is
   * kept as it was.
   */
  lemma ReconnectRewires(edges: seq<Edge>, oldId: string, connection: Connection)
    requires connection.source.Some? && connection.target.Some?
    ensures var r := Reconnected(edges, oldId, connection);
            EdgeIds(r) == EdgeIds(edges)
            && (forall j :: 0 <= j < |edges| && edges[j].id != oldId ==> r[j] == edges[j])
            && (forall j :: 0 <= j < |edges| && edges[j].id == oldId ==>
                  r[j].source == connection.source.value && r[j].target == connection.target.value
                  && r[j].sourceHandle == connection.sourceHandle && r[j].targetHandle == connection.targetHandle)
  {
    var r := Reconnected(edges, oldId, connection);
    assert forall j :: 0 <= j < |edges| ==> EdgeIds(r)[j] == EdgeIds(edges)[j];
  }

  /** Removing an edge by id keeps the order of the others: removal is a subsequence filter. */
  lemma {:induction false} WithoutEdgeKeepsOthers(edges: seq<Edge>, id: string)
    requires forall j :: 0 <= j < |edges| ==> edges[j].id != id
    ensures WithoutEdge(edges, id) == edges
  {
    if edges != [] {
      WithoutEdgeKeepsOthers(edges[1..], id);
      assert [edges[0]] + edges[1..] == edges;
    }
  }

  /** Removing an edge by id twice is removing it once. */
  lemma WithoutEdgeIdempotent(edges: seq<Edge>, id: string)
    ensures WithoutEdge(WithoutEdge(edges, id), id) == WithoutEdge(edges, id)
  {
    var r := WithoutEdge(edges, id);
    forall j | 0 <= j < |r| ensures r[j].id != id {
      assert r[j] in r;
    }
    WithoutEdgeKeepsOthers(r, id);
  }
}
