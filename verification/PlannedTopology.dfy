/**
 The planned target graph (buildKubernetesTarget, internal/migration/evidence_service.go:442-469).
 */
module PlannedTopology {
  import opened Wrappers
  import opened Manifests
  import opened Topology
  import opened EvidencePrediction
  import opened TopologyMerge

  // ---------------------------------------------------------------- planning a graph

  function PlannedNodes(nodes: seq<GraphNode>, profile: Profile): seq<GraphNode> {
    seq(|nodes|, i requires 0 <= i < |nodes| => PlannedNode(nodes[i], profile))
  }

  /** Later nodes of one source ID win. */
  function PlannedId(nodes: seq<GraphNode>, id: NodeId, profile: Profile): Option<NodeId> {
    if nodes == [] then None
    else if nodes[|nodes| - 1].id == id then Some(PlannedNode(nodes[|nodes| - 1], profile).id)
    else PlannedId(nodes[..|nodes| - 1], id, profile)
  }

  function PlannedEdges(edges: seq<Edge>, nodes: seq<GraphNode>, profile: Profile): seq<Edge> {
    if edges == [] then []
    else
      var last := edges[|edges| - 1];
      var from, to := PlannedId(nodes, last.from, profile), PlannedId(nodes, last.to, profile);
      PlannedEdges(edges[..|edges| - 1], nodes, profile) +
      (if from.Some? && to.Some? then [Edge(from.value, to.value, last.relation, last.required, Planned)] else [])
  }

  method BuildKubernetesTarget(nodes: seq<GraphNode>, edges: seq<Edge>, profile: Profile)
    returns (target: seq<GraphNode>, targetEdges: seq<Edge>)
    ensures target == PlannedNodes(nodes, profile)
    ensures targetEdges == PlannedEdges(edges, nodes, profile)
  {
    hide PlannedNode;
    var idMap: map<NodeId, NodeId> := map[];
    target, targetEdges := [], [];
    for i := 0 to |nodes|
      invariant target == PlannedNodes(nodes[..i], profile)
      invariant forall id :: id in idMap <==> PlannedId(nodes[..i], id, profile).Some?
      invariant forall id :: id in idMap ==> PlannedId(nodes[..i], id, profile) == Some(idMap[id])
    {
      assert nodes[..i + 1][..i] == nodes[..i];
      var planned := PlannedNode(nodes[i], profile);
      idMap := idMap[nodes[i].id := planned.id];
      target := target + [planned];
    }
    assert nodes[..|nodes|] == nodes;
    for i := 0 to |edges|
      invariant targetEdges == PlannedEdges(edges[..i], nodes, profile)
    {
      assert edges[..i + 1][..i] == edges[..i];
      var edge := edges[i];
      if edge.from in idMap && edge.to in idMap {
        targetEdges := targetEdges + [Edge(idMap[edge.from], idMap[edge.to], edge.relation, edge.required, Planned)];
      }
    }
    assert edges[..|edges|] == edges;
  }

  lemma {:induction false} PlannedIdIsThere(nodes: seq<GraphNode>, id: NodeId, profile: Profile)
    ensures PlannedId(nodes, id, profile).Some? <==> id in Ids(nodes)
    ensures PlannedId(nodes, id, profile).Some? ==> PlannedId(nodes, id, profile).value in Ids(PlannedNodes(nodes, profile))
  {
    hide PlannedNode;
    if nodes != [] {
      var n := |nodes| - 1;
      PlannedIdIsThere(nodes[..n], id, profile);
      assert nodes == nodes[..n] + [nodes[n]];
      assert PlannedNodes(nodes, profile) == PlannedNodes(nodes[..n], profile) + [PlannedNode(nodes[n], profile)];
    }
  }

  /** The planned edges are the source edges between source nodes, one each, and none dangles. */
  lemma {:induction false} PlannedEdgesStayInside(edges: seq<Edge>, nodes: seq<GraphNode>, profile: Profile)
    ensures forall edge :: edge in PlannedEdges(edges, nodes, profile) ==>
              edge.from in Ids(PlannedNodes(nodes, profile)) && edge.to in Ids(PlannedNodes(nodes, profile))
    ensures |PlannedEdges(edges, nodes, profile)| == |Inside(edges, nodes)|
  {
    hide PlannedNodes, Ids;
    if edges != [] {
      var n := |edges| - 1;
      PlannedEdgesStayInside(edges[..n], nodes, profile);
      PlannedIdIsThere(nodes, edges[n].from, profile);
      PlannedIdIsThere(nodes, edges[n].to, profile);
    }
  }

  function Inside(edges: seq<Edge>, nodes: seq<GraphNode>): seq<Edge> {
    if edges == [] then []
    else
      var last := edges[|edges| - 1];
      Inside(edges[..|edges| - 1], nodes) + (if last.from in Ids(nodes) && last.to in Ids(nodes) then [last] else [])
  }
}
