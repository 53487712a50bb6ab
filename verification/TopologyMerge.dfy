/**
 Comparing the planned target with the observed one (mergeObservedTopology,
 internal/migration/evidence_service.go:650-724, 1032-1046).
 */
module TopologyMerge {
  import opened Wrappers
  import opened Manifests
  import opened Topology

  // ---------------------------------------------------------------- one node

  /** Later observed nodes of the same identity win. */
  function Observed(nodes: seq<GraphNode>, key: Identity): Option<GraphNode> {
    if nodes == [] then None
    else
      var last := nodes[|nodes| - 1];
      if IdentityOf(last) == key then Some(last) else Observed(nodes[..|nodes| - 1], key)
  }

  function Unapplied(changes: seq<Change>, actual: GraphNode): nat {
    if changes == [] then 0
    else Unapplied(changes[..|changes| - 1], actual) + (if AppearsApplied(changes[|changes| - 1], actual) then 0 else 1)
  }

  function Judged(changes: seq<Change>, actual: GraphNode): seq<Change> {
    seq(|changes|, i requires 0 <= i < |changes| => changes[i].(applied := Some(AppearsApplied(changes[i], actual))))
  }

  /** The run has got as far as promising every target resource. */
  predicate MustExist(run: RunStatus) { IsTerminal(run) || run.AwaitingCutover? }

  function FoundStatus(node: GraphNode, run: RunStatus): Status {
    if run.Completed? || run.AwaitingCutover? then Succeeded
    else if IsTerminal(run) then if CurrentlyHealthy(node.kind, node.attributes) then Succeeded else Warned
    else Created
  }

  function MergedNode(node: GraphNode, observed: seq<GraphNode>, run: RunStatus): GraphNode {
    match Observed(observed, IdentityOf(node))
    case None => if MustExist(run) then node.(status := Missing) else node
    case Some(actual) =>
      var merged := node.(attributes := MergeAttributes(node.attributes, actual.attributes));
      merged.(changes := Judged(node.changes, actual),
              status := if Unapplied(node.changes, actual) > 0 then Failed else FoundStatus(merged, run))
  }

  function DriftOf(node: GraphNode, observed: seq<GraphNode>, run: RunStatus): nat {
    match Observed(observed, IdentityOf(node))
    case None => if MustExist(run) then 1 else 0
    case Some(actual) => Unapplied(node.changes, actual)
  }

  // ---------------------------------------------------------------- the whole graph

  function MergedNodes(expected: seq<GraphNode>, observed: seq<GraphNode>, run: RunStatus): seq<GraphNode> {
    seq(|expected|, i requires 0 <= i < |expected| => MergedNode(expected[i], observed, run))
  }

  function TotalDrift(expected: seq<GraphNode>, observed: seq<GraphNode>, run: RunStatus): nat {
    if expected == [] then 0
    else TotalDrift(expected[..|expected| - 1], observed, run) + DriftOf(expected[|expected| - 1], observed, run)
  }

  function Identities(nodes: seq<GraphNode>): set<Identity> { set node | node in nodes :: IdentityOf(node) }

  predicate Unplanned(node: GraphNode, planned: set<Identity>) {
    IdentityOf(node) !in planned && !IsHelper(node) && !IsGenerated(node)
  }

  function ExtraNode(node: GraphNode): GraphNode {
    if IsGenerated(node) then node.(required := false, status := Skipped) else node.(status := Warned)
  }

  function Extras(observed: seq<GraphNode>, planned: set<Identity>): seq<GraphNode> {
    if observed == [] then []
    else
      var last := observed[|observed| - 1];
      Extras(observed[..|observed| - 1], planned) + (if IdentityOf(last) in planned || IsHelper(last) then [] else [ExtraNode(last)])
  }

  function CountUnplanned(observed: seq<GraphNode>, planned: set<Identity>): nat {
    if observed == [] then 0
    else CountUnplanned(observed[..|observed| - 1], planned) + (if Unplanned(observed[|observed| - 1], planned) then 1 else 0)
  }

  function AllNodes(expected: seq<GraphNode>, observed: seq<GraphNode>, run: RunStatus): seq<GraphNode> {
    MergedNodes(expected, observed, run) + Extras(observed, Identities(expected))
  }

  function Drifted(expected: seq<GraphNode>, observed: seq<GraphNode>, run: RunStatus): nat {
    TotalDrift(expected, observed, run) + CountUnplanned(observed, Identities(expected))
  }

  // ---------------------------------------------------------------- edges

  function Ids(nodes: seq<GraphNode>): set<NodeId> { set node | node in nodes :: node.id }

  /** Later nodes of the same ID win. */
  function StatusOf(nodes: seq<GraphNode>, id: NodeId): Option<Status> {
    if nodes == [] then None
    else if nodes[|nodes| - 1].id == id then Some(nodes[|nodes| - 1].status)
    else StatusOf(nodes[..|nodes| - 1], id)
  }

  predicate Bad(status: Option<Status>) { status in {Some(Failed), Some(Missing)} }

  /** The first end that is not fine decides. */
  function EdgeStatus(edge: Edge, nodes: seq<GraphNode>): Status {
    var from, to := StatusOf(nodes, edge.from), StatusOf(nodes, edge.to);
    if Bad(from) then Failed
    else if from == Some(Warned) then Warned
    else if Bad(to) then Failed
    else if to == Some(Warned) then Warned
    else Succeeded
  }

  function KeptEdges(edges: seq<Edge>, nodes: seq<GraphNode>): seq<Edge> {
    if edges == [] then []
    else
      var last := edges[|edges| - 1];
      KeptEdges(edges[..|edges| - 1], nodes) +
      (if last.from in Ids(nodes) && last.to in Ids(nodes) then [last.(status := EdgeStatus(last, nodes))] else [])
  }

  // ---------------------------------------------------------------- in loops, as the source does it

  method IndexByIdentity(nodes: seq<GraphNode>) returns (byKey: map<Identity, GraphNode>)
    ensures forall key :: key in byKey <==> Observed(nodes, key).Some?
    ensures forall key :: key in byKey ==> Observed(nodes, key) == Some(byKey[key])
  {
    byKey := map[];
    for i := 0 to |nodes|
      invariant forall key :: key in byKey <==> Observed(nodes[..i], key).Some?
      invariant forall key :: key in byKey ==> Observed(nodes[..i], key) == Some(byKey[key])
    {
      assert nodes[..i + 1][..i] == nodes[..i];
      byKey := byKey[IdentityOf(nodes[i]) := nodes[i]];
    }
    assert nodes[..|nodes|] == nodes;
  }

  method MergeOne(node: GraphNode, actual: GraphNode, run: RunStatus) returns (merged: GraphNode, drifted: nat)
    ensures drifted == Unapplied(node.changes, actual)
    ensures var found := node.(attributes := MergeAttributes(node.attributes, actual.attributes));
            merged == found.(changes := Judged(node.changes, actual), status := if drifted > 0 then Failed else FoundStatus(found, run))
  {
    hide AppearsApplied, MergeAttributes;
    merged := node.(attributes := MergeAttributes(node.attributes, actual.attributes));
    var found := merged;
    merged := merged.(status := FoundStatus(merged, run));
    drifted := 0;
    var changes := node.changes;
    for i := 0 to |changes|
      invariant |changes| == |node.changes|
      invariant forall j :: 0 <= j < i ==> changes[j] == Judged(node.changes, actual)[j]
      invariant forall j :: i <= j < |changes| ==> changes[j] == node.changes[j]
      invariant drifted == Unapplied(node.changes[..i], actual)
      invariant merged == found.(status := if drifted > 0 then Failed else FoundStatus(found, run))
    {
      assert node.changes[..i + 1][..i] == node.changes[..i];
      var applied := AppearsApplied(changes[i], actual);
      changes := changes[i := changes[i].(applied := Some(applied))];
      if !applied {
        merged := merged.(status := Failed);
        drifted := drifted + 1;
      }
    }
    assert node.changes[..|node.changes|] == node.changes;
    assert changes == Judged(node.changes, actual);
    merged := merged.(changes := changes);
  }

  method MergeNode(node: GraphNode, byKey: map<Identity, GraphNode>, ghost observed: seq<GraphNode>, run: RunStatus)
    returns (merged: GraphNode, drifted: nat)
    requires forall key :: key in byKey <==> Observed(observed, key).Some?
    requires forall key :: key in byKey ==> Observed(observed, key) == Some(byKey[key])
    ensures merged == MergedNode(node, observed, run) && drifted == DriftOf(node, observed, run)
  {
    hide Unapplied, Judged, FoundStatus, MergeAttributes, Observed, MustExist;
    merged, drifted := node, 0;
    var key := IdentityOf(node);
    if key in byKey {
      merged, drifted := MergeOne(node, byKey[key], run);
    } else if MustExist(run) {
      merged, drifted := node.(status := Missing), 1;
    }
  }

  method MergeExpected(expected: seq<GraphNode>, observed: seq<GraphNode>, run: RunStatus)
    returns (nodes: seq<GraphNode>, drifted: nat, seen: set<Identity>)
    ensures nodes == MergedNodes(expected, observed, run)
    ensures drifted == TotalDrift(expected, observed, run)
    ensures forall node :: node in observed ==> (IdentityOf(node) in seen <==> IdentityOf(node) in Identities(expected))
  {
    hide MergedNode, DriftOf, Observed, Identities, TotalDrift;
    var byKey := IndexByIdentity(observed);
    nodes, drifted, seen := expected, 0, {};
    NoIdentities();
    NoDriftYet(expected, observed, run);
    for i := 0 to |expected|
      invariant |nodes| == |expected|
      invariant forall j :: 0 <= j < i ==> nodes[j] == MergedNode(expected[j], observed, run)
      invariant forall j :: i <= j < |nodes| ==> nodes[j] == expected[j]
      invariant drifted == TotalDrift(expected[..i], observed, run)
      invariant seen == Identities(expected[..i]) * byKey.Keys
    {
      OneMoreIdentity(expected, i);
      OneMoreDrift(expected, observed, run, i);
      var key := IdentityOf(nodes[i]);
      if key in byKey {
        seen := seen + {key};
      }
      var merged, more := MergeNode(nodes[i], byKey, observed, run);
      nodes, drifted := nodes[i := merged], drifted + more;
    }
    assert expected[..|expected|] == expected;
    forall node | node in observed
      ensures IdentityOf(node) in byKey
    {
      MembersAreObserved(observed, node);
    }
  }

  lemma {:induction false} MembersAreObserved(nodes: seq<GraphNode>, node: GraphNode)
    requires node in nodes
    ensures Observed(nodes, IdentityOf(node)).Some?
  {
    var last := nodes[|nodes| - 1];
    if IdentityOf(last) != IdentityOf(node) {
      assert nodes == nodes[..|nodes| - 1] + [last];
      MembersAreObserved(nodes[..|nodes| - 1], node);
    }
  }

  lemma NoDriftYet(expected: seq<GraphNode>, observed: seq<GraphNode>, run: RunStatus)
    ensures TotalDrift(expected[..0], observed, run) == 0
  {
  }

  lemma OneMoreDrift(expected: seq<GraphNode>, observed: seq<GraphNode>, run: RunStatus, i: nat)
    requires i < |expected|
    ensures TotalDrift(expected[..i + 1], observed, run) == TotalDrift(expected[..i], observed, run) + DriftOf(expected[i], observed, run)
  {
    hide DriftOf;
    assert expected[..i + 1][..i] == expected[..i];
  }

  lemma NoIdentities()
    ensures Identities([]) == {}
  {
  }

  lemma OneMoreIdentity(nodes: seq<GraphNode>, i: nat)
    requires i < |nodes|
    ensures Identities(nodes[..i + 1]) == Identities(nodes[..i]) + {IdentityOf(nodes[i])}
  {
  }

  method MergeObservedTopology(expected: seq<GraphNode>, observed: seq<GraphNode>, observedEdges: seq<Edge>, run: RunStatus)
    returns (nodes: seq<GraphNode>, edges: seq<Edge>, drifted: nat)
    ensures nodes == AllNodes(expected, observed, run)
    ensures edges == KeptEdges(observedEdges, nodes)
    ensures drifted == Drifted(expected, observed, run)
  {
    hide MergedNodes, TotalDrift, Identities, IsHelper, IsGenerated, EdgeStatus, Ids;
    var seen;
    nodes, drifted, seen := MergeExpected(expected, observed, run);
    var planned, merged, base := Identities(expected), nodes, drifted;
    for i := 0 to |observed|
      invariant nodes == merged + Extras(observed[..i], planned)
      invariant drifted == base + CountUnplanned(observed[..i], planned)
    {
      assert observed[..i + 1][..i] == observed[..i];
      var node := observed[i];
      if IdentityOf(node) in seen || IsHelper(node) {
        continue;
      }
      nodes := nodes + [ExtraNode(node)];
      if !IsGenerated(node) {
        drifted := drifted + 1;
      }
    }
    assert observed[..|observed|] == observed;
    var ids := Ids(nodes);
    edges := [];
    for i := 0 to |observedEdges|
      invariant edges == KeptEdges(observedEdges[..i], nodes)
    {
      assert observedEdges[..i + 1][..i] == observedEdges[..i];
      var edge := observedEdges[i];
      if edge.from in ids && edge.to in ids {
        edges := edges + [edge.(status := EdgeStatus(edge, nodes))];
      }
    }
    assert observedEdges[..|observedEdges|] == observedEdges;
  }

  // ---------------------------------------------------------------- what the merge promises

  lemma {:induction false} ExtrasAre(observed: seq<GraphNode>, planned: set<Identity>, out: GraphNode)
    ensures out in Extras(observed, planned) <==>
            exists node :: node in observed && IdentityOf(node) !in planned && !IsHelper(node) && out == ExtraNode(node)
  {
    hide IsHelper, IsGenerated;
    if observed != [] {
      ExtrasAre(observed[..|observed| - 1], planned, out);
      assert observed == observed[..|observed| - 1] + [observed[|observed| - 1]];
    }
  }

  lemma MergedKeepsIdentity(node: GraphNode, observed: seq<GraphNode>, run: RunStatus)
    ensures MergedNode(node, observed, run).id == node.id && IdentityOf(MergedNode(node, observed, run)) == IdentityOf(node)
  {
  }

  lemma ExtrasAreUnplannedOnly(observed: seq<GraphNode>, planned: set<Identity>, out: GraphNode)
    requires out in Extras(observed, planned)
    ensures IdentityOf(out) !in planned && !IsHelper(out)
  {
  }

  /** Every planned node is kept, once and in place; of the observed ones only helpers go missing. */
  lemma NothingIsLost(expected: seq<GraphNode>, observed: seq<GraphNode>, run: RunStatus)
    ensures var nodes := AllNodes(expected, observed, run);
            && |nodes| >= |expected|
            && (forall i :: 0 <= i < |expected| ==> nodes[i].id == expected[i].id && IdentityOf(nodes[i]) == IdentityOf(expected[i]))
            && (forall node :: node in observed && !IsHelper(node) ==> IdentityOf(node) in Identities(nodes))
            && (forall i :: |expected| <= i < |nodes| ==> IdentityOf(nodes[i]) !in Identities(expected) && !IsHelper(nodes[i]))
  {
    hide IsHelper, IsGenerated, MergedNode, Extras, Identities;
    var nodes, planned := AllNodes(expected, observed, run), Identities(expected);
    forall i | 0 <= i < |expected|
      ensures nodes[i].id == expected[i].id && IdentityOf(nodes[i]) == IdentityOf(expected[i])
    {
      MergedKeepsIdentity(expected[i], observed, run);
    }
    forall node | node in observed && !IsHelper(node)
      ensures IdentityOf(node) in Identities(nodes)
    {
      if IdentityOf(node) in planned {
        var i := IndexOfIdentity(expected, IdentityOf(node));
        IdentityOfMember(nodes, i);
      } else {
        ExtrasAre(observed, planned, ExtraNode(node));
        var k :| 0 <= k < |Extras(observed, planned)| && Extras(observed, planned)[k] == ExtraNode(node);
        IdentityOfMember(nodes, |expected| + k);
      }
    }
    forall i | |expected| <= i < |nodes|
      ensures IdentityOf(nodes[i]) !in planned && !IsHelper(nodes[i])
    {
      assert nodes[i] == Extras(observed, planned)[i - |expected|];
      ExtrasAreUnplannedOnly(observed, planned, nodes[i]);
    }
  }

  /** The IDs of the result: the planned ones, and those of kept resources nobody planned. */
  lemma IdsAfterwards(expected: seq<GraphNode>, observed: seq<GraphNode>, run: RunStatus, id: NodeId)
    ensures id in Ids(AllNodes(expected, observed, run)) <==>
            id in Ids(expected) || exists node :: node in observed && node.id == id && !IsHelper(node) && IdentityOf(node) !in Identities(expected)
  {
    hide IsHelper, IsGenerated, MergedNode, Extras, Identities;
    var merged, extras := MergedNodes(expected, observed, run), Extras(observed, Identities(expected));
    forall i | 0 <= i < |expected|
      ensures merged[i].id == expected[i].id && expected[i] in expected && merged[i] in merged
    {
      MergedKeepsIdentity(expected[i], observed, run);
    }
    forall node | node in observed && !IsHelper(node) && IdentityOf(node) !in Identities(expected)
      ensures ExtraNode(node) in extras && ExtraNode(node).id == node.id
    {
      ExtrasAre(observed, Identities(expected), ExtraNode(node));
    }
    forall out | out in extras
      ensures exists node :: node in observed && node.id == out.id && !IsHelper(node) && IdentityOf(node) !in Identities(expected)
    {
      ExtrasAre(observed, Identities(expected), out);
    }
  }

  lemma IndexOfIdentity(nodes: seq<GraphNode>, key: Identity) returns (i: nat)
    requires key in Identities(nodes)
    ensures i < |nodes| && IdentityOf(nodes[i]) == key
  {
    i :| 0 <= i < |nodes| && IdentityOf(nodes[i]) == key;
  }

  lemma IdentityOfMember(nodes: seq<GraphNode>, i: nat)
    requires i < |nodes|
    ensures IdentityOf(nodes[i]) in Identities(nodes)
  {
  }

  /** No edge of the result dangles, and no observed edge between two kept nodes is lost. */
  lemma {:induction false} EdgesStayInside(edges: seq<Edge>, nodes: seq<GraphNode>)
    ensures forall edge :: edge in KeptEdges(edges, nodes) ==> edge.from in Ids(nodes) && edge.to in Ids(nodes) && edge.status == EdgeStatus(edge, nodes)
    ensures forall edge :: edge in edges && edge.from in Ids(nodes) && edge.to in Ids(nodes) ==>
              edge.(status := EdgeStatus(edge, nodes)) in KeptEdges(edges, nodes)
  {
    hide Ids, Bad;
    if edges != [] {
      EdgesStayInside(edges[..|edges| - 1], nodes);
      assert edges == edges[..|edges| - 1] + [edges[|edges| - 1]];
    }
  }

  lemma {:induction false} NoneUnappliedIff(changes: seq<Change>, actual: GraphNode)
    ensures Unapplied(changes, actual) == 0 <==> forall change :: change in changes ==> AppearsApplied(change, actual)
  {
    hide AppearsApplied;
    if changes != [] {
      NoneUnappliedIff(changes[..|changes| - 1], actual);
      assert changes == changes[..|changes| - 1] + [changes[|changes| - 1]];
    }
  }

  lemma {:induction false} NoDriftMeans(expected: seq<GraphNode>, observed: seq<GraphNode>, run: RunStatus)
    ensures TotalDrift(expected, observed, run) == 0 <==> forall node :: node in expected ==> DriftOf(node, observed, run) == 0
  {
    hide DriftOf;
    if expected != [] {
      NoDriftMeans(expected[..|expected| - 1], observed, run);
      assert expected == expected[..|expected| - 1] + [expected[|expected| - 1]];
    }
  }

  lemma {:induction false} NoneUnplannedMeans(observed: seq<GraphNode>, planned: set<Identity>)
    ensures CountUnplanned(observed, planned) == 0 <==> forall node :: node in observed ==> !Unplanned(node, planned)
  {
    hide Unplanned;
    if observed != [] {
      NoneUnplannedMeans(observed[..|observed| - 1], planned);
      assert observed == observed[..|observed| - 1] + [observed[|observed| - 1]];
    }
  }

  /**
   For a completed run, zero drift means exactly that every planned node is SUCCEEDED
   and that whatever else was kept is a skipped, generated resource.
   */
  lemma ZeroDriftIffAllSucceeded(expected: seq<GraphNode>, observed: seq<GraphNode>)
    ensures var nodes := AllNodes(expected, observed, Completed);
            Drifted(expected, observed, Completed) == 0 <==>
              && (forall i :: 0 <= i < |expected| ==> nodes[i].status == Succeeded)
              && (forall i :: |expected| <= i < |nodes| ==> nodes[i].status == Skipped)
  {
    hide IsHelper, IsGenerated, Unapplied, Judged;
    var nodes, planned := AllNodes(expected, observed, Completed), Identities(expected);
    NoDriftMeans(expected, observed, Completed);
    NoneUnplannedMeans(observed, planned);
    forall i | 0 <= i < |expected|
      ensures nodes[i].status == Succeeded <==> DriftOf(expected[i], observed, Completed) == 0
    {
      assert nodes[i] == MergedNode(expected[i], observed, Completed);
    }
    ExtrasSkippedIffNoneUnplanned(observed, planned);
    forall out | out in Extras(observed, planned)
      ensures exists i :: |expected| <= i < |nodes| && nodes[i] == out
    {
      var k :| 0 <= k < |Extras(observed, planned)| && Extras(observed, planned)[k] == out;
      assert nodes[|expected| + k] == out;
    }
  }

  lemma ExtrasSkippedIffNoneUnplanned(observed: seq<GraphNode>, planned: set<Identity>)
    ensures (forall out :: out in Extras(observed, planned) ==> out.status == Skipped) <==> forall node :: node in observed ==> !Unplanned(node, planned)
  {
    hide IsHelper, IsGenerated, Extras;
    forall node | node in observed && Unplanned(node, planned)
      ensures ExtraNode(node) in Extras(observed, planned) && ExtraNode(node).status != Skipped
    {
      ExtrasAre(observed, planned, ExtraNode(node));
    }
    forall out | out in Extras(observed, planned) && out.status != Skipped
      ensures exists node :: node in observed && Unplanned(node, planned)
    {
      ExtrasAre(observed, planned, out);
    }
  }

  // ---------------------------------------------------------------- the drift count, by cardinality

  function Absent(expected: seq<GraphNode>, observed: seq<GraphNode>): set<nat> {
    set i: nat | i < |expected| && Observed(observed, IdentityOf(expected[i])).None?
  }

  function UnappliedChanges(expected: seq<GraphNode>, observed: seq<GraphNode>): set<(nat, nat)> {
    set i: nat, c: nat | i < |expected| && c < |expected[i].changes| && IsUnapplied(expected[i], c, observed) :: (i, c)
  }

  predicate IsUnapplied(node: GraphNode, c: nat, observed: seq<GraphNode>)
    requires c < |node.changes|
  {
    match Observed(observed, IdentityOf(node))
    case None => false
    case Some(actual) => !AppearsApplied(node.changes[c], actual)
  }

  function UnplannedNodes(observed: seq<GraphNode>, planned: set<Identity>): set<nat> {
    set i: nat | i < |observed| && Unplanned(observed[i], planned)
  }

  function UnappliedOf(changes: seq<Change>, actual: GraphNode): set<nat> {
    set c: nat | c < |changes| && !AppearsApplied(changes[c], actual)
  }

  lemma {:induction false} UnappliedCounts(changes: seq<Change>, actual: GraphNode)
    ensures Unapplied(changes, actual) == |UnappliedOf(changes, actual)|
  {
    hide AppearsApplied;
    if changes == [] {
      assert UnappliedOf(changes, actual) == {};
    } else {
      var n := |changes| - 1;
      UnappliedCounts(changes[..n], actual);
      assert UnappliedOf(changes, actual) == UnappliedOf(changes[..n], actual) + (if AppearsApplied(changes[n], actual) then {} else {n});
    }
  }

  lemma {:induction false} UnplannedCounts(observed: seq<GraphNode>, planned: set<Identity>)
    ensures CountUnplanned(observed, planned) == |UnplannedNodes(observed, planned)|
  {
    hide Unplanned;
    if observed == [] {
      assert UnplannedNodes(observed, planned) == {};
    } else {
      var n := |observed| - 1;
      UnplannedCounts(observed[..n], planned);
      assert UnplannedNodes(observed, planned) == UnplannedNodes(observed[..n], planned) + (if Unplanned(observed[n], planned) then {n} else {});
    }
  }

  function ChangesOfNode(node: GraphNode, i: nat, observed: seq<GraphNode>): set<(nat, nat)> {
    set c: nat | c < |node.changes| && IsUnapplied(node, c, observed) :: (i, c)
  }

  function Tagged(items: set<nat>, i: nat): set<(nat, nat)> { set c | c in items :: (i, c) }

  lemma {:induction false} TagsKeepTheSize(items: set<nat>, i: nat)
    ensures |Tagged(items, i)| == |items|
  {
    if items == {} {
      assert Tagged(items, i) == {};
    } else {
      var x :| x in items;
      TagsKeepTheSize(items - {x}, i);
      assert Tagged(items, i) == Tagged(items - {x}, i) + {(i, x)};
    }
  }

  lemma OneNodeCounts(node: GraphNode, i: nat, observed: seq<GraphNode>)
    ensures |ChangesOfNode(node, i, observed)| ==
            (match Observed(observed, IdentityOf(node)) case None => 0 case Some(actual) => Unapplied(node.changes, actual))
  {
    hide AppearsApplied, Observed;
    match Observed(observed, IdentityOf(node)) {
      case None => assert ChangesOfNode(node, i, observed) == {};
      case Some(actual) =>
        UnappliedCounts(node.changes, actual);
        TagsKeepTheSize(UnappliedOf(node.changes, actual), i);
        assert ChangesOfNode(node, i, observed) == Tagged(UnappliedOf(node.changes, actual), i);
    }
  }

  lemma {:induction false} TotalDriftCounts(expected: seq<GraphNode>, observed: seq<GraphNode>, run: RunStatus)
    ensures TotalDrift(expected, observed, run)
            == (if MustExist(run) then |Absent(expected, observed)| else 0) + |UnappliedChanges(expected, observed)|
  {
    hide IsUnapplied, Observed, MustExist;
    if expected == [] {
      assert Absent(expected, observed) == {} && UnappliedChanges(expected, observed) == {};
    } else {
      var n := |expected| - 1;
      var before := expected[..n];
      TotalDriftCounts(before, observed, run);
      OneNodeCounts(expected[n], n, observed);
      assert Absent(expected, observed) == Absent(before, observed) + (if Observed(observed, IdentityOf(expected[n])).None? then {n} else {});
      OneMoreNode(expected, n, observed);
    }
  }

  lemma OneMoreNode(expected: seq<GraphNode>, n: nat, observed: seq<GraphNode>)
    requires n == |expected| - 1
    ensures |UnappliedChanges(expected, observed)| == |UnappliedChanges(expected[..n], observed)| + |ChangesOfNode(expected[n], n, observed)|
  {
    hide IsUnapplied;
    assert UnappliedChanges(expected, observed) == UnappliedChanges(expected[..n], observed) + ChangesOfNode(expected[n], n, observed);
    assert UnappliedChanges(expected[..n], observed) !! ChangesOfNode(expected[n], n, observed);
  }

  /**
   The reported drift: planned nodes that are absent (once the run promises them), plus
   planned changes the observed node does not show, plus resources nobody planned.
   */
  lemma DriftCountsExactly(expected: seq<GraphNode>, observed: seq<GraphNode>, run: RunStatus)
    ensures Drifted(expected, observed, run)
            == (if MustExist(run) then |Absent(expected, observed)| else 0)
               + |UnappliedChanges(expected, observed)|
               + |UnplannedNodes(observed, Identities(expected))|
  {
    TotalDriftCounts(expected, observed, run);
    UnplannedCounts(observed, Identities(expected));
  }

  // ---------------------------------------------------------------- what is counted, and what is shown

  /** A found resource counts as unplanned unless it was planned, belongs to the migration itself, or comes with every cluster. */
  lemma UnplannedMeans(node: GraphNode, planned: set<Identity>)
    ensures Unplanned(node, planned) <==>
            && IdentityOf(node) !in planned
            && !(node.attributes.labels.Some? && "app.kubernetes.io/managed-by" in node.attributes.labels.value
                 && node.attributes.labels.value["app.kubernetes.io/managed-by"] == "sks-migration-center")
            && !("smc-kopia-" <= node.name) && !("smc-validation-" <= node.name) && !("smc-pvc-" <= node.name)
            && node.kind != OtherKind("StorageClass")
            && !(node.kind == OtherKind("ServiceAccount") && node.name == "default")
            && !(node.kind == OtherKind("ConfigMap") && node.name == "kube-root-ca.crt")
  {
  }

  /** One class of run each: not begun or in progress, waiting or completed, failed or cancelled. */
  lemma StatusMeans(node: GraphNode, observed: seq<GraphNode>, run: RunStatus)
    ensures var status := MergedNode(node, observed, run).status;
            match Observed(observed, IdentityOf(node))
            case None => status == if run in {Completed, RunFailed, Cancelled, AwaitingCutover} then Missing else node.status
            case Some(actual) =>
              var healthy := Healthy(node.kind, MergeAttributes(node.attributes, actual.attributes));
              status == if exists change :: change in node.changes && !AppearsApplied(change, actual) then Failed
                        else if run in {Completed, AwaitingCutover} then Succeeded
                        else if run in {RunFailed, Cancelled} then if healthy then Succeeded else Warned
                        else Created
  {
    hide AppearsApplied, Observed, MergeAttributes;
    if Observed(observed, IdentityOf(node)).Some? {
      var actual := Observed(observed, IdentityOf(node)).value;
      NoneUnappliedIff(node.changes, actual);
      HealthMeans(node.kind, MergeAttributes(node.attributes, actual.attributes));
    }
  }

  /** Something is wanted and all of it is there; a claim is bound; anything else only has to exist. */
  predicate Healthy(kind: Kind, a: Attributes) {
    && (kind == Deployment ==> a.replicas.Some? && a.replicas.value > 0 && a.availableReplicas.Some? && a.availableReplicas.value >= a.replicas.value)
    && (kind in {StatefulSet, DaemonSet} ==> a.replicas.Some? && a.replicas.value > 0 && a.readyReplicas.Some? && a.readyReplicas.value >= a.replicas.value)
    && (kind == PersistentVolumeClaim ==> a.phase == Some("Bound"))
  }

  lemma HealthMeans(kind: Kind, a: Attributes)
    ensures CurrentlyHealthy(kind, a) <==> Healthy(kind, a)
  {
  }

  /** An edge is FAILED if an end is FAILED or MISSING, WARNING if an end is, SUCCEEDED otherwise; the first end is looked at first. */
  lemma EdgeStatusMeans(edge: Edge, nodes: seq<GraphNode>)
    ensures var status, from, to := EdgeStatus(edge, nodes), StatusOf(nodes, edge.from), StatusOf(nodes, edge.to);
            && (status == Failed <==> from in {Some(Failed), Some(Missing)} || (from != Some(Warned) && to in {Some(Failed), Some(Missing)}))
            && (status == Warned <==> from == Some(Warned) || (from !in {Some(Failed), Some(Missing)} && to == Some(Warned)))
            && (status == Succeeded <==> from !in {Some(Failed), Some(Missing), Some(Warned)} && to !in {Some(Failed), Some(Missing), Some(Warned)})
  {
  }

  // ---------------------------------------------------------------- observing again

  lemma {:induction false} JudgingChangesNothing(changes: seq<Change>, first: GraphNode, actual: GraphNode)
    ensures Unapplied(Judged(changes, first), actual) == Unapplied(changes, actual)
  {
    if changes != [] {
      var n := |changes| - 1;
      JudgingChangesNothing(changes[..n], first, actual);
      assert Judged(changes, first)[..n] == Judged(changes[..n], first);
    }
  }

  lemma MergedDriftsAlike(node: GraphNode, observed: seq<GraphNode>, run: RunStatus)
    ensures DriftOf(MergedNode(node, observed, run), observed, run) == DriftOf(node, observed, run)
  {
    hide Unapplied, Observed, MergeAttributes, FoundStatus;
    match Observed(observed, IdentityOf(node))
    case None =>
    case Some(actual) => JudgingChangesNothing(node.changes, actual, actual);
  }

  lemma {:induction false} MergedTotalAlike(expected: seq<GraphNode>, observed: seq<GraphNode>, run: RunStatus)
    ensures TotalDrift(MergedNodes(expected, observed, run), observed, run) == TotalDrift(expected, observed, run)
  {
    hide MergedNode, DriftOf;
    if expected != [] {
      var n := |expected| - 1;
      MergedTotalAlike(expected[..n], observed, run);
      MergedDriftsAlike(expected[n], observed, run);
      assert MergedNodes(expected, observed, run)[..n] == MergedNodes(expected[..n], observed, run);
    }
  }

  lemma {:induction false} TotalDriftAdds(a: seq<GraphNode>, b: seq<GraphNode>, observed: seq<GraphNode>, run: RunStatus)
    ensures TotalDrift(a + b, observed, run) == TotalDrift(a, observed, run) + TotalDrift(b, observed, run)
  {
    hide DriftOf;
    if b == [] {
      assert a + b == a;
    } else {
      var n := |b| - 1;
      TotalDriftAdds(a, b[..n], observed, run);
      assert (a + b)[..|a + b| - 1] == a + b[..n];
    }
  }

  lemma ExtraKeepsIdentity(node: GraphNode)
    ensures IdentityOf(ExtraNode(node)) == IdentityOf(node) && ExtraNode(node).changes == node.changes
  {
  }

  lemma ExtrasDoNotDrift(observed: seq<GraphNode>, planned: set<Identity>, run: RunStatus)
    requires forall node :: node in observed ==> node.changes == []
    ensures TotalDrift(Extras(observed, planned), observed, run) == 0
  {
    hide Observed, IsHelper, IsGenerated, Extras, TotalDrift;
    NoDriftMeans(Extras(observed, planned), observed, run);
    forall out | out in Extras(observed, planned)
      ensures DriftOf(out, observed, run) == 0
    {
      ExtrasAre(observed, planned, out);
      var node :| node in observed && out == ExtraNode(node);
      MembersAreObserved(observed, node);
      ExtraKeepsIdentity(node);
    }
  }

  /**
   Until a run is terminal, each observation is merged into the previous result
   (internal/migration/evidence_service.go:75-87). Observing the same target a second time therefore no
   longer counts the unplanned resources: they have become expected.
   */
  lemma ObservingAgainForgetsUnplanned(expected: seq<GraphNode>, observed: seq<GraphNode>, run: RunStatus)
    requires forall node :: node in observed ==> node.changes == []
    ensures Drifted(AllNodes(expected, observed, run), observed, run)
            == Drifted(expected, observed, run) - |UnplannedNodes(observed, Identities(expected))|
  {
    hide IsHelper, IsGenerated, Identities, MergedNodes, Extras;
    var merged, extras := MergedNodes(expected, observed, run), Extras(observed, Identities(expected));
    var nodes := merged + extras;
    TotalDriftAdds(merged, extras, observed, run);
    MergedTotalAlike(expected, observed, run);
    ExtrasDoNotDrift(observed, Identities(expected), run);
    UnplannedCounts(observed, Identities(expected));
    NothingIsLost(expected, observed, run);
    NoneUnplannedMeans(observed, Identities(nodes));
  }

  // ---------------------------------------------------------------- whose replicas

  /**
   What resourceSummary and volumeSummary can have read
   (internal/adapter/kubernetes/inventory.go:241-249, 446-456): the number of replicas is
   always set where the kind has one, a DaemonSet has none of the three counts.
   */
  predicate Inventoried(kind: Kind, a: Attributes) {
    match kind
    case Deployment => a.replicas.Some? && NoneNegative(a)
    case StatefulSet => a.replicas.Some? && NoneNegative(a)
    case DaemonSet => a.replicas.None? && a.readyReplicas.None? && a.availableReplicas.None?
    case PersistentVolumeClaim => a.phase.Some?
    case _ => true
  }

  predicate NoneNegative(a: Attributes) { Or(a.replicas, 0) >= 0 && Or(a.readyReplicas, 0) >= 0 && Or(a.availableReplicas, 0) >= 0 }

  /** What the target reports settles the verdict, whatever attributes the source had. */
  predicate Decisive(kind: Kind, actual: Attributes) {
    match kind
    case Deployment => CountsDecide(actual.replicas, actual.availableReplicas)
    case StatefulSet => CountsDecide(actual.replicas, actual.readyReplicas)
    case PersistentVolumeClaim => actual.phase.Some?
    case _ => true
  }

  predicate CountsDecide(desired: Option<int>, running: Option<int>) {
    || (desired.Some? && running.Some?)
    || (desired.Some? && desired.value <= 0)
    || (running.Some? && running.value <= 0)
  }

  const ALL_UP := NO_ATTRIBUTES.(replicas := Some(1), readyReplicas := Some(1), availableReplicas := Some(1))

  /**
   A planned node starts with the attributes of its source, and merging keeps those the
   target does not report. The merged verdict is the target's own for every source the
   inventory can list exactly when the target reports enough.
   */
  lemma VerdictIsTheTargetsIffDecisive(kind: Kind, actual: Attributes)
    ensures (forall planned :: Inventoried(kind, planned) ==> CurrentlyHealthy(kind, MergeAttributes(planned, actual)) == CurrentlyHealthy(kind, actual))
            <==> Decisive(kind, actual)
  {
    if !Decisive(kind, actual) {
      var planned := NO_ATTRIBUTES.(phase := Some("Bound"));
      if kind.Deployment? {
        planned := CounterSource(actual.replicas, actual.availableReplicas);
      } else if kind.StatefulSet? {
        planned := CounterSource(actual.replicas, actual.readyReplicas);
      }
      assert Inventoried(kind, planned) && CurrentlyHealthy(kind, MergeAttributes(planned, actual)) != CurrentlyHealthy(kind, actual);
    }
  }

  /** A source whose counts fill up what the target leaves out. */
  function CounterSource(desired: Option<int>, running: Option<int>): Attributes {
    var count := if desired.Some? then desired.value else if running.Some? then running.value else 1;
    ALL_UP.(replicas := Some(count), readyReplicas := Some(count), availableReplicas := Some(count))
  }

  /** In a failed or cancelled run, a matched node without changes is shown by the target's own state, whatever its source was, exactly when the target reports enough. */
  lemma FailedRunShowsTheTargetIffDecisive(node: GraphNode, observed: seq<GraphNode>, actual: GraphNode, run: RunStatus)
    requires run.RunFailed? || run.Cancelled?
    requires node.changes == [] && Observed(observed, IdentityOf(node)) == Some(actual)
    ensures (forall planned :: Inventoried(node.kind, planned) ==>
               MergedNode(node.(attributes := planned), observed, run).status ==
               if CurrentlyHealthy(node.kind, actual.attributes) then Succeeded else Warned)
            <==> Decisive(node.kind, actual.attributes)
  {
    hide Decisive, CurrentlyHealthy, MergeAttributes, MergedNode, Observed, Inventoried;
    VerdictIsTheTargetsIffDecisive(node.kind, actual.attributes);
    forall planned
      ensures MergedNode(node.(attributes := planned), observed, run).status ==
              if CurrentlyHealthy(node.kind, MergeAttributes(planned, actual.attributes)) then Succeeded else Warned
    {
      StatusInFailedRun(node.(attributes := planned), observed, actual, run);
    }
  }

  lemma StatusInFailedRun(node: GraphNode, observed: seq<GraphNode>, actual: GraphNode, run: RunStatus)
    requires run.RunFailed? || run.Cancelled?
    requires node.changes == [] && Observed(observed, IdentityOf(node)) == Some(actual)
    ensures MergedNode(node, observed, run).status ==
            if CurrentlyHealthy(node.kind, MergeAttributes(node.attributes, actual.attributes)) then Succeeded else Warned
  {
    hide CurrentlyHealthy, MergeAttributes, Observed;
  }

  /** No inventoried DaemonSet is ever shown ready: neither side has the counts it is judged by. */
  lemma DaemonSetsAreNeverReady(node: GraphNode, observed: seq<GraphNode>, actual: GraphNode, run: RunStatus)
    requires run.RunFailed? || run.Cancelled?
    requires node.kind.DaemonSet? && Observed(observed, IdentityOf(node)) == Some(actual)
    requires Inventoried(node.kind, node.attributes) && Inventoried(node.kind, actual.attributes)
    ensures MergedNode(node, observed, run).status == if Unapplied(node.changes, actual) > 0 then Failed else Warned
  {
    hide Observed, Unapplied, Judged;
    assert !CurrentlyHealthy(node.kind, MergeAttributes(node.attributes, actual.attributes));
  }

  /** A Deployment that is down on the target, shown as SUCCEEDED in a failed run because its source had one replica available. */
  lemma DownTargetCanLookHealthy() returns (node: GraphNode, actual: GraphNode)
    ensures Inventoried(node.kind, node.attributes) && Inventoried(actual.kind, actual.attributes) && !CurrentlyHealthy(actual.kind, actual.attributes)
    ensures IdentityOf(node) == IdentityOf(actual) && MergedNode(node, [actual], RunFailed).status == Succeeded
  {
    var id := NodeId(true, "apps/v1", Deployment, "shop", "web");
    node := GraphNode(id, "apps/v1", Deployment, "shop", "web", true, Planned, ALL_UP, []);
    actual := node.(status := Created, attributes := NO_ATTRIBUTES.(replicas := Some(1)));
    assert Observed([actual], IdentityOf(node)) == Some(actual);
  }
}
