/**
 Which dependencies of the target survive the comparison (mergeObservedTopology,
 internal/migration/evidence_service.go:709-722). An edge names its ends by ID, and an ID
 holds the API version: planned nodes carry the predicted version (targetAPIVersion,
 933-941), observed ones the version that is found.
 */
module ObservedEdges {
  import opened Wrappers
  import opened Manifests
  import opened Topology
  import opened EvidencePrediction
  import opened TopologyMerge
  import opened PlannedTopology
  import opened InventoryGraph
  import opened FaithfulTarget

  // ---------------------------------------------------------------- which IDs are planned

  /** The prediction leaves the version alone. */
  predicate Predictable(id: NodeId) { TargetApiVersion(id.apiVersion, id.kind) == id.apiVersion }

  /** The prediction knows the old versions of Ingress, Deployment, StatefulSet and DaemonSet, and no others. */
  lemma PredictableMeans(id: NodeId)
    ensures Predictable(id) <==>
            && !(id.kind == Ingress && id.apiVersion in {"extensions/v1beta1", "networking.k8s.io/v1beta1"})
            && !(id.kind in {Deployment, StatefulSet, DaemonSet} && "apps/" <= id.apiVersion && id.apiVersion != "apps/v1")
  {
    assert "networking.k8s.io/v1"[0] != "extensions/v1beta1"[0] && |"networking.k8s.io/v1"| != |"networking.k8s.io/v1beta1"|;
  }

  lemma PredictionIsFinal(version: string, kind: Kind)
    ensures TargetApiVersion(TargetApiVersion(version, kind), kind) == TargetApiVersion(version, kind)
  {
  }

  /** The planned version of every ID is final. */
  lemma PlannedIsPredictable(nodes: seq<GraphNode>, profile: Profile, id: NodeId)
    requires id in Ids(PlannedNodes(nodes, profile))
    ensures Predictable(id)
  {
    hide TargetApiVersion, PlannedAttributes, PlannedChanges;
    var i :| 0 <= i < |nodes| && PlannedNode(nodes[i], profile).id == id;
    PredictionIsFinal(nodes[i].apiVersion, nodes[i].kind);
  }

  /** Any order of the graphs leads to the same IDs. */
  lemma IdsOfMerge(planned: seq<GraphNode>, observed: seq<GraphNode>, p: seq<GraphNode>, q: seq<GraphNode>, run: RunStatus, id: NodeId)
    requires Reordered(planned, p) && Reordered(observed, q)
    ensures id in Ids(AllNodes(planned, observed, run)) <==>
            id in Ids(p) || exists node :: node in q && node.id == id && !IsHelper(node) && IdentityOf(node) !in Identities(p)
  {
    hide AllNodes, IsHelper, Identities;
    SameMembers(planned, p);
    SameMembers(observed, q);
    IdsAfterwards(planned, observed, run, id);
  }

  lemma PlannedIdIs(node: GraphNode, profile: Profile)
    requires node.kind != STORAGE_CLASS
    ensures PlannedNode(node, profile).id
            == NodeId(true, TargetApiVersion(node.apiVersion, node.kind), node.kind, MappedValue(node.namespace, profile.namespaces), node.name)
  {
    hide PlannedAttributes, PlannedChanges, MappedValue, TargetApiVersion;
  }

  lemma SamePlannedId(a: GraphNode, b: GraphNode, profile: Profile)
    requires SelfNamed(a) && SelfNamed(b) && a.id == b.id
    ensures PlannedNode(a, profile).id == PlannedNode(b, profile).id
  {
    hide PlannedAttributes, PlannedChanges, MappedValue, TargetApiVersion;
  }

  /** Every dependency of the source is planned under the ID planned for its own bare node. */
  lemma DependencyIdIsPlanned(objects: seq<Object>, profile: Profile, o: Object, r: Reference)
    requires o in objects && r in Dependencies(o)
    ensures PlannedNode(ReferenceNode(false, o.namespace, r), profile).id in Ids(PlannedNodes(SourceGraph(objects), profile))
  {
    hide GraphNodes, Nodes, AllReferenceNodes, Dependencies, PlannedNode, PlannedNodes;
    var node := ReferenceNode(false, o.namespace, r);
    ReferenceNodesAre(false, objects, node);
    NodeIsThere(false, objects, node);
    var other :| other in GraphNodes(false, objects) && other.id == node.id;
    GraphNodesAre(false, objects, other);
    SamePlannedId(node, other, profile);
    PlannedIdentities(SourceGraph(objects), profile, other);
  }

  // ---------------------------------------------------------------- which edges survive

  /** What a transformed object depends on is in the merged graph exactly if its version is the predicted one. */
  lemma ReferenceSurvivesIff(objects: seq<Object>, profile: Profile, run: RunStatus, planned: seq<GraphNode>, observed: seq<GraphNode>, o: Object, r: Reference)
    requires Migratable(objects, profile) && o in objects && r in Named(o)
    requires Reordered(planned, PlannedNodes(SourceGraph(objects), profile)) && Reordered(observed, TargetGraph(objects, profile))
    ensures var id := ReferenceNode(true, Transformed(o, profile).namespace, Moved(r, profile)).id;
            id in Ids(AllNodes(planned, observed, run)) <==> Predictable(id)
  {
    hide Migratable, Transformed, TargetGraph, SourceGraph, Named, PlannedNode, PlannedNodes, AllNodes, Ids, Identities, IsHelper, TargetApiVersion, MappedValue, Reordered, Moved;
    var source, id := ReferenceNode(false, o.namespace, r), ReferenceNode(true, Transformed(o, profile).namespace, Moved(r, profile)).id;
    assert r in Dependencies(o);
    DependencyKind(objects, profile, o, r);
    KindStays(r, profile);
    NamedIsThere(objects, profile, o, r);
    PlannedIdIs(source, profile);
    WhereDependenciesGo(o, profile, r);
    DependencyIdIsPlanned(objects, profile, o, r);
    DependencyIsAmongPlanned(objects, profile, o, r);
    IdsOfMerge(planned, observed, PlannedNodes(SourceGraph(objects), profile), TargetGraph(objects, profile), run, id);
    if id in Ids(PlannedNodes(SourceGraph(objects), profile)) {
      PlannedIsPredictable(SourceGraph(objects), profile, id);
    }
    TargetNodesAreNamed(objects, profile);
  }

  lemma ObjectIdIsPlanned(objects: seq<Object>, profile: Profile, o: Object)
    requires Migratable(objects, profile) && o in objects
    ensures Predictable(TargetNode(o, profile).id) && TargetNode(o, profile).id in Ids(PlannedNodes(SourceGraph(objects), profile))
  {
    hide Migratable, Transformed, SourceGraph, PlannedNode, PlannedNodes, ObjectAttributes, TargetApiVersion, ConvertedVersion, MappedValue, Listed, WellFormed, OrderFree, MountsWellFormed, DependenciesWellFormed;
    Parts(objects, profile, o);
    ObjectMoves(o, profile);
    ListedVersionsStay(o);
    PlannedObjectIsThere(objects, profile, o);
  }

  lemma ClassIdIsPlanned(objects: seq<Object>, profile: Profile, o: Object)
    requires Migratable(objects, profile) && o in objects && o.kind.PersistentVolumeClaim? && Or(Transformed(o, profile).storageClass, "") != ""
    ensures var id := ClassNode(true, Or(Transformed(o, profile).storageClass, "")).id;
            Predictable(id) && id in Ids(PlannedNodes(SourceGraph(objects), profile))
  {
    hide Migratable, Transformed, GraphNodes, Nodes, Classes, PlannedNode, PlannedNodes, MappedValue, WellFormed, OrderFree, MountsWellFormed, Listed, DependenciesWellFormed, NoEmptyRules;
    Parts(objects, profile, o);
    ClassMoves(o, profile);
    var className := Or(o.storageClass, "");
    ClassesAre(objects, className);
    NodesAre(false, objects, ClassNode(false, className));
    NodeIsThere(false, objects, ClassNode(false, className));
    PlannedIdentities(SourceGraph(objects), profile, ClassNode(false, className));
    PlannedClassId(className, profile);
  }

  lemma PlannedClassId(className: string, profile: Profile)
    requires className != "" && NoEmptyRules(profile.namespaces)
    ensures PlannedNode(ClassNode(false, className), profile).id == ClassNode(true, MappedValue(className, profile.storage)).id
  {
    hide MappedValue;
    EmptyIsUnmapped(profile.namespaces);
  }

  /**
   For a target that is exactly the transform of the source: a dependency of the target
   is in the merged graph exactly if the prediction leaves the API versions of both its
   ends alone. The listed end always passes; a reference with an old version does not.
   */
  lemma EdgeSurvivesIffPredictable(objects: seq<Object>, profile: Profile, run: RunStatus, planned: seq<GraphNode>, observed: seq<GraphNode>, edge: Edge)
    requires Migratable(objects, profile)
    requires Reordered(planned, PlannedNodes(SourceGraph(objects), profile)) && Reordered(observed, TargetGraph(objects, profile))
    ensures var nodes, edges := AllNodes(planned, observed, run), GraphEdges(true, TransformedAll(objects, profile));
            edge in edges ==>
              && Predictable(edge.from)
              && (edge.(status := EdgeStatus(edge, nodes)) in KeptEdges(edges, nodes) <==> Predictable(edge.from) && Predictable(edge.to))
  {
    hide Migratable, Transformed, TransformedAll, TargetGraph, SourceGraph, GraphEdges, AllNodes, Ids, PlannedNodes, KeptEdges, EdgeStatus, Predictable, Reordered, Named;
    var nodes, edges := AllNodes(planned, observed, run), GraphEdges(true, TransformedAll(objects, profile));
    if edge in edges {
      EdgesAre(true, TransformedAll(objects, profile), edge);
      var t :| t in TransformedAll(objects, profile) && edge in EdgesOf(true, t);
      TransformedAllAre(objects, profile, t);
      var o :| o in objects && t == Transformed(o, profile);
      EndsSurvive(objects, profile, run, planned, observed, o, edge);
      EdgesStayInside(edges, nodes);
    }
  }

  lemma EndsSurvive(objects: seq<Object>, profile: Profile, run: RunStatus, planned: seq<GraphNode>, observed: seq<GraphNode>, o: Object, edge: Edge)
    requires Migratable(objects, profile) && o in objects && edge in EdgesOf(true, Transformed(o, profile))
    requires Reordered(planned, PlannedNodes(SourceGraph(objects), profile)) && Reordered(observed, TargetGraph(objects, profile))
    ensures Predictable(edge.from) && edge.from in Ids(AllNodes(planned, observed, run))
    ensures edge.to in Ids(AllNodes(planned, observed, run)) <==> Predictable(edge.to)
  {
    hide Migratable, Transformed, TargetGraph, SourceGraph, AllNodes, Ids, PlannedNodes, Predictable, Reordered, Named, Dependencies, ObjectNode, ReferenceNode, ClassNode, Identities, IsHelper, NoEmptyRules, Moved, DependenciesWellFormed, WellFormed, Covered, Listed, OrderFree, MountsWellFormed;
    var t := Transformed(o, profile);
    var p, q := PlannedNodes(SourceGraph(objects), profile), TargetGraph(objects, profile);
    Parts(objects, profile, o);
    ObjectMoves(o, profile);
    ObjectIdIsPlanned(objects, profile, o);
    assert edge.from == TargetNode(o, profile).id;
    IdsOfMerge(planned, observed, p, q, run, edge.from);
    DependenciesMove(o, profile);
    if r :| r in Dependencies(t) && edge == ReferenceEdge(true, t, r) {
      var i :| 0 <= i < |Named(o)| && Moved(Named(o)[i], profile) == r;
      ReferenceSurvivesIff(objects, profile, run, planned, observed, o, Named(o)[i]);
    } else {
      ClassIdIsPlanned(objects, profile, o);
      IdsOfMerge(planned, observed, p, q, run, edge.to);
    }
  }

  const NOTHING_MAPPED := Profile([], [], [], [], [], [])

  const OLD_SCALED := Reference("apps/v1beta2", Deployment, None, "web", "SCALES", true)

  const OLD_SCALER := SCALER.(references := [OLD_SCALED])

  lemma OldScalerFits()
    ensures Fits(OLD_SCALER, NOTHING_MAPPED) && Named(OLD_SCALER) == [OLD_SCALED] && Dependencies(OLD_SCALER) == [OLD_SCALED]
  {
    IsNoSpecialKind("HorizontalPodAutoscaler");
  }

  lemma NothingIsUsable()
    ensures Usable(NOTHING_MAPPED)
  {
  }

  lemma OldScalerIsMigratable()
    ensures Migratable([WEB, OLD_SCALER], NOTHING_MAPPED)
  {
    hide Covered, OrderFree, MountsWellFormed, Listed, DependenciesWellFormed, Usable;
    WebFits();
    OldScalerFits();
    NothingIsUsable();
    assert forall o :: o in [WEB, OLD_SCALER] ==> o == WEB || o == OLD_SCALER;
  }

  /**
   An autoscaler keeps the version its author wrote for the workload it scales; with an
   old one its edge is in the observed target and in no merged graph.
   */
  lemma AutoscalerEdgeIsLost(run: RunStatus) returns (edge: Edge)
    ensures var objects := [WEB, OLD_SCALER];
            var edges, nodes := GraphEdges(true, TransformedAll(objects, NOTHING_MAPPED)),
                                AllNodes(PlannedNodes(SourceGraph(objects), NOTHING_MAPPED), ById(TargetGraph(objects, NOTHING_MAPPED)), run);
            && Migratable(objects, NOTHING_MAPPED) && edge in edges
            && edge.(status := EdgeStatus(edge, nodes)) !in KeptEdges(edges, nodes)
  {
    hide Migratable, Transformed, TransformedAll, TargetGraph, SourceGraph, PlannedNodes, AllNodes, KeptEdges, GraphEdges, EdgeStatus, Dependencies, Moved, ById;
    var objects := [WEB, OLD_SCALER];
    OldScalerIsMigratable();
    var t := Transformed(OLD_SCALER, NOTHING_MAPPED);
    assert OLD_SCALER in objects;
    ScalerDependsOn();
    edge := ReferenceEdge(true, t, Moved(OLD_SCALED, NOTHING_MAPPED));
    assert EdgesOf(true, t)[0] == edge;
    TransformedAllAre(objects, NOTHING_MAPPED, t);
    EdgesAre(true, TransformedAll(objects, NOTHING_MAPPED), edge);
    KindStays(OLD_SCALED, NOTHING_MAPPED);
    OldVersionIsNotFinal();
    ByIdSorts(TargetGraph(objects, NOTHING_MAPPED));
    EdgeSurvivesIffPredictable(objects, NOTHING_MAPPED, run, PlannedNodes(SourceGraph(objects), NOTHING_MAPPED), ById(TargetGraph(objects, NOTHING_MAPPED)), edge);
  }

  lemma ScalerDependsOn()
    ensures Dependencies(Transformed(OLD_SCALER, NOTHING_MAPPED)) == [Moved(OLD_SCALED, NOTHING_MAPPED)]
  {
    hide Transformed, Covered, OrderFree, MountsWellFormed, Listed, Moved, DependenciesWellFormed;
    OldScalerIsMigratable();
    assert OLD_SCALER in [WEB, OLD_SCALER];
    Parts([WEB, OLD_SCALER], NOTHING_MAPPED, OLD_SCALER);
    DependenciesMove(OLD_SCALER, NOTHING_MAPPED);
    OldScalerFits();
  }

  lemma OldVersionIsNotFinal()
    ensures TargetApiVersion("apps/v1beta2", Deployment) != "apps/v1beta2"
  {
    assert "apps/" <= "apps/v1beta2" && |"apps/v1beta2"| != |"apps/v1"|;
  }
}
