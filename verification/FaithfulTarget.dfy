/**
 What the comparison reports of a target that is exactly the transform of the source
 (observeTarget and mergeObservedTopology, internal/migration/evidence_service.go:322-350,
 650-724): when it reports no drift, and which faithful targets it reports as drifted.
 */
module FaithfulTarget {
  import opened Wrappers
  import opened ImagePrefixes
  import opened Manifests
  import opened Topology
  import opened EvidencePrediction
  import opened TopologyMerge
  import opened PlannedTopology
  import opened InventoryGraph

  // ---------------------------------------------------------------- the node that is observed

  predicate SameName(a: NodeId, b: NodeId) { a.kind == b.kind && a.namespace == b.namespace && a.name == b.name }

  /** Of the IDs with its kind, namespace and name it comes last in the order of a graph. */
  ghost predicate IsLast(ids: set<NodeId>, id: NodeId) {
    id in ids && forall other :: other in ids && SameName(other, id) ==> other == id || Less(IdText(other), IdText(id))
  }

  lemma TextsDiffer(a: NodeId, b: NodeId)
    requires SameName(a, b) && a.isTarget == b.isTarget && IdText(a) == IdText(b)
    ensures a == b
  {
    var head := if a.isTarget then "TARGET|" else "SOURCE|";
    assert a.apiVersion + Suffix(a) == IdText(a)[|head|..] == IdText(b)[|head|..] == b.apiVersion + Suffix(b);
    assert a.apiVersion == (a.apiVersion + Suffix(a))[..|a.apiVersion|];
    assert b.apiVersion == (b.apiVersion + Suffix(b))[..|b.apiVersion|];
  }

  lemma OneIsLast(ids: set<NodeId>, a: NodeId, b: NodeId)
    requires IsLast(ids, a) && IsLast(ids, b) && SameName(a, b)
    ensures a == b
  {
    hide Less, IdText;
    if a != b {
      LessIsStrict(IdText(a), IdText(b));
    }
  }

  lemma {:induction false} LastOfIdentity(nodes: seq<GraphNode>, key: Identity) returns (k: nat)
    requires Observed(nodes, key).Some?
    ensures k < |nodes| && Observed(nodes, key) == Some(nodes[k]) && IdentityOf(nodes[k]) == key
    ensures forall j :: k < j < |nodes| ==> IdentityOf(nodes[j]) != key
  {
    var n := |nodes| - 1;
    if IdentityOf(nodes[n]) == key {
      k := n;
    } else {
      k := LastOfIdentity(nodes[..n], key);
    }
  }

  /** In a sorted graph the node that is found is the one whose ID comes last. */
  lemma ObservedIsLast(sorted: seq<GraphNode>, nodes: seq<GraphNode>, key: Identity)
    requires InOrder(sorted) && Reordered(sorted, nodes) && Observed(sorted, key).Some?
    requires forall node :: node in nodes ==> SelfNamed(node) && node.id.isTarget
    ensures var node := Observed(sorted, key).value; node in nodes && IdentityOf(node) == key && IsLast(Ids(nodes), node.id)
  {
    hide Less, IdText, Observed;
    var k := LastOfIdentity(sorted, key);
    var last := sorted[k];
    assert last in multiset(sorted);
    forall other | other in nodes && SameName(other.id, last.id)
      ensures other.id == last.id || Less(IdText(other.id), IdText(last.id))
    {
      assert other in multiset(sorted);
      var j :| 0 <= j < |sorted| && sorted[j] == other;
      LessOrMore(IdText(other.id), IdText(last.id));
      if IdText(other.id) == IdText(last.id) {
        TextsDiffer(other.id, last.id);
      }
    }
  }

  // ---------------------------------------------------------------- what a bare node shows

  /** A node without attributes shows dropped labels, and what its name and place say. */
  predicate ShowsOnBare(change: Change) {
    match change.changeType
    case NamespaceChange => true
    case ApiVersionChange => true
    case NodeLabelChange => change.target == DROPPED
    case StorageClassChange => change.target == ""
    case IngressClassChange => change.target == ""
    case ImageChange => false
    case NfsChange => false
  }

  lemma BareShowsIff(change: Change, actual: GraphNode)
    requires actual.attributes == NO_ATTRIBUTES && actual.kind != STORAGE_CLASS
    requires change.changeType.NamespaceChange? ==> change.target == actual.namespace
    ensures AppearsApplied(change, actual) <==> ShowsOnBare(change)
  {
  }

  /** A planned namespace change leads to where the planned node is. */
  lemma NamespaceChangesLeadThere(node: GraphNode, profile: Profile, change: Change)
    requires change in PlannedChanges(node, profile) && change.changeType.NamespaceChange?
    ensures change.target == PlannedNode(node, profile).namespace
  {
    hide ImageChanges, LabelChanges, NfsChanges, MappedValue;
    var images, exports := Or(node.attributes.images, []), Or(node.attributes.nfsSources, []);
    if change in ImageChanges(images, profile.registries) {
      AnImageChange(images, profile.registries, change);
    } else if change in NfsChanges(exports, profile.nfs) {
      AnNfsChange(exports, profile.nfs, change);
    } else if change in LabelChanges(Or(node.attributes.nodeSelectors, map[]), profile.nodeLabels) {
      var _ := ALabelChange(Or(node.attributes.nodeSelectors, map[]), profile.nodeLabels, change);
    }
  }

  // ---------------------------------------------------------------- the condition

  ghost function TargetGraph(objects: seq<Object>, profile: Profile): seq<GraphNode> { GraphNodes(true, TransformedAll(objects, profile)) }

  function SourceGraph(objects: seq<Object>): seq<GraphNode> { GraphNodes(false, objects) }

  function PlannedFor(o: Object, profile: Profile): seq<Change> { PlannedChanges(ObjectNode(false, o), profile) }

  ghost function TargetNode(o: Object, profile: Profile): GraphNode { ObjectNode(true, Transformed(o, profile)) }

  ghost predicate IsOf(id: NodeId, o: Object, profile: Profile) { TargetNode(o, profile).id == id }

  /**
   What is planned for an object can be seen on the node with this ID: another listed
   object that shows the same, or a bare node if no listed object has it.
   */
  ghost predicate SeenOn(objects: seq<Object>, profile: Profile, o: Object, id: NodeId) {
    if exists u :: u in objects && IsOf(id, u, profile)
    then forall u, change :: u in objects && IsOf(id, u, profile) && change in PlannedFor(o, profile) ==> AppearsApplied(change, TargetNode(u, profile))
    else forall change :: change in PlannedFor(o, profile) ==> ShowsOnBare(change)
  }

  /** It can be seen on whichever node of the object's kind and name comes last. */
  ghost predicate Shown(objects: seq<Object>, profile: Profile, o: Object) {
    forall id :: IsLast(Ids(TargetGraph(objects, profile)), id) && SameName(id, TargetNode(o, profile).id) ==> SeenOn(objects, profile, o, id)
  }

  ghost predicate SamePlace(a: Object, r: Reference, b: Object, s: Reference, profile: Profile) {
    r.kind == s.kind && r.name == s.name
    && MappedValue(Or(r.namespace, a.namespace), profile.namespaces) == MappedValue(Or(s.namespace, b.namespace), profile.namespaces)
  }

  /** An owner is still in the graph of the target if it is listed, or something else depends on it. */
  ghost predicate OwnerStays(objects: seq<Object>, profile: Profile, o: Object, owner: Reference) {
    || (exists u :: u in objects && u.kind == owner.kind && u.name == owner.name)
    || (exists u, r :: u in objects && r in Named(u) && SamePlace(u, r, o, owner, profile))
  }

  // ---------------------------------------------------------------- listed objects

  lemma TargetNodesAreNamed(objects: seq<Object>, profile: Profile)
    ensures forall node :: node in TargetGraph(objects, profile) ==> SelfNamed(node) && node.id.isTarget
  {
    hide GraphNodes, TransformedAll, SelfNamed;
    forall node | node in TargetGraph(objects, profile)
      ensures SelfNamed(node) && node.id.isTarget
    {
      GraphNodesAre(true, TransformedAll(objects, profile), node);
    }
  }

  /** A listed object is in the graph of the target, and its planned node has its identity. */
  lemma ObjectIsThere(objects: seq<Object>, profile: Profile, o: Object)
    requires Migratable(objects, profile) && o in objects
    ensures TargetNode(o, profile) in TargetGraph(objects, profile)
    ensures IdentityOf(PlannedNode(ObjectNode(false, o), profile)) == IdentityOf(TargetNode(o, profile))
    ensures PlannedNode(ObjectNode(false, o), profile).changes == PlannedFor(o, profile)
    ensures forall change :: change in PlannedFor(o, profile) ==> AppearsApplied(change, TargetNode(o, profile))
    ensures TargetNode(o, profile).kind == o.kind != STORAGE_CLASS
  {
    hide Migratable, Transformed, TransformedAll, GraphNodes, Nodes, ObjectAttributes, WellFormed, OrderFree, MountsWellFormed, Listed, DependenciesWellFormed, PlannedChanges, AppearsApplied;
    Parts(objects, profile, o);
    TransformedAllAre(objects, profile, Transformed(o, profile));
    NodesAre(true, TransformedAll(objects, profile), TargetNode(o, profile));
    NodeIsThere(true, TransformedAll(objects, profile), TargetNode(o, profile));
    PredictionAgreesWithTransform(o, profile);
    ObjectMoves(o, profile);
  }

  /** The node of a target ID: that of each listed object with it, otherwise bare. */
  lemma NodeOfId(objects: seq<Object>, profile: Profile, node: GraphNode)
    requires Migratable(objects, profile) && node in TargetGraph(objects, profile) && node.kind != STORAGE_CLASS
    ensures forall u :: u in objects && IsOf(node.id, u, profile) ==> node == TargetNode(u, profile)
    ensures !(exists u :: u in objects && IsOf(node.id, u, profile)) ==> node.attributes == NO_ATTRIBUTES
  {
    hide Migratable, Transformed, TransformedAll, GraphNodes, Nodes, Classes, ObjectNode, Dependencies;
    var all := TransformedAll(objects, profile);
    TransformKeepsItApart(objects, profile);
    OneNodePerId(true, all);
    forall u | u in objects && IsOf(node.id, u, profile)
      ensures node == TargetNode(u, profile)
    {
      ObjectIsThere(objects, profile, u);
    }
    GraphNodesAre(true, all, node);
    if t :| t in all && node == ObjectNode(true, t) {
      TransformedAllAre(objects, profile, t);
      var u :| u in objects && t == Transformed(u, profile);
      assert IsOf(node.id, u, profile);
    }
  }

  /** What is planned for an object is applied on the node that is found exactly if it can be seen there. */
  lemma SeenIffApplied(objects: seq<Object>, profile: Profile, o: Object, actual: GraphNode)
    requires Migratable(objects, profile) && o in objects
    requires actual in TargetGraph(objects, profile) && IdentityOf(actual) == IdentityOf(TargetNode(o, profile))
    ensures (forall change :: change in PlannedFor(o, profile) ==> AppearsApplied(change, actual)) <==> SeenOn(objects, profile, o, actual.id)
  {
    hide Migratable, TargetGraph, TargetNode, AppearsApplied, ShowsOnBare, PlannedChanges, ObjectNode;
    ObjectIsThere(objects, profile, o);
    NodeOfId(objects, profile, actual);
    if !(exists u :: u in objects && IsOf(actual.id, u, profile)) {
      forall change | change in PlannedFor(o, profile)
        ensures AppearsApplied(change, actual) <==> ShowsOnBare(change)
      {
        if change.changeType.NamespaceChange? {
          NamespaceChangesLeadThere(ObjectNode(false, o), profile, change);
        }
        BareShowsIff(change, actual);
      }
    }
  }

  lemma ObjectDriftsIff(objects: seq<Object>, profile: Profile, o: Object, run: RunStatus, observed: seq<GraphNode>)
    requires Migratable(objects, profile) && o in objects
    requires InOrder(observed) && Reordered(observed, TargetGraph(objects, profile))
    ensures DriftOf(PlannedNode(ObjectNode(false, o), profile), observed, run) == 0 <==> Shown(objects, profile, o)
  {
    hide Migratable, TargetGraph, TargetNode, PlannedNode, PlannedFor, Observed, InOrder, IsLast, SeenOn, Unapplied, ObjectNode, MustExist;
    ObjectIsThere(objects, profile, o);
    var target := TargetNode(o, profile);
    assert target in multiset(observed);
    MembersAreObserved(observed, target);
    TargetNodesAreNamed(objects, profile);
    ObservedIsLast(observed, TargetGraph(objects, profile), IdentityOf(target));
    var actual := Observed(observed, IdentityOf(target)).value;
    SeenIffApplied(objects, profile, o, actual);
    NoneUnappliedIff(PlannedFor(o, profile), actual);
    forall id | IsLast(Ids(TargetGraph(objects, profile)), id) && SameName(id, target.id)
      ensures id == actual.id
    {
      OneIsLast(Ids(TargetGraph(objects, profile)), id, actual.id);
    }
  }

  // ---------------------------------------------------------------- classes

  lemma PlannedClass(className: string, profile: Profile)
    requires NoEmptyRules(profile.namespaces)
    ensures var planned, target := PlannedNode(ClassNode(false, className), profile), MappedValue(className, profile.storage);
            && (className != "" ==> IdentityOf(planned) == Identity(STORAGE_CLASS, "", target))
            && forall change :: change in planned.changes ==> AppearsApplied(change, ClassNode(true, target))
  {
    hide MappedValue, KeyValueMap;
    EmptyIsUnmapped(profile.namespaces);
  }

  lemma MappedClassIsNamed(objects: seq<Object>, profile: Profile, className: string)
    requires Migratable(objects, profile) && className in Classes(objects)
    ensures MappedValue(className, profile.storage) in Classes(TransformedAll(objects, profile))
  {
    hide Transformed, TransformedAll, Migratable, WellFormed, OrderFree, MountsWellFormed, Listed, DependenciesWellFormed, Classes, MappedValue, KeyValueMap, NoEmptyRules;
    ClassesAre(objects, className);
    var o :| o in objects && o.kind.PersistentVolumeClaim? && Or(o.storageClass, "") == className;
    Parts(objects, profile, o);
    ClassMoves(o, profile);
    TransformedAllAre(objects, profile, Transformed(o, profile));
    ClassesAre(TransformedAll(objects, profile), MappedValue(className, profile.storage));
  }

  lemma ClassMoves(o: Object, profile: Profile)
    requires WellFormed(profile) && NoEmptyRules(profile.storage) && o.kind.PersistentVolumeClaim?
    ensures var t := Transformed(o, profile);
            t.kind.PersistentVolumeClaim? && Or(t.storageClass, "") == MappedValue(Or(o.storageClass, ""), profile.storage)
            && (Or(t.storageClass, "") == "" <==> Or(o.storageClass, "") == "")
  {
    hide Transformed, KeyValueMap, MappedValue, NoEmptyRules, Lookup;
    TransformedFields(o, profile);
    FirstIsLast(profile.storage, Or(o.storageClass, ""));
    LookupIsFilled(profile.storage, Or(o.storageClass, ""));
    LookupIsFilled(profile.storage, "");
  }

  /** Only claims lead to class nodes. */
  lemma ClassNodesAre(objects: seq<Object>, profile: Profile, node: GraphNode)
    requires Migratable(objects, profile) && node in TargetGraph(objects, profile) && node.kind == STORAGE_CLASS
    ensures node == ClassNode(true, node.name)
  {
    hide Migratable, Transformed, TransformedAll, GraphNodes, Nodes, Classes, ObjectAttributes, Dependencies, Named, WellFormed, Listed, DependenciesWellFormed;
    var all := TransformedAll(objects, profile);
    GraphNodesAre(true, all, node);
    forall t | t in all
      ensures Covered(t) && forall r :: r in Dependencies(t) ==> r.kind != STORAGE_CLASS
    {
      TransformedAllAre(objects, profile, t);
      var o :| o in objects && t == Transformed(o, profile);
      Parts(objects, profile, o);
      ObjectMoves(o, profile);
      NoClassAmong(o, profile);
    }
  }

  lemma NoClassAmong(o: Object, profile: Profile)
    requires WellFormed(profile) && NoEmptyRules(profile.namespaces) && DependenciesWellFormed(o)
    ensures forall r :: r in Dependencies(Transformed(o, profile)) ==> r.kind != STORAGE_CLASS
  {
    hide Transformed, Named, WellFormed, NoEmptyRules, MappedField;
    DependenciesMove(o, profile);
    forall r | r in MovedAll(Named(o), profile)
      ensures r.kind != STORAGE_CLASS
    {
      var i :| 0 <= i < |Named(o)| && Moved(Named(o)[i], profile) == r;
      assert Named(o)[i] in Dependencies(o);
    }
  }

  lemma ClassShows(objects: seq<Object>, profile: Profile, className: string, run: RunStatus, observed: seq<GraphNode>)
    requires Migratable(objects, profile) && className in Classes(objects)
    requires InOrder(observed) && Reordered(observed, TargetGraph(objects, profile))
    ensures DriftOf(PlannedNode(ClassNode(false, className), profile), observed, run) == 0
  {
    hide Migratable, TargetGraph, PlannedNode, Classes, Observed, InOrder, IsLast, Unapplied, MappedValue, AppearsApplied, NoEmptyRules, Usable;
    var target := MappedValue(className, profile.storage);
    var node := ClassNode(true, target);
    ClassesAre(objects, className);
    NoEmptyNamespaces(objects, profile);
    PlannedClass(className, profile);
    ClassIsThere(objects, profile, className);
    assert node in multiset(observed);
    MembersAreObserved(observed, node);
    TargetNodesAreNamed(objects, profile);
    ObservedIsLast(observed, TargetGraph(objects, profile), IdentityOf(node));
    ClassNodesAre(objects, profile, Observed(observed, IdentityOf(node)).value);
    NoneUnappliedIff(PlannedNode(ClassNode(false, className), profile).changes, node);
  }

  lemma NoEmptyNamespaces(objects: seq<Object>, profile: Profile)
    requires Migratable(objects, profile)
    ensures NoEmptyRules(profile.namespaces) && forall rule :: rule in profile.ingress ==> rule.source != ""
  {
  }

  lemma ClassIsThere(objects: seq<Object>, profile: Profile, className: string)
    requires Migratable(objects, profile) && className in Classes(objects)
    ensures ClassNode(true, MappedValue(className, profile.storage)) in TargetGraph(objects, profile)
  {
    hide Migratable, TransformedAll, GraphNodes, Nodes, Classes, MappedValue;
    var all, node := TransformedAll(objects, profile), ClassNode(true, MappedValue(className, profile.storage));
    MappedClassIsNamed(objects, profile, className);
    NodesAre(true, all, node);
    NodeIsThere(true, all, node);
  }

  // ---------------------------------------------------------------- bare nodes

  /** A planned bare node announces nothing but where it is. */
  lemma BareNodesChange(node: GraphNode, profile: Profile)
    requires node.attributes == NO_ATTRIBUTES && node.kind != STORAGE_CLASS && forall rule :: rule in profile.ingress ==> rule.source != ""
    ensures PlannedChanges(node, profile) == MetadataChanges(node, profile)
  {
    hide MetadataChanges, MappedValue, LabelChanges, ClassChange;
    NoSelectorNoChanges(profile.nodeLabels);
    EmptyIsUnmapped(profile.ingress);
    assert ImageChanges([], profile.registries) == [] && NfsChanges([], profile.nfs) == [];
    assert ClassChange("", profile.storage) == [] by { NoClassNoChange(profile.storage); }
  }

  lemma NoClassNoChange(values: seq<KeyValue>)
    ensures ClassChange("", values) == []
  {
  }

  lemma BareNodesShow(node: GraphNode, profile: Profile, actual: GraphNode)
    requires node.attributes == NO_ATTRIBUTES && node.kind != STORAGE_CLASS && forall rule :: rule in profile.ingress ==> rule.source != ""
    requires IdentityOf(actual) == IdentityOf(PlannedNode(node, profile))
    ensures Unapplied(PlannedNode(node, profile).changes, actual) == 0
  {
    hide MappedValue, TargetApiVersion, PlannedChanges, PlannedAttributes, Unapplied;
    BareNodesChange(node, profile);
    NoneUnappliedIff(PlannedNode(node, profile).changes, actual);
  }

  lemma BareNodeDrifts(node: GraphNode, profile: Profile, run: RunStatus, observed: seq<GraphNode>)
    requires node.attributes == NO_ATTRIBUTES && node.kind != STORAGE_CLASS && forall rule :: rule in profile.ingress ==> rule.source != ""
    ensures DriftOf(PlannedNode(node, profile), observed, run) == 0 <==>
            (MustExist(run) ==> IdentityOf(PlannedNode(node, profile)) in Identities(observed))
  {
    hide PlannedNode, MustExist, Observed, Unapplied;
    var key := IdentityOf(PlannedNode(node, profile));
    if Observed(observed, key).Some? {
      var k := LastOfIdentity(observed, key);
      assert observed[k] in observed;
      BareNodesShow(node, profile, observed[k]);
    } else if other :| other in observed && IdentityOf(other) == key {
      MembersAreObserved(observed, other);
    }
  }

  /** A dependency the transform keeps has its node in the graph of the target, where it was planned. */
  lemma NamedIsThere(objects: seq<Object>, profile: Profile, o: Object, r: Reference)
    requires Migratable(objects, profile) && o in objects && r in Named(o)
    ensures var node := ReferenceNode(true, Transformed(o, profile).namespace, Moved(r, profile));
            && node.id in Ids(TargetGraph(objects, profile))
            && IdentityOf(node) == IdentityOf(PlannedNode(ReferenceNode(false, o.namespace, r), profile))
    ensures IdentityOf(PlannedNode(ReferenceNode(false, o.namespace, r), profile)) in Identities(TargetGraph(objects, profile))
  {
    hide Migratable, Transformed, TransformedAll, GraphNodes, Nodes, AllReferenceNodes, Named, PlannedNode, Moved, WellFormed, OrderFree, MountsWellFormed, Listed, NoEmptyRules, Covered;
    var all, t := TransformedAll(objects, profile), Transformed(o, profile);
    Parts(objects, profile, o);
    TransformedAllAre(objects, profile, t);
    DependenciesMove(o, profile);
    var i :| 0 <= i < |Named(o)| && Named(o)[i] == r;
    assert MovedAll(Named(o), profile)[i] == Moved(r, profile);
    var node := ReferenceNode(true, t.namespace, Moved(r, profile));
    ReferenceNodesAre(true, all, node);
    NodeIsThere(true, all, node);
    assert r in Dependencies(o);
    DependencyIsPlanned(o, profile, r);
    var other :| other in TargetGraph(objects, profile) && other.id == node.id;
    TargetNodesAreNamed(objects, profile);
  }

  lemma WhereDependenciesGo(o: Object, profile: Profile, r: Reference)
    requires r.kind != STORAGE_CLASS
    ensures IdentityOf(PlannedNode(ReferenceNode(false, o.namespace, r), profile))
            == Identity(r.kind, MappedValue(Or(r.namespace, o.namespace), profile.namespaces), r.name)
  {
    hide MappedValue, PlannedChanges, PlannedAttributes, TargetApiVersion;
  }

  lemma ListedOwnerIsThere(objects: seq<Object>, profile: Profile, o: Object, owner: Reference, u: Object)
    requires Migratable(objects, profile) && o in objects && owner in o.owners && u in objects && u.kind == owner.kind && u.name == owner.name
    ensures IdentityOf(PlannedNode(ReferenceNode(false, o.namespace, owner), profile)) in Identities(TargetGraph(objects, profile))
  {
    hide Transformed, TargetGraph, PlannedNode, MappedValue, ObjectAttributes, WellFormed, OrderFree, MountsWellFormed, Listed, NoEmptyRules, Usable;
    assert owner in Dependencies(o) && owner.namespace == None && u.namespace == o.namespace;
    Parts(objects, profile, u);
    ObjectIsThere(objects, profile, u);
    ObjectMoves(u, profile);
    WhereDependenciesGo(o, profile, owner);
  }

  lemma OwnerIsThereIff(objects: seq<Object>, profile: Profile, o: Object, owner: Reference)
    requires Migratable(objects, profile) && o in objects && owner in o.owners
    ensures IdentityOf(PlannedNode(ReferenceNode(false, o.namespace, owner), profile)) in Identities(TargetGraph(objects, profile))
            <==> OwnerStays(objects, profile, o, owner)
  {
    hide Migratable, PlannedNode, ReferenceNode, TargetGraph, Named, MappedValue, Covered, OrderFree, MountsWellFormed, Listed;
    Parts(objects, profile, o);
    assert owner in Dependencies(o);
    WhereDependenciesGo(o, profile, owner);
    if node :| node in TargetGraph(objects, profile) && IdentityOf(node) == IdentityOf(PlannedNode(ReferenceNode(false, o.namespace, owner), profile)) {
      FoundOwnerStays(objects, profile, o, owner, node);
    }
    if u :| u in objects && u.kind == owner.kind && u.name == owner.name {
      ListedOwnerIsThere(objects, profile, o, owner, u);
    }
    if u, r :| u in objects && r in Named(u) && SamePlace(u, r, o, owner, profile) {
      NamedIsThere(objects, profile, u, r);
      WhereDependenciesGo(u, profile, r);
    }
  }

  lemma FoundOwnerStays(objects: seq<Object>, profile: Profile, o: Object, owner: Reference, node: GraphNode)
    requires Migratable(objects, profile) && o in objects && owner in o.owners && owner.kind != STORAGE_CLASS
    requires node in TargetGraph(objects, profile)
    requires IdentityOf(node) == Identity(owner.kind, MappedValue(Or(owner.namespace, o.namespace), profile.namespaces), owner.name)
    ensures OwnerStays(objects, profile, o, owner)
  {
    hide Migratable, Transformed, TransformedAll, GraphNodes, Nodes, Classes, ObjectAttributes, Dependencies, Named, PlannedNode, MappedValue, WellFormed, OrderFree, MountsWellFormed, Listed, NoEmptyRules, Moved;
    var all := TransformedAll(objects, profile);
    GraphNodesAre(true, all, node);
    if t :| t in all && node == ObjectNode(true, t) {
      TransformedAllAre(objects, profile, t);
      var u :| u in objects && t == Transformed(u, profile);
      Parts(objects, profile, u);
      ObjectMoves(u, profile);
    } else if t, r :| t in all && r in Dependencies(t) && node == ReferenceNode(true, t.namespace, r) {
      TransformedAllAre(objects, profile, t);
      var u :| u in objects && t == Transformed(u, profile);
      Parts(objects, profile, u);
      DependenciesMove(u, profile);
      var i :| 0 <= i < |Named(u)| && Moved(Named(u)[i], profile) == r;
      KindStays(Named(u)[i], profile);
      DependencyIsPlanned(u, profile, Named(u)[i]);
      WhereDependenciesGo(u, profile, Named(u)[i]);
      assert SamePlace(u, Named(u)[i], o, owner, profile);
    }
  }

  lemma KindStays(r: Reference, profile: Profile)
    ensures Moved(r, profile).kind == r.kind && Moved(r, profile).name == r.name && Moved(r, profile).apiVersion == r.apiVersion
  {
  }

  // ---------------------------------------------------------------- the whole comparison

  /** Nothing of the target is unplanned. */
  lemma NothingIsUnplanned(objects: seq<Object>, profile: Profile, node: GraphNode)
    requires Migratable(objects, profile) && node in TargetGraph(objects, profile)
    ensures !Unplanned(node, Identities(PlannedNodes(SourceGraph(objects), profile)))
  {
    hide Migratable, Transformed, TransformedAll, GraphNodes, Nodes, AllReferenceNodes, Classes, ObjectNode, Dependencies, Named, PlannedNode, ReferenceNode, WellFormed, OrderFree, MountsWellFormed, Listed, NoEmptyRules, Moved, IsHelper, Identities, Covered;
    var all := TransformedAll(objects, profile);
    GraphNodesAre(true, all, node);
    if t :| t in all && node == ObjectNode(true, t) {
      TransformedAllAre(objects, profile, t);
      var u :| u in objects && t == Transformed(u, profile);
      ObjectIsThere(objects, profile, u);
      NodesAre(false, objects, ObjectNode(false, u));
      NodeIsThere(false, objects, ObjectNode(false, u));
      PlannedIdentities(SourceGraph(objects), profile, ObjectNode(false, u));
    } else if className :| className in Classes(all) && node == ClassNode(true, className) {
      assert IsGenerated(node);
    } else {
      var t, r :| t in all && r in Dependencies(t) && node == ReferenceNode(true, t.namespace, r);
      TransformedAllAre(objects, profile, t);
      var u :| u in objects && t == Transformed(u, profile);
      Parts(objects, profile, u);
      DependenciesMove(u, profile);
      var i :| 0 <= i < |Named(u)| && Moved(Named(u)[i], profile) == r;
      AmongDependencies(u, i);
      DependencyIsAmongPlanned(objects, profile, u, Named(u)[i]);
      DependencyIsPlanned(u, profile, Named(u)[i]);
    }
  }

  lemma AmongDependencies(o: Object, i: nat)
    requires i < |Named(o)| && DependenciesWellFormed(o)
    ensures Named(o)[i] in Dependencies(o) && Named(o)[i].kind != STORAGE_CLASS
  {
    hide Named;
  }

  lemma PlannedIdentities(nodes: seq<GraphNode>, profile: Profile, node: GraphNode)
    requires node in nodes
    ensures IdentityOf(PlannedNode(node, profile)) in Identities(PlannedNodes(nodes, profile))
    ensures PlannedNode(node, profile) in PlannedNodes(nodes, profile)
  {
    hide PlannedNode;
    var i :| 0 <= i < |nodes| && nodes[i] == node;
    assert PlannedNodes(nodes, profile)[i] == PlannedNode(node, profile);
  }

  lemma SamePlan(a: GraphNode, b: GraphNode, profile: Profile)
    requires SelfNamed(a) && SelfNamed(b) && a.id == b.id
    ensures IdentityOf(PlannedNode(a, profile)) == IdentityOf(PlannedNode(b, profile))
  {
    hide MappedValue, PlannedChanges, PlannedAttributes, TargetApiVersion;
  }

  /** Every dependency of the source, owners included, is planned. */
  lemma DependencyIsAmongPlanned(objects: seq<Object>, profile: Profile, o: Object, r: Reference)
    requires o in objects && r in Dependencies(o)
    ensures IdentityOf(PlannedNode(ReferenceNode(false, o.namespace, r), profile)) in Identities(PlannedNodes(SourceGraph(objects), profile))
  {
    hide GraphNodes, Nodes, AllReferenceNodes, Dependencies, PlannedNode, PlannedNodes, Identities;
    var node := ReferenceNode(false, o.namespace, r);
    ReferenceNodesAre(false, objects, node);
    NodeIsThere(false, objects, node);
    var other :| other in GraphNodes(false, objects) && other.id == node.id;
    GraphNodesAre(false, objects, other);
    SamePlan(node, other, profile);
    PlannedIdentities(SourceGraph(objects), profile, other);
  }

  lemma SameMembers(a: seq<GraphNode>, b: seq<GraphNode>)
    requires Reordered(a, b)
    ensures forall node :: node in a <==> node in b
    ensures Identities(a) == Identities(b)
  {
    forall node
      ensures node in a <==> node in b
    {
      assert node in a <==> node in multiset(a);
      assert node in b <==> node in multiset(b);
    }
  }

  ghost predicate AllShown(objects: seq<Object>, profile: Profile) { forall o :: o in objects ==> Shown(objects, profile, o) }

  ghost predicate OwnersStay(objects: seq<Object>, profile: Profile) {
    forall o, owner :: o in objects && owner in o.owners ==> OwnerStays(objects, profile, o, owner)
  }

  lemma NodeDrifts(objects: seq<Object>, profile: Profile, run: RunStatus, observed: seq<GraphNode>, node: GraphNode)
    requires Migratable(objects, profile) && node in SourceGraph(objects)
    requires InOrder(observed) && Reordered(observed, TargetGraph(objects, profile))
    requires AllShown(objects, profile) && (MustExist(run) ==> OwnersStay(objects, profile))
    ensures DriftOf(PlannedNode(node, profile), observed, run) == 0
  {
    hide Migratable, GraphNodes, Nodes, Classes, ObjectNode, Dependencies, Named, PlannedNode, ReferenceNode, TargetGraph, InOrder, Reordered, Shown, OwnerStays, DriftOf, MustExist, Identities, ClassNode;
    GraphNodesAre(false, objects, node);
    if o :| o in objects && node == ObjectNode(false, o) {
      ObjectDriftsIff(objects, profile, o, run, observed);
    } else if className :| className in Classes(objects) && node == ClassNode(false, className) {
      ClassShows(objects, profile, className, run, observed);
    } else {
      var o, r :| o in objects && r in Dependencies(o) && node == ReferenceNode(false, o.namespace, r);
      ReferenceDrifts(objects, profile, o, r, run, observed);
    }
  }

  lemma ReferenceDrifts(objects: seq<Object>, profile: Profile, o: Object, r: Reference, run: RunStatus, observed: seq<GraphNode>)
    requires Migratable(objects, profile) && o in objects && r in Dependencies(o)
    requires Reordered(observed, TargetGraph(objects, profile))
    ensures DriftOf(PlannedNode(ReferenceNode(false, o.namespace, r), profile), observed, run) == 0
            <==> (MustExist(run) && r in o.owners ==> r in Named(o) || OwnerStays(objects, profile, o, r))
  {
    hide Migratable, Named, PlannedNode, TargetGraph, Reordered, OwnerStays, DriftOf, MustExist, Identities;
    var node := ReferenceNode(false, o.namespace, r);
    DependencyKind(objects, profile, o, r);
    NoEmptyNamespaces(objects, profile);
    BareNodeDrifts(node, profile, run, observed);
    SameMembers(observed, TargetGraph(objects, profile));
    if r in Named(o) {
      NamedIsThere(objects, profile, o, r);
    } else {
      OwnerIsThereIff(objects, profile, o, r);
    }
  }

  lemma DependencyKind(objects: seq<Object>, profile: Profile, o: Object, r: Reference)
    requires Migratable(objects, profile) && o in objects && r in Dependencies(o)
    ensures r.kind != STORAGE_CLASS
  {
    hide Dependencies, Usable;
  }

  /**
   A target that holds exactly the transform of the source shows no drift if and only if
   what is planned for each listed object can be seen on whichever node of its kind and
   name comes last in the graph, and, once the run promises every resource, every owner
   the transform cuts off is still in the graph.
   */
  lemma NoDriftIff(objects: seq<Object>, profile: Profile, run: RunStatus, planned: seq<GraphNode>, observed: seq<GraphNode>)
    requires Migratable(objects, profile)
    requires Reordered(planned, PlannedNodes(SourceGraph(objects), profile))
    requires InOrder(observed) && Reordered(observed, TargetGraph(objects, profile))
    ensures Drifted(planned, observed, run) == 0 <==> AllShown(objects, profile) && (MustExist(run) ==> OwnersStay(objects, profile))
  {
    hide Migratable, TargetGraph, InOrder, Reordered, Shown, OwnerStays, DriftOf, MustExist, Identities, PlannedNode, ObjectNode, Unplanned, GraphNodes;
    var source := SourceGraph(objects);
    SameMembers(planned, PlannedNodes(source, profile));
    SameMembers(observed, TargetGraph(objects, profile));
    NoDriftMeans(planned, observed, run);
    NoneUnplannedMeans(observed, Identities(planned));
    forall node | node in observed
      ensures !Unplanned(node, Identities(planned))
    {
      NothingIsUnplanned(objects, profile, node);
    }
    if AllShown(objects, profile) && (MustExist(run) ==> OwnersStay(objects, profile)) {
      forall node | node in planned
        ensures DriftOf(node, observed, run) == 0
      {
        var i :| 0 <= i < |source| && PlannedNodes(source, profile)[i] == node;
        NodeDrifts(objects, profile, run, observed, source[i]);
      }
    }
    if forall node :: node in planned ==> DriftOf(node, observed, run) == 0 {
      forall o | o in objects
        ensures Shown(objects, profile, o)
      {
        PlannedObjectIsThere(objects, profile, o);
        ObjectDriftsIff(objects, profile, o, run, observed);
      }
      forall o, owner | MustExist(run) && o in objects && owner in o.owners
        ensures OwnerStays(objects, profile, o, owner)
      {
        OwnerIsNotMissed(objects, profile, o, owner, run, planned, observed);
      }
    }
  }

  lemma PlannedObjectIsThere(objects: seq<Object>, profile: Profile, o: Object)
    requires o in objects
    ensures PlannedNode(ObjectNode(false, o), profile) in PlannedNodes(SourceGraph(objects), profile)
  {
    hide PlannedNode, ObjectNode, PlannedNodes, GraphNodes, Nodes;
    NodesAre(false, objects, ObjectNode(false, o));
    NodeIsThere(false, objects, ObjectNode(false, o));
    PlannedIdentities(SourceGraph(objects), profile, ObjectNode(false, o));
  }

  /** An owner that is gone is planned, and missing. */
  lemma OwnerIsNotMissed(objects: seq<Object>, profile: Profile, o: Object, owner: Reference, run: RunStatus, planned: seq<GraphNode>, observed: seq<GraphNode>)
    requires Migratable(objects, profile) && o in objects && owner in o.owners && MustExist(run)
    requires Identities(planned) == Identities(PlannedNodes(SourceGraph(objects), profile))
    requires Identities(observed) == Identities(TargetGraph(objects, profile))
    requires forall node :: node in planned ==> DriftOf(node, observed, run) == 0
    ensures OwnerStays(objects, profile, o, owner)
  {
    hide Migratable, PlannedNode, PlannedNodes, ReferenceNode, SourceGraph, TargetGraph, OwnerStays, MustExist, Unapplied;
    assert owner in Dependencies(o);
    OwnerIsThereIff(objects, profile, o, owner);
    DependencyIsAmongPlanned(objects, profile, o, owner);
    var key := IdentityOf(PlannedNode(ReferenceNode(false, o.namespace, owner), profile));
    var node :| node in planned && IdentityOf(node) == key;
    assert Observed(observed, key).Some?;
    var k := LastOfIdentity(observed, key);
    assert observed[k] in observed;
  }

  // ---------------------------------------------------------------- without aliases

  /** No dependency names a listed object's kind, place and name under another version, and no second object has them. */
  ghost predicate NoAlias(objects: seq<Object>, profile: Profile) {
    && (forall a, b :: a in objects && b in objects && a.kind == b.kind && a.name == b.name ==> a == b)
    && (forall o, u, r :: o in objects && u in objects && r in Named(u) && NamesObject(u, r, o, profile) ==> r.apiVersion == o.apiVersion)
  }

  ghost predicate NamesObject(u: Object, r: Reference, o: Object, profile: Profile) {
    r.kind == o.kind && r.name == o.name && MappedValue(Or(r.namespace, u.namespace), profile.namespaces) == MappedValue(o.namespace, profile.namespaces)
  }

  /** The IDs of an object's kind, place and name in the target: those of listed objects and of dependencies. */
  lemma IdsOfName(objects: seq<Object>, profile: Profile, o: Object, id: NodeId)
    requires Migratable(objects, profile) && o in objects
    requires id in Ids(TargetGraph(objects, profile)) && SameName(id, TargetNode(o, profile).id)
    ensures id.isTarget
    ensures || (exists u :: u in objects && u.kind == o.kind && u.name == o.name && u.apiVersion == id.apiVersion && IsOf(id, u, profile))
            || (exists u, r :: u in objects && r in Named(u) && NamesObject(u, r, o, profile) && r.apiVersion == id.apiVersion)
  {
    hide Migratable, Transformed, TransformedAll, GraphNodes, Nodes, Classes, ObjectAttributes, Dependencies, Named, PlannedNode, MappedValue, WellFormed, OrderFree, MountsWellFormed, Listed, NoEmptyRules, Moved;
    var all := TransformedAll(objects, profile);
    var node :| node in TargetGraph(objects, profile) && node.id == id;
    GraphNodesAre(true, all, node);
    ObjectPlace(objects, profile, o);
    if t :| t in all && node == ObjectNode(true, t) {
      TransformedAllAre(objects, profile, t);
      var u :| u in objects && t == Transformed(u, profile);
      ObjectPlace(objects, profile, u);
      assert IsOf(id, u, profile);
    } else {
      var t, r :| t in all && r in Dependencies(t) && node == ReferenceNode(true, t.namespace, r);
      TransformedAllAre(objects, profile, t);
      var u :| u in objects && t == Transformed(u, profile);
      Parts(objects, profile, u);
      DependenciesMove(u, profile);
      var i :| 0 <= i < |Named(u)| && Moved(Named(u)[i], profile) == r;
      KindStays(Named(u)[i], profile);
      DependencyIsPlanned(u, profile, Named(u)[i]);
      WhereDependenciesGo(u, profile, Named(u)[i]);
      assert NamesObject(u, Named(u)[i], o, profile);
    }
  }

  lemma ObjectPlace(objects: seq<Object>, profile: Profile, o: Object)
    requires Migratable(objects, profile) && o in objects
    ensures TargetNode(o, profile).id == NodeId(true, o.apiVersion, o.kind, MappedValue(o.namespace, profile.namespaces), o.name)
    ensures o.kind != STORAGE_CLASS
  {
    hide Migratable, Transformed, ObjectAttributes, MappedValue, PlannedNode, WellFormed, OrderFree, MountsWellFormed, Listed, DependenciesWellFormed;
    Parts(objects, profile, o);
    ObjectMoves(o, profile);
  }

  lemma OwnNodeShows(objects: seq<Object>, profile: Profile, o: Object)
    requires Migratable(objects, profile) && o in objects
    ensures SeenOn(objects, profile, o, TargetNode(o, profile).id)
  {
    hide Migratable, TargetGraph, AppearsApplied, ShowsOnBare, PlannedFor, ObjectNode, TargetNode;
    ObjectIsThere(objects, profile, o);
    assert IsOf(TargetNode(o, profile).id, o, profile);
    forall u | u in objects && IsOf(TargetNode(o, profile).id, u, profile)
      ensures TargetNode(u, profile) == TargetNode(o, profile)
    {
      NodeOfIdIsOne(objects, profile, o, u);
    }
  }

  lemma NodeOfIdIsOne(objects: seq<Object>, profile: Profile, o: Object, u: Object)
    requires Migratable(objects, profile) && o in objects && u in objects && TargetNode(o, profile).id == TargetNode(u, profile).id
    ensures o == u
  {
    hide Transformed, TargetNode, Usable, OrderFree, MountsWellFormed, Listed, DependenciesWellFormed;
    ObjectPlace(objects, profile, o);
    ObjectPlace(objects, profile, u);
  }

  lemma NoAliasShows(objects: seq<Object>, profile: Profile, o: Object)
    requires Migratable(objects, profile) && NoAlias(objects, profile) && o in objects
    ensures Shown(objects, profile, o)
  {
    hide Migratable, TargetGraph, SeenOn, Named, NamesObject, TargetNode, Less;
    OwnNodeShows(objects, profile, o);
    ObjectPlace(objects, profile, o);
    forall id | IsLast(Ids(TargetGraph(objects, profile)), id) && SameName(id, TargetNode(o, profile).id)
      ensures id == TargetNode(o, profile).id
    {
      IdsOfName(objects, profile, o, id);
    }
  }

  /**
   If no dependency is an alias of a listed object and no owner is lost, the comparison
   reports no drift for every run status, and for a completed run every planned resource
   is SUCCEEDED.
   */
  lemma FaithfulTargetShowsNoDrift(objects: seq<Object>, profile: Profile, run: RunStatus, planned: seq<GraphNode>, observed: seq<GraphNode>)
    requires Migratable(objects, profile) && NoAlias(objects, profile) && OwnersStay(objects, profile)
    requires Reordered(planned, PlannedNodes(SourceGraph(objects), profile))
    requires InOrder(observed) && Reordered(observed, TargetGraph(objects, profile))
    ensures Drifted(planned, observed, run) == 0
    ensures run.Completed? ==> forall i :: 0 <= i < |planned| ==> AllNodes(planned, observed, run)[i].status == Succeeded
  {
    hide Migratable, NoAlias, OwnersStay, TargetGraph, SourceGraph, InOrder, Reordered, Shown, Drifted, AllNodes;
    forall o | o in objects
      ensures Shown(objects, profile, o)
    {
      NoAliasShows(objects, profile, o);
    }
    NoDriftIff(objects, profile, run, planned, observed);
    if run.Completed? {
      ZeroDriftIffAllSucceeded(planned, observed);
    }
  }

  // ---------------------------------------------------------------- faithful targets that drift

  function Plain(apiVersion: string, kind: Kind, name: string, owners: seq<Reference>, references: seq<Reference>): Object {
    Object(apiVersion, kind, "shop", name, None, None, map[], None, [], None, [], owners, references, "")
  }

  function Running(image: string): Template { Template([], [Container(Some(image), "")], [], NodeSelection.Placement(None, None, None)) }

  const WEB := Plain("apps/v1", Deployment, "web", [], []).(template := Some(Running("old/app")))

  const SCALED := Reference("extensions/v1beta1", Deployment, None, "web", "SCALES", true)

  const SCALER := Plain("autoscaling/v2", OtherKind("HorizontalPodAutoscaler"), "web", [], [SCALED])

  const NEW_REGISTRY := Profile([], [], [], [KeyValue("old", "new")], [], [])

  lemma RegistryIsUsable()
    ensures Usable(NEW_REGISTRY)
  {
    assert Target(NEW_REGISTRY.registries[0]) == "new";
  }

  ghost predicate Fits(o: Object, profile: Profile) {
    Covered(o) && OrderFree(o, profile.nodeLabels) && MountsWellFormed(o) && Listed(o) && DependenciesWellFormed(o)
  }

  lemma WebFits()
    ensures Fits(WEB, NEW_REGISTRY) && Named(WEB) == []
  {
    hide UniqueSorted;
    assert "apps/" <= "apps/v1";
  }

  /** Told apart by their first letters. */
  lemma IsNoSpecialKind(name: string)
    requires name != [] && name[0] !in {'P', 'S', 'R'}
    ensures name != "PodDisruptionBudget" && OtherKind(name) != STORAGE_CLASS && OtherKind(name) != ROLE_BINDING
  {
    assert "PodDisruptionBudget"[0] == 'P' && "StorageClass"[0] == 'S' && "RoleBinding"[0] == 'R';
  }

  lemma ScalerFits()
    ensures Fits(SCALER, NEW_REGISTRY) && Named(SCALER) == [SCALED]
  {
    IsNoSpecialKind("HorizontalPodAutoscaler");
  }

  lemma WebIsMigratable()
    ensures Migratable([WEB, SCALER], NEW_REGISTRY)
  {
    hide Usable, Covered, OrderFree, MountsWellFormed, Listed, DependenciesWellFormed;
    RegistryIsUsable();
    WebFits();
    ScalerFits();
    assert forall o :: o in [WEB, SCALER] ==> o == WEB || o == SCALER;
  }

  lemma ExtensionsComeLast(a: NodeId, b: NodeId)
    requires a.isTarget && b.isTarget && a.apiVersion == "apps/v1" && b.apiVersion == "extensions/v1beta1"
    ensures Less(IdText(a), IdText(b))
  {
    LessAfter("TARGET|", "apps/v1" + Suffix(a), "extensions/v1beta1" + Suffix(b));
  }

  lemma {:induction false} LessAfter(head: string, a: string, b: string)
    requires Less(a, b)
    ensures Less(head + a, head + b)
  {
    if head == [] {
      assert head + a == a && head + b == b;
    } else {
      LessAfter(head[1..], a, b);
      assert (head + a)[1..] == head[1..] + a && (head + b)[1..] == head[1..] + b;
    }
  }

  const HIDING := NodeId(true, "extensions/v1beta1", Deployment, MappedValue("shop", []), "web")

  lemma AliasIsLast()
    ensures IsLast(Ids(TargetGraph([WEB, SCALER], NEW_REGISTRY)), HIDING) && SameName(HIDING, TargetNode(WEB, NEW_REGISTRY).id)
  {
    hide Migratable, TargetGraph, Less, IdText, MappedValue, Transformed, TargetNode, Named;
    var objects := [WEB, SCALER];
    WebIsMigratable();
    WebFits();
    ScalerFits();
    assert WEB in objects && SCALER in objects;
    ObjectPlace(objects, NEW_REGISTRY, WEB);
    NamedIsThere(objects, NEW_REGISTRY, SCALER, SCALED);
    WhereDependenciesGo(SCALER, NEW_REGISTRY, SCALED);
    forall other | other in Ids(TargetGraph(objects, NEW_REGISTRY)) && SameName(other, HIDING)
      ensures other == HIDING || Less(IdText(other), IdText(HIDING))
    {
      IdsOfName(objects, NEW_REGISTRY, WEB, other);
      if other.apiVersion == "apps/v1" {
        ExtensionsComeLast(other, HIDING);
      }
    }
  }

  lemma WebIsHidden()
    ensures !Shown([WEB, SCALER], NEW_REGISTRY, WEB)
  {
    hide Migratable, TargetGraph, PlannedFor, IsLast, MappedValue, Transformed, TargetNode;
    var objects := [WEB, SCALER];
    WebIsMigratable();
    assert WEB in objects && SCALER in objects;
    ObjectPlace(objects, NEW_REGISTRY, WEB);
    ObjectPlace(objects, NEW_REGISTRY, SCALER);
    AliasIsLast();
    WebChangesItsImage();
    assert !SeenOn(objects, NEW_REGISTRY, WEB, HIDING);
  }

  lemma OldIsRewritten()
    ensures RewritePrefix("old/app", NEW_REGISTRY.registries) == "new/app"
  {
    var rules := NEW_REGISTRY.registries;
    assert Source(rules[0]) == "old" && Target(rules[0]) == "new" && "old/app"[3..] == "/app";
  }

  lemma OneValue(value: string)
    requires value != ""
    ensures UniqueSorted([value]) == [value]
  {
    assert [value][..0] == [];
  }

  lemma WebRunsOld()
    ensures PodImages(WEB) == ["old/app"]
  {
    hide UniqueSorted;
    OneValue("old/app");
    var template := WEB.template.value;
    assert Images(template.initContainers) == [] && Images(template.containers) == ["old/app"];
    assert [] + Images(template.containers) == Images(template.containers);
  }

  lemma WebChangesItsImage()
    ensures Change(ImageChange, "old/app", "new/app", None) in PlannedFor(WEB, NEW_REGISTRY)
  {
    hide LabelChanges, NfsChanges, MetadataChanges, ClassChanges, RewritePrefix, PodImages, PodNfsSources, Selectors;
    OldIsRewritten();
    WebRunsOld();
    assert "old/app"[0] != "new/app"[0];
    assert ImageChanges(["old/app"], NEW_REGISTRY.registries) == [Change(ImageChange, "old/app", "new/app", None)];
  }

  /**
   An autoscaler may name its workload under any version. One that sorts after the
   listed one hides the workload behind a node without images, and a faithful target is
   reported as drifted.
   */
  lemma AliasHidesTheImage(run: RunStatus)
    ensures Migratable([WEB, SCALER], NEW_REGISTRY) && OwnersStay([WEB, SCALER], NEW_REGISTRY)
    ensures Drifted(PlannedNodes(SourceGraph([WEB, SCALER]), NEW_REGISTRY), ById(TargetGraph([WEB, SCALER], NEW_REGISTRY)), run) > 0
  {
    hide Migratable, PlannedNodes, SourceGraph, TargetGraph, ById, InOrder, Drifted, PlannedFor, Shown;
    var objects := [WEB, SCALER];
    WebIsMigratable();
    ByIdSorts(TargetGraph(objects, NEW_REGISTRY));
    WebIsHidden();
    assert WEB in objects && !AllShown(objects, NEW_REGISTRY);
    NoDriftIff(objects, NEW_REGISTRY, run, PlannedNodes(SourceGraph(objects), NEW_REGISTRY), ById(TargetGraph(objects, NEW_REGISTRY)));
  }

  const LOCK := Plain("v1", OtherKind("ConfigMap"), "lock", [Reference("v1", Pod, None, "web-0", "OWNED_BY", true)], [])

  lemma LockFits()
    ensures Fits(LOCK, NEW_REGISTRY) && Named(LOCK) == []
  {
    IsNoSpecialKind("ConfigMap");
  }

  lemma LockIsMigratable()
    ensures Migratable([LOCK], NEW_REGISTRY)
  {
    hide Usable, Covered, OrderFree, MountsWellFormed, Listed, DependenciesWellFormed;
    RegistryIsUsable();
    LockFits();
    assert forall o :: o in [LOCK] ==> o == LOCK;
  }

  /** An owner that is not listed is planned, but the transform cuts the only reference to it: it is reported missing. */
  lemma LostOwnerIsMissing(run: RunStatus)
    requires MustExist(run)
    ensures Migratable([LOCK], NEW_REGISTRY) && NoAlias([LOCK], NEW_REGISTRY)
    ensures Drifted(PlannedNodes(SourceGraph([LOCK]), NEW_REGISTRY), ById(TargetGraph([LOCK], NEW_REGISTRY)), run) > 0
  {
    hide Migratable, PlannedNodes, SourceGraph, TargetGraph, ById, InOrder, Drifted, AllShown, Named, MustExist, NamesObject, SamePlace;
    LockIsMigratable();
    LockFits();
    ByIdSorts(TargetGraph([LOCK], NEW_REGISTRY));
    assert LOCK in [LOCK] && LOCK.owners[0] in LOCK.owners;
    assert !OwnerStays([LOCK], NEW_REGISTRY, LOCK, LOCK.owners[0]);
    NoDriftIff([LOCK], NEW_REGISTRY, run, PlannedNodes(SourceGraph([LOCK]), NEW_REGISTRY), ById(TargetGraph([LOCK], NEW_REGISTRY)));
  }
}
