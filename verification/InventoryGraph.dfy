/**
 The graph of an inventory (graphFromKubernetesInventory, internal/migration/evidence_service.go:367-440):
 a node for each listed object, for each class its claims name and for each other
 dependency (objectDependencies, internal/adapter/kubernetes/inventory.go:458-534), in the
 order of their IDs; and what the transform does to the dependencies.
 */
module InventoryGraph {
  import opened Wrappers
  import opened ImagePrefixes
  import opened Manifests
  import opened Topology
  import opened EvidencePrediction
  import opened TopologyMerge

  // ---------------------------------------------------------------- dependencies

  const ROLE_BINDING := OtherKind("RoleBinding")

  const SERVICE_ACCOUNT := OtherKind("ServiceAccount")

  /** The service accounts a role binding grants its role to. */
  function SubjectReferences(subjects: seq<Subject>): seq<Reference> {
    if subjects == [] then []
    else SubjectReferences(subjects[..|subjects| - 1]) + SubjectReference(subjects[|subjects| - 1])
  }

  function SubjectReference(subject: Subject): seq<Reference> {
    if subject.isServiceAccount && subject.name != ""
    then [Reference("v1", SERVICE_ACCOUNT, if subject.namespace == Some("") then None else subject.namespace, subject.name, "GRANTS_TO", true)]
    else []
  }

  /** The dependencies besides the owners, which the transform removes. */
  function Named(o: Object): seq<Reference> { o.references + if o.kind == ROLE_BINDING then SubjectReferences(o.subjects) else [] }

  function Dependencies(o: Object): seq<Reference> { o.owners + Named(o) }

  // ---------------------------------------------------------------- nodes

  /** The classes the claims name, each once. */
  function Classes(objects: seq<Object>): seq<string> {
    if objects == [] then []
    else
      var before, last := Classes(objects[..|objects| - 1]), objects[|objects| - 1];
      var className := Or(last.storageClass, "");
      if last.kind.PersistentVolumeClaim? && className != "" && className !in before then before + [className] else before
  }

  function Nodes(isTarget: bool, objects: seq<Object>): seq<GraphNode> {
    seq(|objects|, i requires 0 <= i < |objects| => ObjectNode(isTarget, objects[i])) +
    seq(|Classes(objects)|, i requires 0 <= i < |Classes(objects)| => ClassNode(isTarget, Classes(objects)[i]))
  }

  /** Added for a dependency on something no node stands for yet. */
  function ReferenceNode(isTarget: bool, namespace: string, r: Reference): GraphNode {
    MakeNode(isTarget, r.apiVersion, r.kind, Or(r.namespace, namespace), r.name, if isTarget then Created else Discovered, NO_ATTRIBUTES).(required := r.required)
  }

  function ReferenceNodes(isTarget: bool, o: Object): seq<GraphNode> {
    seq(|Dependencies(o)|, i requires 0 <= i < |Dependencies(o)| => ReferenceNode(isTarget, o.namespace, Dependencies(o)[i]))
  }

  function AllReferenceNodes(isTarget: bool, objects: seq<Object>): seq<GraphNode> {
    if objects == [] then []
    else AllReferenceNodes(isTarget, objects[..|objects| - 1]) + ReferenceNodes(isTarget, objects[|objects| - 1])
  }

  /** A node is added unless one with its ID is there. */
  function AddMissing(nodes: seq<GraphNode>, extras: seq<GraphNode>): seq<GraphNode> {
    if extras == [] then nodes
    else
      var before, last := AddMissing(nodes, extras[..|extras| - 1]), extras[|extras| - 1];
      if last.id in Ids(before) then before else before + [last]
  }

  function GraphNodes(isTarget: bool, objects: seq<Object>): seq<GraphNode> {
    AddMissing(Nodes(isTarget, objects), AllReferenceNodes(isTarget, objects))
  }

  method BuildNodes(isTarget: bool, objects: seq<Object>) returns (nodes: seq<GraphNode>)
    ensures nodes == GraphNodes(isTarget, objects)
  {
    hide Nodes, AllReferenceNodes, Ids;
    nodes := Nodes(isTarget, objects);
    var extras := AllReferenceNodes(isTarget, objects);
    for i := 0 to |extras|
      invariant nodes == AddMissing(Nodes(isTarget, objects), extras[..i])
    {
      assert extras[..i + 1][..i] == extras[..i];
      if extras[i].id !in Ids(nodes) {
        nodes := nodes + [extras[i]];
      }
    }
    assert extras[..|extras|] == extras;
  }

  // ---------------------------------------------------------------- the order of a graph

  function KindName(kind: Kind): string {
    match kind
    case Deployment => "Deployment"
    case StatefulSet => "StatefulSet"
    case DaemonSet => "DaemonSet"
    case ReplicaSet => "ReplicaSet"
    case Job => "Job"
    case CronJob => "CronJob"
    case Pod => "Pod"
    case Ingress => "Ingress"
    case PersistentVolumeClaim => "PersistentVolumeClaim"
    case PersistentVolume => "PersistentVolume"
    case NamespaceKind => "Namespace"
    case OtherKind(name) => name
  }

  /** What an ID holds besides the side and the API version, as its text ends. */
  function Suffix(id: NodeId): string { "|" + KindName(id.kind) + "|" + id.namespace + "|" + id.name }

  /** The text by which a graph is sorted. */
  function IdText(id: NodeId): string { (if id.isTarget then "TARGET|" else "SOURCE|") + (id.apiVersion + Suffix(id)) }

  ghost predicate Reordered(sorted: seq<GraphNode>, nodes: seq<GraphNode>) { multiset(sorted) == multiset(nodes) }

  ghost predicate InOrder(nodes: seq<GraphNode>) {
    forall i, j :: 0 <= i < j < |nodes| ==> !Less(IdText(nodes[j].id), IdText(nodes[i].id))
  }

  function InsertById(node: GraphNode, sorted: seq<GraphNode>): seq<GraphNode> {
    if sorted == [] || Less(IdText(node.id), IdText(sorted[0].id)) then [node] + sorted
    else [sorted[0]] + InsertById(node, sorted[1..])
  }

  /** One of the orders sorting can leave; without equal IDs the only one. */
  function ById(nodes: seq<GraphNode>): seq<GraphNode> {
    if nodes == [] then [] else InsertById(nodes[0], ById(nodes[1..]))
  }

  lemma {:induction false} LessIsStrict(a: string, b: string)
    requires Less(a, b)
    ensures !Less(b, a) && a != b
  {
    if a != [] && a[0] == b[0] {
      LessIsStrict(a[1..], b[1..]);
    }
  }

  lemma NotLessIsTransitive(a: string, b: string, c: string)
    requires !Less(b, a) && !Less(c, b)
    ensures !Less(c, a)
  {
    hide Less;
    if Less(c, a) {
      LessOrMore(b, c);
      if b == c {
      } else {
        LessSteps(b, c, a);
      }
    }
  }

  lemma {:induction false} InsertByIdSorts(node: GraphNode, sorted: seq<GraphNode>)
    requires InOrder(sorted)
    ensures InOrder(InsertById(node, sorted)) && multiset(InsertById(node, sorted)) == multiset([node] + sorted)
  {
    hide Less, IdText;
    var text := IdText(node.id);
    if sorted == [] {
    } else if Less(text, IdText(sorted[0].id)) {
      forall j | 0 <= j < |sorted|
        ensures !Less(IdText(sorted[j].id), text)
      {
        LessIsStrict(text, IdText(sorted[0].id));
        if j > 0 {
          NotLessIsTransitive(text, IdText(sorted[0].id), IdText(sorted[j].id));
        }
      }
    } else {
      var rest := InsertById(node, sorted[1..]);
      InsertByIdSorts(node, sorted[1..]);
      assert sorted == [sorted[0]] + sorted[1..];
      forall other | other in rest
        ensures !Less(IdText(other.id), IdText(sorted[0].id))
      {
        assert other in multiset(rest);
        assert other == node || other in sorted[1..];
      }
    }
  }

  lemma {:induction false} ByIdSorts(nodes: seq<GraphNode>)
    ensures InOrder(ById(nodes)) && Reordered(ById(nodes), nodes)
  {
    if nodes != [] {
      ByIdSorts(nodes[1..]);
      InsertByIdSorts(nodes[0], ById(nodes[1..]));
      assert nodes == [nodes[0]] + nodes[1..];
    }
  }

  // ---------------------------------------------------------------- edges

  function ReferenceEdge(isTarget: bool, o: Object, r: Reference): Edge {
    Edge(ObjectNode(isTarget, o).id, ReferenceNode(isTarget, o.namespace, r).id, r.relation, r.required, if isTarget then Created else Discovered)
  }

  function ClassEdge(isTarget: bool, o: Object): Edge {
    Edge(ObjectNode(isTarget, o).id, ClassNode(isTarget, Or(o.storageClass, "")).id, "USES_STORAGE_CLASS", true, if isTarget then Created else Discovered)
  }

  function EdgesOf(isTarget: bool, o: Object): seq<Edge> {
    seq(|Dependencies(o)|, i requires 0 <= i < |Dependencies(o)| => ReferenceEdge(isTarget, o, Dependencies(o)[i])) +
    (if o.kind.PersistentVolumeClaim? && Or(o.storageClass, "") != "" then [ClassEdge(isTarget, o)] else [])
  }

  function GraphEdges(isTarget: bool, objects: seq<Object>): seq<Edge> {
    if objects == [] then []
    else GraphEdges(isTarget, objects[..|objects| - 1]) + EdgesOf(isTarget, objects[|objects| - 1])
  }

  // ---------------------------------------------------------------- which nodes and edges there are

  lemma {:induction false} ClassesAre(objects: seq<Object>, className: string)
    ensures className in Classes(objects) <==> className != "" && exists o :: o in objects && o.kind.PersistentVolumeClaim? && Or(o.storageClass, "") == className
  {
    if objects != [] {
      var n := |objects| - 1;
      ClassesAre(objects[..n], className);
      assert objects == objects[..n] + [objects[n]];
    }
  }

  lemma NodesAre(isTarget: bool, objects: seq<Object>, node: GraphNode)
    ensures node in Nodes(isTarget, objects) <==>
            || (exists o :: o in objects && node == ObjectNode(isTarget, o))
            || (exists className :: className in Classes(objects) && node == ClassNode(isTarget, className))
  {
    hide ObjectNode, ClassNode, Classes;
    var nodes, n := Nodes(isTarget, objects), |objects|;
    forall i | 0 <= i < n
      ensures objects[i] in objects && nodes[i] == ObjectNode(isTarget, objects[i])
    {
    }
    forall i | 0 <= i < |Classes(objects)|
      ensures nodes[n + i] == ClassNode(isTarget, Classes(objects)[i])
    {
    }
    if node in nodes {
      var i :| 0 <= i < |nodes| && nodes[i] == node;
      if i >= n {
        assert nodes[n + (i - n)] == ClassNode(isTarget, Classes(objects)[i - n]);
      }
    }
  }

  lemma {:induction false} ReferenceNodesAre(isTarget: bool, objects: seq<Object>, node: GraphNode)
    ensures node in AllReferenceNodes(isTarget, objects) <==>
            exists o, r :: o in objects && r in Dependencies(o) && node == ReferenceNode(isTarget, o.namespace, r)
  {
    hide ReferenceNode, Dependencies;
    if objects != [] {
      var n := |objects| - 1;
      ReferenceNodesAre(isTarget, objects[..n], node);
      assert objects == objects[..n] + [objects[n]];
      if r :| r in Dependencies(objects[n]) && node == ReferenceNode(isTarget, objects[n].namespace, r) {
        var i :| 0 <= i < |Dependencies(objects[n])| && Dependencies(objects[n])[i] == r;
        assert ReferenceNodes(isTarget, objects[n])[i] == node;
      }
    }
  }

  lemma {:induction false} EdgesAre(isTarget: bool, objects: seq<Object>, edge: Edge)
    ensures edge in GraphEdges(isTarget, objects) <==> exists o :: o in objects && edge in EdgesOf(isTarget, o)
  {
    hide EdgesOf;
    if objects != [] {
      var n := |objects| - 1;
      EdgesAre(isTarget, objects[..n], edge);
      assert objects == objects[..n] + [objects[n]];
    }
  }

  /** The fields of a node and of its ID agree. */
  predicate SelfNamed(node: GraphNode) {
    node.id.apiVersion == node.apiVersion && node.id.kind == node.kind && node.id.namespace == node.namespace && node.id.name == node.name
  }

  ghost predicate UniqueIds(nodes: seq<GraphNode>) { forall a, b :: a in nodes && b in nodes && a.id == b.id ==> a == b }

  lemma {:induction false} AddMissingMembers(nodes: seq<GraphNode>, extras: seq<GraphNode>)
    ensures forall node :: node in nodes ==> node in AddMissing(nodes, extras)
    ensures forall node :: node in AddMissing(nodes, extras) ==> node in nodes || (node in extras && node.id !in Ids(nodes))
  {
    hide Ids;
    if extras != [] {
      var n := |extras| - 1;
      AddMissingMembers(nodes, extras[..n]);
      AddMissingIds(nodes, extras[..n]);
      assert extras == extras[..n] + [extras[n]];
    }
  }

  lemma {:induction false} AddMissingIds(nodes: seq<GraphNode>, extras: seq<GraphNode>)
    ensures Ids(AddMissing(nodes, extras)) == Ids(nodes) + Ids(extras)
  {
    hide Ids;
    NoIds();
    if extras != [] {
      var n := |extras| - 1;
      AddMissingIds(nodes, extras[..n]);
      OneMoreId(extras[..n], extras[n]);
      OneMoreId(AddMissing(nodes, extras[..n]), extras[n]);
      assert extras == extras[..n] + [extras[n]];
    }
  }

  lemma {:induction false} AddMissingStaysUnique(nodes: seq<GraphNode>, extras: seq<GraphNode>)
    requires UniqueIds(nodes)
    ensures UniqueIds(AddMissing(nodes, extras))
  {
    if extras != [] {
      AddMissingStaysUnique(nodes, extras[..|extras| - 1]);
    }
  }

  lemma NoIds()
    ensures Ids([]) == {}
  {
  }

  lemma OneMoreId(nodes: seq<GraphNode>, node: GraphNode)
    ensures Ids(nodes + [node]) == Ids(nodes) + {node.id}
  {
  }

  /** Every node stands for a listed object, a class or a dependency, and its ID says which. */
  lemma GraphNodesAre(isTarget: bool, objects: seq<Object>, node: GraphNode)
    requires node in GraphNodes(isTarget, objects)
    ensures SelfNamed(node) && node.id.isTarget == isTarget
    ensures || (exists o :: o in objects && node == ObjectNode(isTarget, o))
            || (exists className :: className in Classes(objects) && node == ClassNode(isTarget, className))
            || (node.id !in Ids(Nodes(isTarget, objects))
                && exists o, r :: o in objects && r in Dependencies(o) && node == ReferenceNode(isTarget, o.namespace, r))
  {
    hide ObjectAttributes, Nodes, AllReferenceNodes, Classes, Ids, Dependencies;
    AddMissingMembers(Nodes(isTarget, objects), AllReferenceNodes(isTarget, objects));
    NodesAre(isTarget, objects, node);
    ReferenceNodesAre(isTarget, objects, node);
  }

  lemma NodeIsThere(isTarget: bool, objects: seq<Object>, node: GraphNode)
    ensures node in Nodes(isTarget, objects) ==> node in GraphNodes(isTarget, objects)
    ensures node in Nodes(isTarget, objects) || node in AllReferenceNodes(isTarget, objects) ==> node.id in Ids(GraphNodes(isTarget, objects))
  {
    hide Nodes, AllReferenceNodes;
    AddMissingMembers(Nodes(isTarget, objects), AllReferenceNodes(isTarget, objects));
    AddMissingIds(Nodes(isTarget, objects), AllReferenceNodes(isTarget, objects));
  }

  // ---------------------------------------------------------------- one application

  /**
   A version neither the prediction nor the transform changes. The inventory lists the
   built-in kinds under apps/v1, batch/v1, networking.k8s.io/v1 and policy/v1
   (internal/adapter/kubernetes/inventory.go:22-37); custom resources have their own groups.
   */
  predicate Listed(o: Object) {
    match o.kind
    case Deployment => "apps/" <= o.apiVersion ==> o.apiVersion == "apps/v1"
    case StatefulSet => "apps/" <= o.apiVersion ==> o.apiVersion == "apps/v1"
    case DaemonSet => "apps/" <= o.apiVersion ==> o.apiVersion == "apps/v1"
    case CronJob => o.apiVersion != "batch/v1beta1"
    case Ingress => o.apiVersion !in {"extensions/v1beta1", "networking.k8s.io/v1beta1"}
    case PersistentVolumeClaim => o.apiVersion == "v1"
    case OtherKind(name) => name == "PodDisruptionBudget" ==> o.apiVersion != "policy/v1beta1"
    case _ => true
  }

  lemma ListedVersionsStay(o: Object)
    requires Listed(o)
    ensures TargetApiVersion(o.apiVersion, o.kind) == o.apiVersion == ConvertedVersion(o.apiVersion, o.kind)
  {
    assert "apps/" <= "apps/v1beta1" && "apps/" <= "apps/v1beta2";
    assert |"apps/v1beta1"| != |"apps/v1"| && |"apps/v1beta2"| != |"apps/v1"|;
  }

  /** A namespace as it is listed: an object is named by API version, kind and name. */
  ghost predicate OneApplication(objects: seq<Object>) {
    && (forall o :: o in objects ==> Covered(o))
    && (forall a, b :: a in objects && b in objects ==> a.namespace == b.namespace)
    && (forall a, b :: a in objects && b in objects && a.apiVersion == b.apiVersion && a.kind == b.kind && a.name == b.name ==> a == b)
  }

  /** A role is in the binding's namespace or in none, an owner in the object's. */
  ghost predicate DependenciesWellFormed(o: Object) {
    && (forall r :: r in Dependencies(o) ==> r.kind != STORAGE_CLASS)
    && (forall r :: r in o.references ==> r.namespace in {None, Some("")})
    && (forall r :: r in o.owners ==> r.namespace == None)
  }

  ghost predicate NoEmptyRules(values: seq<KeyValue>) { forall rule :: rule in values ==> rule.source != "" && rule.target != "" }

  ghost predicate Usable(profile: Profile) {
    WellFormed(profile) && UniqueExports(profile.nfs) && NoEmptyRules(profile.namespaces) && NoEmptyRules(profile.storage)
  }

  ghost predicate Migratable(objects: seq<Object>, profile: Profile) {
    && OneApplication(objects) && Usable(profile)
    && (forall o :: o in objects ==> OrderFree(o, profile.nodeLabels) && MountsWellFormed(o) && Listed(o) && DependenciesWellFormed(o))
  }

  lemma Parts(objects: seq<Object>, profile: Profile, o: Object)
    requires Migratable(objects, profile) && o in objects
    ensures WellFormed(profile) && UniqueExports(profile.nfs) && NoEmptyRules(profile.namespaces) && NoEmptyRules(profile.storage)
    ensures Covered(o) && OrderFree(o, profile.nodeLabels) && MountsWellFormed(o) && Listed(o) && DependenciesWellFormed(o)
  {
    hide WellFormed, UniqueExports, NoEmptyRules, OrderFree, MountsWellFormed, Listed, DependenciesWellFormed;
  }

  /** Every object is transformed, and nothing else is in the target namespace. */
  ghost function TransformedAll(objects: seq<Object>, profile: Profile): seq<Object> {
    seq(|objects|, i requires 0 <= i < |objects| => Transformed(objects[i], profile))
  }

  lemma TransformedAllAre(objects: seq<Object>, profile: Profile, t: Object)
    ensures t in TransformedAll(objects, profile) <==> exists o :: o in objects && t == Transformed(o, profile)
  {
    hide Transformed;
    var all := TransformedAll(objects, profile);
    if o :| o in objects && t == Transformed(o, profile) {
      var i :| 0 <= i < |objects| && objects[i] == o;
      assert all[i] == t;
    }
    if t in all {
      var i :| 0 <= i < |all| && all[i] == t;
      assert objects[i] in objects;
    }
  }

  /** Where a listed object ends up: the planned and the transformed one have the same ID. */
  lemma ObjectMoves(o: Object, profile: Profile)
    requires WellFormed(profile) && Covered(o) && Listed(o)
    ensures var t := Transformed(o, profile);
            && Covered(t) && t.apiVersion == o.apiVersion && t.kind == o.kind && t.name == o.name
            && t.namespace == MappedValue(o.namespace, profile.namespaces)
            && PlannedNode(ObjectNode(false, o), profile).id == ObjectNode(true, t).id
  {
    hide Transformed, ObjectAttributes, PlannedAttributes, PlannedChanges, WellFormed, TargetApiVersion, ConvertedVersion, MappedValue, KeyValueMap, Listed;
    TransformedFields(o, profile);
    ListedVersionsStay(o);
    NamespacesAgree(o.namespace, profile);
  }

  lemma TransformKeepsItApart(objects: seq<Object>, profile: Profile)
    requires Migratable(objects, profile)
    ensures OneApplication(TransformedAll(objects, profile))
  {
    hide Transformed, TransformedAll, ObjectNode, PlannedNode, WellFormed, Listed, MappedValue, Covered, Usable, OrderFree, MountsWellFormed, DependenciesWellFormed;
    forall t | t in TransformedAll(objects, profile)
      ensures exists o :: (o in objects && t == Transformed(o, profile) && Covered(t) && t.apiVersion == o.apiVersion
                           && t.kind == o.kind && t.name == o.name && t.namespace == MappedValue(o.namespace, profile.namespaces))
    {
      TransformedAllAre(objects, profile, t);
      var o :| o in objects && t == Transformed(o, profile);
      Parts(objects, profile, o);
      ObjectMoves(o, profile);
    }
  }

  lemma NodesAreUnique(isTarget: bool, objects: seq<Object>)
    requires OneApplication(objects)
    ensures UniqueIds(Nodes(isTarget, objects))
  {
    hide ObjectAttributes, Classes, Nodes;
    forall a, b | a in Nodes(isTarget, objects) && b in Nodes(isTarget, objects) && a.id == b.id
      ensures a == b
    {
      NodesAre(isTarget, objects, a);
      NodesAre(isTarget, objects, b);
    }
  }

  /** In the graph of one application an ID names one node. */
  lemma OneNodePerId(isTarget: bool, objects: seq<Object>)
    requires OneApplication(objects)
    ensures UniqueIds(GraphNodes(isTarget, objects))
  {
    hide Nodes, AllReferenceNodes, AddMissing, UniqueIds;
    NodesAreUnique(isTarget, objects);
    AddMissingStaysUnique(Nodes(isTarget, objects), AllReferenceNodes(isTarget, objects));
  }

  // ---------------------------------------------------------------- what the transform does to dependencies

  function Moved(r: Reference, profile: Profile): Reference { r.(namespace := MappedField(r.namespace, profile.namespaces)) }

  function MovedAll(references: seq<Reference>, profile: Profile): seq<Reference> {
    seq(|references|, i requires 0 <= i < |references| => Moved(references[i], profile))
  }

  lemma LookupIsFilled(values: seq<KeyValue>, value: string)
    requires UniqueSources(values) && NoEmptyRules(values)
    ensures Lookup(value, KeyValueMap(values)) == "" <==> value == ""
  {
    FirstIsLast(values, value);
    EmptyIsUnmapped(values);
    if value != "" {
      TargetIsNotEmpty(values, value);
    }
  }

  lemma {:induction false} TargetIsNotEmpty(values: seq<KeyValue>, value: string)
    requires value != "" && NoEmptyRules(values)
    ensures MappedValue(value, values) != ""
  {
    if values != [] && values[0].source != value {
      TargetIsNotEmpty(values[1..], value);
    }
  }

  lemma SubjectMoves(subject: Subject, profile: Profile)
    requires WellFormed(profile) && NoEmptyRules(profile.namespaces)
    ensures SubjectReference(MappedSubject(subject, profile.namespaces)) == MovedAll(SubjectReference(subject), profile)
  {
    hide KeyValueMap, Lookup, NoEmptyRules;
    LookupIsFilled(profile.namespaces, Or(subject.namespace, ""));
  }

  function MappedSubjects(subjects: seq<Subject>, profile: Profile): seq<Subject> {
    seq(|subjects|, i requires 0 <= i < |subjects| => MappedSubject(subjects[i], profile.namespaces))
  }

  lemma {:induction false} SubjectsMove(subjects: seq<Subject>, profile: Profile)
    requires WellFormed(profile) && NoEmptyRules(profile.namespaces)
    ensures SubjectReferences(MappedSubjects(subjects, profile)) == MovedAll(SubjectReferences(subjects), profile)
  {
    hide SubjectReference, MappedSubject, WellFormed, NoEmptyRules, Moved;
    if subjects != [] {
      var n := |subjects| - 1;
      SubjectsMove(subjects[..n], profile);
      SubjectMoves(subjects[n], profile);
      assert MappedSubjects(subjects, profile)[..n] == MappedSubjects(subjects[..n], profile);
    }
  }

  /** The transform removes the owners and moves every other dependency with its namespace. */
  lemma DependenciesMove(o: Object, profile: Profile)
    requires WellFormed(profile) && NoEmptyRules(profile.namespaces) && DependenciesWellFormed(o)
    ensures Dependencies(Transformed(o, profile)) == MovedAll(Named(o), profile)
  {
    hide Transformed, WellFormed, NoEmptyRules, MappedSubjects, SubjectReferences, DependenciesWellFormed, Moved;
    KeptFields(o, profile);
    SubjectsMove(o.subjects, profile);
    ReferencesStay(o, profile);
    var subjects := if o.kind == ROLE_BINDING then SubjectReferences(o.subjects) else [];
    assert MovedAll(o.references + subjects, profile) == MovedAll(o.references, profile) + MovedAll(subjects, profile);
    assert [] + Named(Transformed(o, profile)) == Named(Transformed(o, profile));
  }

  lemma KeptFields(o: Object, profile: Profile)
    ensures var t := Transformed(o, profile);
            t.kind == o.kind && t.owners == [] && t.references == o.references && t.subjects == MappedSubjects(o.subjects, profile)
  {
    hide Transformed, MappedSubject, MappedField, KeyValueMap, ConvertedVersion, MappedContainers, MappedVolumes, Lookup;
    TransformedFields(o, profile);
  }

  lemma ReferencesStay(o: Object, profile: Profile)
    requires WellFormed(profile) && NoEmptyRules(profile.namespaces) && DependenciesWellFormed(o)
    ensures MovedAll(o.references, profile) == o.references
  {
    hide KeyValueMap, Lookup, NoEmptyRules, WellFormed;
    Unique(profile);
    LookupIsFilled(profile.namespaces, "");
    forall i | 0 <= i < |o.references|
      ensures Moved(o.references[i], profile) == o.references[i]
    {
      assert o.references[i] in o.references;
    }
  }

  lemma Unique(profile: Profile)
    requires WellFormed(profile)
    ensures UniqueSources(profile.namespaces)
  {
  }

  /** The planned node of a dependency has the identity the moved dependency has on the target. */
  lemma DependencyIsPlanned(o: Object, profile: Profile, r: Reference)
    requires WellFormed(profile) && NoEmptyRules(profile.namespaces) && Covered(o) && Listed(o) && r.kind != STORAGE_CLASS
    ensures IdentityOf(PlannedNode(ReferenceNode(false, o.namespace, r), profile))
            == IdentityOf(ReferenceNode(true, Transformed(o, profile).namespace, Moved(r, profile)))
  {
    hide Transformed, ObjectNode, PlannedAttributes, PlannedChanges, WellFormed, TargetApiVersion, MappedValue, KeyValueMap, Listed, NoEmptyRules;
    ObjectMoves(o, profile);
    NamespacesAgree(Or(r.namespace, o.namespace), profile);
  }
}
