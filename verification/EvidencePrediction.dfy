/**
 Predicting what the transform will do to a resource (mappingChangesForNode,
 internal/migration/evidence_service.go:442-469, 569-648) from what the inventory shows
 of it (internal/adapter/kubernetes/inventory.go:235-282, 446-457, 610-626), and the
 agreement of that prediction with the transform (internal/transform/rules.go).
 */
module EvidencePrediction {
  import opened Wrappers
  import opened ImagePrefixes
  import NodeLabels
  import opened NodeSelection
  import opened Manifests
  import opened Topology

  lemma {:induction false} LessSteps(a: string, b: string, c: string)
    requires Less(a, b) && Less(b, c)
    ensures Less(a, c)
  {
    if a != [] && a[0] == b[0] == c[0] {
      LessSteps(a[1..], b[1..], c[1..]);
    }
  }

  lemma {:induction false} LessOrMore(a: string, b: string)
    ensures Less(a, b) || Less(b, a) || a == b
  {
    if a != [] && b != [] && a[0] == b[0] {
      LessOrMore(a[1..], b[1..]);
      assert a == [a[0]] + a[1..] && b == [b[0]] + b[1..];
    }
  }

  predicate Ascending(values: seq<string>) { forall i, j :: 0 <= i < j < |values| ==> Less(values[i], values[j]) }

  lemma {:induction false} InsertKeepsOrder(value: string, sorted: seq<string>)
    requires Ascending(sorted)
    ensures Ascending(Insert(value, sorted))
  {
    hide Less;
    if sorted != [] && sorted[0] != value {
      if Less(value, sorted[0]) {
        forall j | 0 <= j < |sorted|
          ensures Less(value, sorted[j])
        {
          if j > 0 {
            LessSteps(value, sorted[0], sorted[j]);
          }
        }
      } else {
        LessOrMore(value, sorted[0]);
        InsertKeepsOrder(value, sorted[1..]);
        var rest := Insert(value, sorted[1..]);
        assert sorted == [sorted[0]] + sorted[1..];
        forall j | 0 <= j < |rest|
          ensures Less(sorted[0], rest[j])
        {
          InsertAdds(value, sorted[1..], rest[j]);
        }
      }
    }
  }

  /** Strictly ascending, so without duplicates. */
  lemma {:induction false} UniqueSortedAscends(values: seq<string>)
    ensures Ascending(UniqueSorted(values))
  {
    hide Ascending;
    if values == [] {
      assert Ascending([]) by { NothingAscends(); }
    } else {
      UniqueSortedAscends(values[..|values| - 1]);
      if values[|values| - 1] != "" {
        InsertKeepsOrder(values[|values| - 1], UniqueSorted(values[..|values| - 1]));
      }
    }
  }

  lemma NothingAscends()
    ensures Ascending([])
  {
  }

  // ---------------------------------------------------------------- the inventory

  predicate Less(a: string, b: string) {
    b != [] && (a == [] || a[0] < b[0] || (a[0] == b[0] && Less(a[1..], b[1..])))
  }

  function Insert(value: string, sorted: seq<string>): seq<string> {
    if sorted == [] then [value]
    else if sorted[0] == value then sorted
    else if Less(value, sorted[0]) then [value] + sorted
    else [sorted[0]] + Insert(value, sorted[1..])
  }

  /** Without duplicates and without the empty string. */
  function UniqueSorted(values: seq<string>): seq<string> {
    if values == [] then []
    else if values[|values| - 1] == "" then UniqueSorted(values[..|values| - 1])
    else Insert(values[|values| - 1], UniqueSorted(values[..|values| - 1]))
  }

  lemma {:induction false} InsertAdds(value: string, sorted: seq<string>, x: string)
    ensures x in Insert(value, sorted) <==> x == value || x in sorted
  {
    if sorted != [] {
      InsertAdds(value, sorted[1..], x);
      assert sorted == [sorted[0]] + sorted[1..];
    }
  }

  lemma {:induction false} UniqueSortedKeepsMembers(values: seq<string>, x: string)
    ensures x in UniqueSorted(values) <==> x in values && x != ""
  {
    if values != [] {
      var n := |values| - 1;
      UniqueSortedKeepsMembers(values[..n], x);
      InsertAdds(values[n], UniqueSorted(values[..n]), x);
      assert values == values[..n] + [values[n]];
    }
  }

  predicate IsWorkload(kind: Kind) {
    kind.Deployment? || kind.StatefulSet? || kind.DaemonSet? || kind.Job? || kind.CronJob?
  }

  /** The Pod specification the inventory looks at. */
  function PodSpecOf(o: Object): Option<Template> {
    if IsWorkload(o.kind) then o.template else None
  }

  function Image(container: Container): string { Or(container.image, "") }

  function Images(containers: seq<Container>): seq<string> {
    seq(|containers|, i requires 0 <= i < |containers| => Image(containers[i]))
  }

  function PodImages(o: Object): seq<string> {
    if PodSpecOf(o).None? then []
    else UniqueSorted(Images(PodSpecOf(o).value.initContainers) + Images(PodSpecOf(o).value.containers))
  }

  function Export(nfs: Nfs): string { nfs.server + ":" + nfs.path }

  function VolumeExport(volume: Volume): string {
    if volume.nfs.None? || volume.nfs.value.server == "" || volume.nfs.value.path == "" then "" else Export(volume.nfs.value)
  }

  function Exports(volumes: seq<Volume>): seq<string> {
    seq(|volumes|, i requires 0 <= i < |volumes| => VolumeExport(volumes[i]))
  }

  function PodNfsSources(o: Object): seq<string> {
    if PodSpecOf(o).None? then [] else UniqueSorted(Exports(PodSpecOf(o).value.volumes))
  }

  function Selectors(o: Object): map<string, string> {
    if PodSpecOf(o).None? then map[] else Or(PodSpecOf(o).value.placement.nodeSelector, map[])
  }

  function NonEmpty(values: seq<string>): Option<seq<string>> { if values == [] then None else Some(values) }

  function ObjectAttributes(o: Object): Attributes {
    Attributes(
      NonEmpty(PodImages(o)), if Selectors(o) == map[] then None else Some(Selectors(o)), NonEmpty(PodNfsSources(o)),
      if o.kind.Ingress? && Or(o.ingressClass, "") != "" then o.ingressClass else None,
      if o.kind.PersistentVolumeClaim? then Some(Or(o.storageClass, "")) else None,
      None, None, None, None, None)
  }

  function MakeNode(isTarget: bool, apiVersion: string, kind: Kind, namespace: string, name: string, status: Status, attributes: Attributes): GraphNode {
    GraphNode(NodeId(isTarget, apiVersion, kind, namespace, name), apiVersion, kind, namespace, name, true, status, attributes, [])
  }

  /** The graph node of an inventoried object; labels and replica counts play no part here. */
  function ObjectNode(isTarget: bool, o: Object): GraphNode {
    MakeNode(isTarget, o.apiVersion, o.kind, o.namespace, o.name, if isTarget then Created else Discovered, ObjectAttributes(o))
  }

  /** A claim depends on the cluster-wide class it names. */
  function ClassNode(isTarget: bool, name: string): GraphNode {
    MakeNode(isTarget, "storage.k8s.io/v1", STORAGE_CLASS, "", name, if isTarget then Created else Discovered, NO_ATTRIBUTES)
  }

  lemma OneMoreValue(values: seq<string>, value: string)
    ensures UniqueSorted(values + [value]) == if value == "" then UniqueSorted(values) else Insert(value, UniqueSorted(values))
  {
  }

  method CollectPodImages(spec: Template) returns (images: seq<string>)
    ensures images == UniqueSorted(Images(spec.initContainers) + Images(spec.containers))
  {
    hide UniqueSorted;
    var values: seq<string> := [];
    var all := spec.initContainers + spec.containers;
    assert Images(all[..0]) == [];
    for i := 0 to |all|
      invariant UniqueSorted(values) == UniqueSorted(Images(all[..i]))
    {
      assert Images(all[..i + 1]) == Images(all[..i]) + [Image(all[i])];
      OneMoreValue(Images(all[..i]), Image(all[i]));
      if Image(all[i]) != "" {
        OneMoreValue(values, Image(all[i]));
        values := values + [Image(all[i])];
      }
    }
    assert Images(all[..|all|]) == Images(spec.initContainers) + Images(spec.containers);
    images := UniqueSorted(values);
  }

  method CollectPodNfsSources(volumes: seq<Volume>) returns (sources: seq<string>)
    ensures sources == UniqueSorted(Exports(volumes))
  {
    hide UniqueSorted;
    var values: seq<string> := [];
    assert Exports(volumes[..0]) == [];
    for i := 0 to |volumes|
      invariant UniqueSorted(values) == UniqueSorted(Exports(volumes[..i]))
    {
      assert Exports(volumes[..i + 1]) == Exports(volumes[..i]) + [VolumeExport(volumes[i])];
      OneMoreValue(Exports(volumes[..i]), VolumeExport(volumes[i]));
      if volumes[i].nfs.Some? && volumes[i].nfs.value.server != "" && volumes[i].nfs.value.path != "" {
        OneMoreValue(values, VolumeExport(volumes[i]));
        values := values + [Export(volumes[i].nfs.value)];
      }
    }
    assert volumes[..|volumes|] == volumes;
    sources := UniqueSorted(values);
  }

  // ---------------------------------------------------------------- the prediction

  function TargetApiVersion(version: string, kind: Kind): string {
    if kind.Ingress? && version in {"extensions/v1beta1", "networking.k8s.io/v1beta1"} then "networking.k8s.io/v1"
    else if (kind.Deployment? || kind.StatefulSet? || kind.DaemonSet?) && "apps/" <= version && version != "apps/v1" then "apps/v1"
    else version
  }

  predicate Explicit(source: string, values: seq<KeyValue>) { exists rule :: rule in values && rule.source == source }

  function ClassChange(from: string, values: seq<KeyValue>): seq<Change> {
    if from != "" && (from != MappedValue(from, values) || Explicit(from, values))
    then [Change(StorageClassChange, from, MappedValue(from, values), None)] else []
  }

  function ImageChanges(images: seq<string>, rules: seq<KeyValue>): seq<Change> {
    if images == [] then []
    else
      var image := images[|images| - 1];
      ImageChanges(images[..|images| - 1], rules) +
      (if RewritePrefix(image, rules) != image then [Change(ImageChange, image, RewritePrefix(image, rules), None)] else [])
  }

  function LabelChanges(selectors: map<string, string>, mappings: seq<NodeLabels.LabelMapping>): seq<Change> {
    if mappings == [] then []
    else
      var item := mappings[|mappings| - 1];
      LabelChanges(selectors, mappings[..|mappings| - 1]) +
      (if item.source in selectors then [Change(NodeLabelChange, item.source, if item.action.Drop? then DROPPED else item.target, None)] else [])
  }

  function ExportChanges(source: string, mappings: seq<NfsMapping>): seq<Change> {
    if mappings == [] then []
    else
      var item := mappings[|mappings| - 1];
      ExportChanges(source, mappings[..|mappings| - 1]) +
      (if source == Export(item.source) then [Change(NfsChange, source, Export(item.target), None)] else [])
  }

  function NfsChanges(sources: seq<string>, mappings: seq<NfsMapping>): seq<Change> {
    if sources == [] then []
    else NfsChanges(sources[..|sources| - 1], mappings) + ExportChanges(sources[|sources| - 1], mappings)
  }

  function MetadataChanges(node: GraphNode, profile: Profile): seq<Change> {
    var namespace, version := MappedValue(node.namespace, profile.namespaces), TargetApiVersion(node.apiVersion, node.kind);
    (if namespace != node.namespace then [Change(NamespaceChange, node.namespace, namespace, None)] else []) +
    (if version != node.apiVersion then [Change(ApiVersionChange, node.apiVersion, version, None)] else [])
  }

  function ClassChanges(node: GraphNode, profile: Profile): seq<Change> {
    if node.kind.PersistentVolumeClaim? then ClassChange(Or(node.attributes.storageClass, ""), profile.storage)
    else if node.kind == STORAGE_CLASS then ClassChange(node.name, profile.storage)
    else if node.kind.Ingress? then
      var from := Or(node.attributes.ingressClass, "");
      var to := MappedValue(from, profile.ingress);
      if from != to then [Change(IngressClassChange, from, to, None)] else []
    else []
  }

  function PodChanges(node: GraphNode, profile: Profile): seq<Change> {
    ImageChanges(Or(node.attributes.images, []), profile.registries) +
    (if IsWorkload(node.kind) then LabelChanges(Or(node.attributes.nodeSelectors, map[]), profile.nodeLabels) else []) +
    NfsChanges(Or(node.attributes.nfsSources, []), profile.nfs)
  }

  function PlannedChanges(node: GraphNode, profile: Profile): seq<Change> {
    MetadataChanges(node, profile) + ClassChanges(node, profile) + PodChanges(node, profile)
  }

  function PlannedName(node: GraphNode, profile: Profile): string {
    if node.kind == STORAGE_CLASS && ClassChange(node.name, profile.storage) != [] then MappedValue(node.name, profile.storage) else node.name
  }

  function Rewritten(images: seq<string>, rules: seq<KeyValue>): seq<string> {
    seq(|images|, i requires 0 <= i < |images| => RewritePrefix(images[i], rules))
  }

  function PlannedAttributes(node: GraphNode, profile: Profile): Attributes {
    var a := node.attributes;
    a.(images := if a.images.Some? then Some(Rewritten(a.images.value, profile.registries)) else None,
       storageClass :=
         if node.kind.PersistentVolumeClaim? && ClassChanges(node, profile) != [] then Some(MappedValue(Or(a.storageClass, ""), profile.storage)) else a.storageClass,
       ingressClass :=
         if node.kind.Ingress? && ClassChanges(node, profile) != [] then Some(MappedValue(Or(a.ingressClass, ""), profile.ingress)) else a.ingressClass)
  }

  /** The node planned for a source node. */
  function PlannedNode(node: GraphNode, profile: Profile): GraphNode {
    var version, namespace, name := TargetApiVersion(node.apiVersion, node.kind), MappedValue(node.namespace, profile.namespaces), PlannedName(node, profile);
    GraphNode(NodeId(true, version, node.kind, namespace, name), version, node.kind, namespace, name,
              node.required, Planned, PlannedAttributes(node, profile), PlannedChanges(node, profile))
  }

  // ---------------------------------------------------------------- in loops, as the source does it

  method CollectImageChanges(images: seq<string>, rules: seq<KeyValue>) returns (mapped: seq<string>, changes: seq<Change>)
    ensures mapped == Rewritten(images, rules) && changes == ImageChanges(images, rules)
  {
    mapped, changes := [], [];
    for i := 0 to |images|
      invariant mapped == Rewritten(images[..i], rules) && changes == ImageChanges(images[..i], rules)
    {
      assert images[..i + 1][..i] == images[..i];
      var next := RewritePrefix(images[i], rules);
      mapped := mapped + [next];
      if next != images[i] {
        changes := changes + [Change(ImageChange, images[i], next, None)];
      }
    }
    assert images[..|images|] == images;
  }

  method CollectLabelChanges(selectors: map<string, string>, mappings: seq<NodeLabels.LabelMapping>) returns (changes: seq<Change>)
    ensures changes == LabelChanges(selectors, mappings)
  {
    changes := [];
    for i := 0 to |mappings|
      invariant changes == LabelChanges(selectors, mappings[..i])
    {
      assert mappings[..i + 1][..i] == mappings[..i];
      if mappings[i].source in selectors {
        var target := if mappings[i].action.Drop? then DROPPED else mappings[i].target;
        changes := changes + [Change(NodeLabelChange, mappings[i].source, target, None)];
      }
    }
    assert mappings[..|mappings|] == mappings;
  }

  method CollectNfsChanges(sources: seq<string>, mappings: seq<NfsMapping>) returns (changes: seq<Change>)
    ensures changes == NfsChanges(sources, mappings)
  {
    changes := [];
    for i := 0 to |sources|
      invariant changes == NfsChanges(sources[..i], mappings)
    {
      assert sources[..i + 1][..i] == sources[..i];
      ghost var before := changes;
      for j := 0 to |mappings|
        invariant changes == before + ExportChanges(sources[i], mappings[..j])
      {
        assert mappings[..j + 1][..j] == mappings[..j];
        if sources[i] == Export(mappings[j].source) {
          changes := changes + [Change(NfsChange, sources[i], Export(mappings[j].target), None)];
        }
      }
      assert mappings[..|mappings|] == mappings;
    }
    assert sources[..|sources|] == sources;
  }

  // ---------------------------------------------------------------- the transform

  function ConvertedVersion(version: string, kind: Kind): string {
    match kind
    case Ingress => if version in {"extensions/v1beta1", "networking.k8s.io/v1beta1"} then "networking.k8s.io/v1" else version
    case Deployment => if version in {"apps/v1beta1", "apps/v1beta2"} then "apps/v1" else version
    case CronJob => if version == "batch/v1beta1" then "batch/v1" else version
    case OtherKind(name) => if name == "PodDisruptionBudget" && version == "policy/v1beta1" then "policy/v1" else version
    case _ => version
  }

  const RUNTIME_ANNOTATIONS := {"kubectl.kubernetes.io/last-applied-configuration", "deployment.kubernetes.io/revision"}

  function Cleaned(o: Object): Object {
    o.(annotations := o.annotations - RUNTIME_ANNOTATIONS, owners := [], apiVersion := ConvertedVersion(o.apiVersion, o.kind))
  }

  ghost function Transformed(o: Object, profile: Profile): Object {
    NfsMapped(
      NodeLabelMapped(
        RegistryMapped(
          IngressMapped(
            StorageMapped(
              NamespaceMapped(Cleaned(o), profile.namespaces),
              profile.storage),
            profile.ingress),
          profile.registries),
        profile.nodeLabels),
      profile.nfs)
  }

  /** Everything the inventory of a namespace lists: not the namespace itself, nor what belongs to the cluster. */
  predicate Covered(o: Object) { !o.kind.NamespaceKind? && !o.kind.PersistentVolume? && o.kind != STORAGE_CLASS }

  /** What profile validation and the Kubernetes naming rules give. */
  ghost predicate WellFormed(profile: Profile) {
    && UniqueSources(profile.namespaces) && UniqueSources(profile.storage) && UniqueSources(profile.ingress)
    && (forall rule :: rule in profile.ingress ==> rule.source != "")
    && (forall rule :: rule in profile.registries ==> Target(rule) != "")
    && NodeLabels.Validated(profile.nodeLabels)
    && (forall m :: m in profile.nodeLabels ==> m.target != DROPPED)
    && (forall m :: m in profile.nfs ==> Mountable(m.source) && Mountable(m.target))
  }

  /** A server name holds no slash and an export starts with one. */
  predicate Mountable(nfs: Nfs) { nfs.server != "" && '/' !in nfs.server && nfs.path != "" && nfs.path[0] == '/' }

  ghost predicate MountsWellFormed(o: Object) {
    PodSpecOf(o).Some? ==> forall v :: v in PodSpecOf(o).value.volumes && VolumeExport(v) != "" ==> Mountable(v.nfs.value)
  }

  // ---------------------------------------------------------------- the transform, field by field

  lemma TransformedFields(o: Object, profile: Profile)
    ensures var t := Transformed(o, profile);
            && t.kind == o.kind
            && t.namespace == Lookup(o.namespace, KeyValueMap(profile.namespaces))
            && (!o.kind.NamespaceKind? ==> t.name == o.name)
            && (o.kind.Ingress? ==> t.ingressClass == MappedField(o.ingressClass, profile.ingress))
            && (!o.kind.PersistentVolume? ==> t.storageClass == MappedField(o.storageClass, profile.storage))
            && t.apiVersion == ConvertedVersion(o.apiVersion, o.kind)
            && t.references == o.references && t.owners == []
            && t.subjects == NamespaceMapped(o, profile.namespaces).subjects
            && t.template ==
               if !HasTemplate(o.kind) || o.template.None? then o.template
               else
                 var p := o.template.value;
                 Some(Template(MappedContainers(p.initContainers, profile.registries), MappedContainers(p.containers, profile.registries),
                               MappedVolumes(p.volumes, profile.nfs), RewrittenPlacement(p.placement, profile.nodeLabels)))
  {
    hide RewrittenPlacement, MappedContainers, MappedVolumes, FindNfs, MappedAnnotations, KeyValueMap, MappedField, ConvertedVersion, RewriteNfs;
  }

  lemma ImagesAreRewritten(containers: seq<Container>, rules: seq<KeyValue>, image: string)
    requires image in Images(containers) && image != ""
    ensures RewritePrefix(image, rules) in Images(MappedContainers(containers, rules))
  {
    hide RewritePrefix;
    var i :| 0 <= i < |containers| && Images(containers)[i] == image;
    assert Images(MappedContainers(containers, rules))[i] == RewritePrefix(image, rules);
  }

  // ---------------------------------------------------------------- each planned change shows

  lemma {:induction false} AnImageChange(images: seq<string>, rules: seq<KeyValue>, change: Change)
    requires change in ImageChanges(images, rules)
    ensures change.changeType == ImageChange && change.source in images && change.target == RewritePrefix(change.source, rules)
  {
    var n := |images| - 1;
    if change in ImageChanges(images[..n], rules) {
      AnImageChange(images[..n], rules, change);
    }
  }

  lemma {:induction false} ALabelChange(selectors: map<string, string>, mappings: seq<NodeLabels.LabelMapping>, change: Change) returns (i: nat)
    requires change in LabelChanges(selectors, mappings)
    ensures i < |mappings| && mappings[i].source in selectors
    ensures change == Change(NodeLabelChange, mappings[i].source, if mappings[i].action.Drop? then DROPPED else mappings[i].target, None)
  {
    var n := |mappings| - 1;
    if change in LabelChanges(selectors, mappings[..n]) {
      i := ALabelChange(selectors, mappings[..n], change);
    } else {
      i := n;
    }
  }

  lemma {:induction false} AnExportChange(source: string, mappings: seq<NfsMapping>, change: Change)
    requires change in ExportChanges(source, mappings)
    ensures change.changeType == NfsChange && exists m :: m in mappings && source == Export(m.source) && change.target == Export(m.target)
  {
    var n := |mappings| - 1;
    if change in ExportChanges(source, mappings[..n]) {
      AnExportChange(source, mappings[..n], change);
    } else {
      assert mappings[n] in mappings;
    }
  }

  lemma {:induction false} AnNfsChange(sources: seq<string>, mappings: seq<NfsMapping>, change: Change)
    requires change in NfsChanges(sources, mappings)
    ensures change.changeType == NfsChange
    ensures exists source, m :: source in sources && m in mappings && source == Export(m.source) && change.target == Export(m.target)
  {
    var n := |sources| - 1;
    if change in NfsChanges(sources[..n], mappings) {
      AnNfsChange(sources[..n], mappings, change);
      var source, m :| source in sources[..n] && m in mappings && source == Export(m.source) && change.target == Export(m.target);
      assert source in sources;
    } else {
      AnExportChange(sources[n], mappings, change);
      assert sources[n] in sources;
    }
  }

  lemma ImageChangesShow(o: Object, profile: Profile, change: Change)
    requires WellFormed(profile) && IsWorkload(o.kind)
    requires change in ImageChanges(PodImages(o), profile.registries)
    ensures change.changeType == ImageChange && change.target in PodImages(Transformed(o, profile))
  {
    hide RewritePrefix, UniqueSorted, RewrittenPlacement, Transformed;
    AnImageChange(PodImages(o), profile.registries, change);
    TransformedFields(o, profile);
    var before, after := o.template.value, Transformed(o, profile).template.value;
    UniqueSortedKeepsMembers(Images(before.initContainers) + Images(before.containers), change.source);
    if change.source in Images(before.initContainers) {
      ImagesAreRewritten(before.initContainers, profile.registries, change.source);
    } else {
      ImagesAreRewritten(before.containers, profile.registries, change.source);
    }
    RewrittenIsNotEmpty(change.source, profile.registries);
    UniqueSortedKeepsMembers(Images(after.initContainers) + Images(after.containers), change.target);
  }

  lemma {:induction false} RewrittenIsNotEmpty(image: string, rules: seq<KeyValue>)
    requires image != "" && forall rule :: rule in rules ==> Target(rule) != ""
    ensures RewritePrefix(image, rules) != ""
  {
    if rules != [] && !PathPrefix(Source(rules[0]), image) {
      RewrittenIsNotEmpty(image, rules[1..]);
    }
  }

  lemma {:induction false} TheMappingOf(mappings: seq<NodeLabels.LabelMapping>, i: nat)
    requires forall a, b :: 0 <= a < b < |mappings| ==> mappings[a].source != mappings[b].source
    requires i < |mappings|
    ensures NodeLabels.LabelTarget(mappings[i].source, mappings) ==
            match mappings[i].action
            case Map => NodeLabels.MapTo(mappings[i].target)
            case Drop => NodeLabels.Dropped
            case Other => NodeLabels.Keep
  {
    if i > 0 {
      TheMappingOf(mappings[1..], i - 1);
    }
  }

  lemma LabelChangesShow(o: Object, profile: Profile, change: Change)
    requires WellFormed(profile) && IsWorkload(o.kind) && OrderFree(o, profile.nodeLabels)
    requires change in LabelChanges(Selectors(o), profile.nodeLabels)
    ensures change.changeType == NodeLabelChange
    ensures if change.target == DROPPED then change.source !in Selectors(Transformed(o, profile)) else change.target in Selectors(Transformed(o, profile))
  {
    hide Transformed, NodeLabels.Renaming, NodeLabels.ValueAt, NodeLabels.Validated, NodeLabels.DistinctTargets;
    var values, labels := profile.nodeLabels, Selectors(o);
    var i := ALabelChange(labels, values, change);
    assert values[i] in values;
    assert NodeLabels.Validated(values);
    ValidatedParts(values);
    TheMappingOf(values, i);
    TransformedFields(o, profile);
    NodeLabels.ValidatedHasDistinctTargets(values);
    assert NodeLabels.NoChain(labels, values);
    if values[i].action.Drop? {
      NodeLabels.NobodyMapsOntoAnActiveLabel(labels, labels.Keys - {change.source}, change.source, values);
      NodeLabels.RenamingDomain(labels, labels.Keys, values, change.source);
      assert !NodeLabels.HitBy(change.source, labels.Keys, values);
    } else {
      NodeLabels.RenamingMoves(labels, labels.Keys, values, change.source);
    }
  }

  lemma ValidatedParts(values: seq<NodeLabels.LabelMapping>)
    requires NodeLabels.Validated(values)
    ensures forall a, b :: 0 <= a < b < |values| ==> values[a].source != values[b].source
    ensures forall i :: 0 <= i < |values| ==> values[i].action != NodeLabels.Other
  {
  }

  /** Split at the first slash, a server and an export can be read back from their concatenation. */
  lemma ExportsAreUnambiguous(a: Nfs, b: Nfs)
    requires Mountable(a) && Mountable(b) && Export(a) == Export(b)
    ensures a == b
  {
    var text := Export(a);
    assert text[|a.server| + 1] == '/' && forall i :: 0 <= i <= |a.server| ==> text[i] != '/';
    assert text[|b.server| + 1] == '/' && forall i :: 0 <= i <= |b.server| ==> text[i] != '/';
    assert |a.server| == |b.server|;
    assert a.server == text[..|a.server|] == b.server;
    assert a.path == text[|a.server| + 1..] == b.path;
  }

  lemma {:induction false} TheNfsMappingOf(mappings: seq<NfsMapping>, i: nat)
    requires forall a, b :: 0 <= a < b < |mappings| ==> mappings[a].source != mappings[b].source
    requires i < |mappings|
    ensures FindNfs(mappings[i].source, mappings) == Some(mappings[i])
  {
    if i > 0 {
      TheNfsMappingOf(mappings[1..], i - 1);
    }
  }

  ghost predicate UniqueExports(mappings: seq<NfsMapping>) {
    forall a, b :: 0 <= a < b < |mappings| ==> mappings[a].source != mappings[b].source
  }

  lemma MountOf(volumes: seq<Volume>, source: string) returns (k: nat)
    requires source in UniqueSorted(Exports(volumes))
    ensures k < |volumes| && VolumeExport(volumes[k]) == source && source != ""
  {
    UniqueSortedKeepsMembers(Exports(volumes), source);
    k :| 0 <= k < |volumes| && Exports(volumes)[k] == source;
  }

  lemma MappedMountShows(volumes: seq<Volume>, mappings: seq<NfsMapping>, k: nat, m: NfsMapping)
    requires UniqueExports(mappings) && m in mappings && Mountable(m.target)
    requires k < |volumes| && volumes[k].nfs == Some(m.source)
    ensures Export(m.target) in UniqueSorted(Exports(MappedVolumes(volumes, mappings)))
  {
    hide UniqueSorted, FindNfs;
    var i :| 0 <= i < |mappings| && mappings[i] == m;
    TheNfsMappingOf(mappings, i);
    var after := MappedVolumes(volumes, mappings);
    assert after[k].nfs == Some(m.target);
    assert Exports(after)[k] == Export(m.target);
    UniqueSortedKeepsMembers(Exports(after), Export(m.target));
  }

  lemma NfsChangesShow(o: Object, profile: Profile, change: Change)
    requires WellFormed(profile) && UniqueExports(profile.nfs) && IsWorkload(o.kind) && MountsWellFormed(o)
    requires change in NfsChanges(PodNfsSources(o), profile.nfs)
    ensures change.changeType == NfsChange && change.target in PodNfsSources(Transformed(o, profile))
  {
    hide UniqueSorted, RewrittenPlacement, Transformed, FindNfs, NfsChanges, MappedContainers, MappedVolumes, UniqueExports;
    AnNfsChange(PodNfsSources(o), profile.nfs, change);
    var source, m :| source in PodNfsSources(o) && m in profile.nfs && source == Export(m.source) && change.target == Export(m.target);
    TransformedFields(o, profile);
    var volumes := o.template.value.volumes;
    var k := MountOf(volumes, source);
    assert volumes[k] in volumes;
    ExportsAreUnambiguous(volumes[k].nfs.value, m.source);
    MappedMountShows(volumes, profile.nfs, k, m);
  }

  lemma ClassChangesShow(o: Object, profile: Profile, change: Change)
    requires WellFormed(profile) && Covered(o)
    requires change in ClassChanges(ObjectNode(false, o), profile)
    ensures AppearsApplied(change, ObjectNode(true, Transformed(o, profile)))
  {
    hide Transformed, PodImages, PodNfsSources, Selectors, KeyValueMap, MappedValue;
    TransformedFields(o, profile);
    if o.kind.PersistentVolumeClaim? {
      FirstIsLast(profile.storage, Or(o.storageClass, ""));
    } else if o.kind.Ingress? {
      FirstIsLast(profile.ingress, Or(o.ingressClass, ""));
      EmptyIsUnmapped(profile.ingress);
    }
  }

  lemma EmptyIsUnmapped(values: seq<KeyValue>)
    requires forall rule :: rule in values ==> rule.source != ""
    ensures MappedValue("", values) == "" && "" !in KeyValueMap(values)
  {
  }

  /**
   Planned and observed node are matched with each other, and every planned namespace,
   storage, ingress, image, node-label and NFS change is recognised as applied, if the
   target object is what the transform makes of the source object.
   */
  lemma PredictionAgreesWithTransform(o: Object, profile: Profile)
    requires WellFormed(profile) && UniqueExports(profile.nfs)
    requires Covered(o) && OrderFree(o, profile.nodeLabels) && MountsWellFormed(o)
    ensures var planned, actual := PlannedNode(ObjectNode(false, o), profile), ObjectNode(true, Transformed(o, profile));
            && IdentityOf(planned) == IdentityOf(actual)
            && forall change :: change in planned.changes ==> AppearsApplied(change, actual)
  {
    hide Transformed, PodImages, PodNfsSources, Selectors, KeyValueMap, MappedValue, ClassChanges, ImageChanges, LabelChanges, NfsChanges, WellFormed, OrderFree, MountsWellFormed;
    var node, actual := ObjectNode(false, o), ObjectNode(true, Transformed(o, profile));
    TransformedFields(o, profile);
    NamespacesAgree(o.namespace, profile);
    forall change | change in PlannedChanges(node, profile)
      ensures AppearsApplied(change, actual)
    {
      if change in ClassChanges(node, profile) {
        ClassChangesShow(o, profile, change);
      } else if change in PodChanges(node, profile) {
        PodChangesShow(o, profile, change);
      }
    }
  }

  lemma NamespacesAgree(namespace: string, profile: Profile)
    requires WellFormed(profile)
    ensures MappedValue(namespace, profile.namespaces) == Lookup(namespace, KeyValueMap(profile.namespaces))
  {
    FirstIsLast(profile.namespaces, namespace);
  }

  lemma PodChangesShow(o: Object, profile: Profile, change: Change)
    requires WellFormed(profile) && UniqueExports(profile.nfs)
    requires Covered(o) && OrderFree(o, profile.nodeLabels) && MountsWellFormed(o)
    requires change in PodChanges(ObjectNode(false, o), profile)
    ensures AppearsApplied(change, ObjectNode(true, Transformed(o, profile)))
  {
    hide Transformed, PodImages, PodNfsSources, Selectors, WellFormed, OrderFree, MountsWellFormed, LabelChanges, ImageChanges, NfsChanges, UniqueExports;
    NoPodNoChanges(o, profile);
    if change in ImageChanges(PodImages(o), profile.registries) {
      ImageChangesShow(o, profile, change);
    } else if change in NfsChanges(PodNfsSources(o), profile.nfs) {
      NfsChangesShow(o, profile, change);
    } else {
      LabelChangesShow(o, profile, change);
    }
  }

  lemma NoPodNoChanges(o: Object, profile: Profile)
    ensures !IsWorkload(o.kind) ==> ImageChanges(PodImages(o), profile.registries) == [] && NfsChanges(PodNfsSources(o), profile.nfs) == []
    ensures ImageChanges([], profile.registries) == [] && NfsChanges([], profile.nfs) == []
    ensures LabelChanges(map[], profile.nodeLabels) == []
  {
    NoSelectorNoChanges(profile.nodeLabels);
  }

  lemma {:induction false} NoSelectorNoChanges(mappings: seq<NodeLabels.LabelMapping>)
    ensures LabelChanges(map[], mappings) == []
  {
    if mappings != [] {
      NoSelectorNoChanges(mappings[..|mappings| - 1]);
    }
  }
}
