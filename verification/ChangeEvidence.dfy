/**
 When the planned changes of a resource count as applied (mappingAppearsApplied,
 internal/migration/evidence_service.go:957-998), in terms of the object that is found on
 the target; and that every change of a shown field is planned (569-648).
 */
module ChangeEvidence {
  import opened Wrappers
  import opened ImagePrefixes
  import opened NodeSelection
  import opened Manifests
  import opened Topology
  import opened EvidencePrediction
  import opened TopologyMerge

  // ---------------------------------------------------------------- which changes are listed

  lemma {:induction false} ImageChangeIff(images: seq<string>, rules: seq<KeyValue>, change: Change)
    ensures change in ImageChanges(images, rules) <==>
            change.source in images && RewritePrefix(change.source, rules) != change.source && change == Change(ImageChange, change.source, RewritePrefix(change.source, rules), None)
  {
    hide RewritePrefix;
    if images != [] {
      var n := |images| - 1;
      ImageChangeIff(images[..n], rules, change);
      assert images == images[..n] + [images[n]];
    }
  }

  ghost predicate IsLabelChange(m: NodeLabels.LabelMapping, change: Change) {
    change == Change(NodeLabelChange, m.source, if m.action.Drop? then DROPPED else m.target, None)
  }

  lemma {:induction false} LabelChangeIff(selectors: map<string, string>, mappings: seq<NodeLabels.LabelMapping>, change: Change)
    ensures change in LabelChanges(selectors, mappings) <==> exists m :: m in mappings && m.source in selectors && IsLabelChange(m, change)
  {
    if mappings != [] {
      var n := |mappings| - 1;
      LabelChangeIff(selectors, mappings[..n], change);
      assert mappings == mappings[..n] + [mappings[n]];
    }
  }

  ghost predicate IsExportChange(source: string, m: NfsMapping, change: Change) {
    source == Export(m.source) && change == Change(NfsChange, source, Export(m.target), None)
  }

  lemma {:induction false} ExportChangeIff(source: string, mappings: seq<NfsMapping>, change: Change)
    ensures change in ExportChanges(source, mappings) <==> exists m :: m in mappings && IsExportChange(source, m, change)
  {
    hide Export;
    if mappings != [] {
      var n := |mappings| - 1;
      ExportChangeIff(source, mappings[..n], change);
      assert mappings[n] in mappings && forall m :: m in mappings <==> m in mappings[..n] || m == mappings[n];
      assert change in ExportChanges(source, mappings) <==> change in ExportChanges(source, mappings[..n]) || IsExportChange(source, mappings[n], change);
    }
  }

  lemma {:induction false} NfsChangeIff(sources: seq<string>, mappings: seq<NfsMapping>, change: Change)
    ensures change in NfsChanges(sources, mappings) <==> exists source, m :: source in sources && m in mappings && IsExportChange(source, m, change)
  {
    hide ExportChanges, IsExportChange;
    if sources != [] {
      var n := |sources| - 1;
      NfsChangeIff(sources[..n], mappings, change);
      ExportChangeIff(sources[n], mappings, change);
      assert sources == sources[..n] + [sources[n]];
    }
  }

  // ---------------------------------------------------------------- what the target has to show

  /** Every image a rule moves is there under its new name. */
  ghost predicate ImagesShown(o: Object, t: Object, profile: Profile) {
    forall image :: image in PodImages(o) && RewritePrefix(image, profile.registries) != image ==> RewritePrefix(image, profile.registries) in PodImages(t)
  }

  /** Every selected label that is mapped is selected under its new name, every dropped one no longer. */
  ghost predicate LabelsShown(o: Object, t: Object, profile: Profile) {
    IsWorkload(o.kind) ==>
      forall m :: m in profile.nodeLabels && m.source in Selectors(o) ==>
        if m.action.Drop? then m.source !in Selectors(t) else m.target in Selectors(t)
  }

  /** Every mapped export that was mounted is mounted under its new name. */
  ghost predicate ExportsShown(o: Object, t: Object, profile: Profile) {
    forall m :: m in profile.nfs && Export(m.source) in PodNfsSources(o) ==> Export(m.target) in PodNfsSources(t)
  }

  /** A claim that names a class has the mapped one, and so has an Ingress. */
  ghost predicate ClassesShown(o: Object, t: Object, profile: Profile) {
    && (o.kind.PersistentVolumeClaim? && Or(o.storageClass, "") != "" && IsMapped(Or(o.storageClass, ""), profile.storage) ==>
          Or(t.storageClass, "") == MappedValue(Or(o.storageClass, ""), profile.storage))
    && (o.kind.Ingress? && MappedValue(Or(o.ingressClass, ""), profile.ingress) != Or(o.ingressClass, "") ==>
          Or(t.ingressClass, "") == MappedValue(Or(o.ingressClass, ""), profile.ingress))
  }

  ghost predicate IsMapped(value: string, values: seq<KeyValue>) { exists rule :: rule in values && rule.source == value }

  lemma {:induction false} MappedIfChanged(value: string, values: seq<KeyValue>)
    ensures MappedValue(value, values) != value ==> IsMapped(value, values)
  {
    if values != [] && values[0].source != value {
      MappedIfChanged(value, values[1..]);
      assert values == [values[0]] + values[1..];
    } else if values != [] {
      assert values[0] in values;
    }
  }

  ghost predicate AllApplied(changes: seq<Change>, actual: GraphNode) { forall change :: change in changes ==> AppearsApplied(change, actual) }

  lemma ShownImages(o: Object, t: Object, profile: Profile)
    requires t.kind == o.kind
    ensures AllApplied(ImageChanges(PodImages(o), profile.registries), ObjectNode(true, t)) <==> ImagesShown(o, t, profile)
  {
    hide RewritePrefix, PodImages, PodNfsSources, Selectors;
    var changes, node := ImageChanges(PodImages(o), profile.registries), ObjectNode(true, t);
    forall image | image in PodImages(o) && RewritePrefix(image, profile.registries) != image
      ensures Change(ImageChange, image, RewritePrefix(image, profile.registries), None) in changes
    {
      ImageChangeIff(PodImages(o), profile.registries, Change(ImageChange, image, RewritePrefix(image, profile.registries), None));
    }
    forall change | change in changes
      ensures change.source in PodImages(o) && RewritePrefix(change.source, profile.registries) != change.source
      ensures change == Change(ImageChange, change.source, RewritePrefix(change.source, profile.registries), None)
      ensures AppearsApplied(change, node) <==> change.target in PodImages(t)
    {
      ImageChangeIff(PodImages(o), profile.registries, change);
    }
    if AllApplied(changes, node) {
      forall image | image in PodImages(o) && RewritePrefix(image, profile.registries) != image
        ensures RewritePrefix(image, profile.registries) in PodImages(t)
      {
        assert AppearsApplied(Change(ImageChange, image, RewritePrefix(image, profile.registries), None), node);
      }
    }
  }

  lemma ShownLabels(o: Object, t: Object, profile: Profile)
    requires t.kind == o.kind && forall m :: m in profile.nodeLabels ==> m.target != DROPPED
    ensures IsWorkload(o.kind) ==> (AllApplied(LabelChanges(Selectors(o), profile.nodeLabels), ObjectNode(true, t)) <==> LabelsShown(o, t, profile))
  {
    hide PodImages, PodNfsSources, Selectors;
    var changes, node := LabelChanges(Selectors(o), profile.nodeLabels), ObjectNode(true, t);
    forall m: NodeLabels.LabelMapping | m in profile.nodeLabels && m.source in Selectors(o)
      ensures var change := Change(NodeLabelChange, m.source, if m.action.Drop? then DROPPED else m.target, None);
              change in changes && (AppearsApplied(change, node) <==> if m.action.Drop? then m.source !in Selectors(t) else m.target in Selectors(t))
    {
      LabelChangeIff(Selectors(o), profile.nodeLabels, Change(NodeLabelChange, m.source, if m.action.Drop? then DROPPED else m.target, None));
    }
    forall change | change in changes
      ensures exists m :: m in profile.nodeLabels && m.source in Selectors(o) && IsLabelChange(m, change)
    {
      LabelChangeIff(Selectors(o), profile.nodeLabels, change);
    }
  }

  lemma ShownExports(o: Object, t: Object, profile: Profile)
    requires t.kind == o.kind
    ensures AllApplied(NfsChanges(PodNfsSources(o), profile.nfs), ObjectNode(true, t)) <==> ExportsShown(o, t, profile)
  {
    hide PodImages, PodNfsSources, Selectors, Export;
    var changes, node := NfsChanges(PodNfsSources(o), profile.nfs), ObjectNode(true, t);
    forall m | m in profile.nfs && Export(m.source) in PodNfsSources(o)
      ensures var change := Change(NfsChange, Export(m.source), Export(m.target), None);
              change in changes && (AppearsApplied(change, node) <==> Export(m.target) in PodNfsSources(t))
    {
      var change := Change(NfsChange, Export(m.source), Export(m.target), None);
      NfsChangeIff(PodNfsSources(o), profile.nfs, change);
      assert IsExportChange(Export(m.source), m, change);
    }
    forall change | change in changes
      ensures exists m :: m in profile.nfs && Export(m.source) in PodNfsSources(o) && change == Change(NfsChange, Export(m.source), Export(m.target), None)
    {
      NfsChangeIff(PodNfsSources(o), profile.nfs, change);
    }
  }

  lemma ShownClasses(o: Object, t: Object, profile: Profile)
    requires t.kind == o.kind != STORAGE_CLASS
    ensures AllApplied(ClassChanges(ObjectNode(false, o), profile), ObjectNode(true, t)) <==> ClassesShown(o, t, profile)
  {
    hide PodImages, PodNfsSources, Selectors, MappedValue;
    var from := Or(o.storageClass, "");
    MappedIfChanged(from, profile.storage);
    var changes, node := ClassChanges(ObjectNode(false, o), profile), ObjectNode(true, t);
    assert Explicit(from, profile.storage) <==> IsMapped(from, profile.storage);
    if o.kind.PersistentVolumeClaim? {
      assert changes == if from != "" && IsMapped(from, profile.storage) then [Change(StorageClassChange, from, MappedValue(from, profile.storage), None)] else [];
      assert node.attributes.storageClass == Some(Or(t.storageClass, ""));
    } else if o.kind.Ingress? {
      var name := Or(o.ingressClass, "");
      assert changes == if MappedValue(name, profile.ingress) != name then [Change(IngressClassChange, name, MappedValue(name, profile.ingress), None)] else [];
    } else {
      assert changes == [];
    }
    if changes != [] {
      assert changes[0] in changes && forall change :: change in changes ==> change == changes[0];
    }
  }

  /**
   For any object found in the planned place: no planned change of a source object counts
   as drift if and only if the found object shows every moved image, mapped label, mapped
   export and mapped class, and no dropped label.
   */
  lemma NothingUnappliedIffShown(o: Object, t: Object, profile: Profile)
    requires Covered(o) && t.kind == o.kind && t.namespace == MappedValue(o.namespace, profile.namespaces)
    requires forall m :: m in profile.nodeLabels ==> m.target != DROPPED
    ensures Unapplied(PlannedNode(ObjectNode(false, o), profile).changes, ObjectNode(true, t)) == 0 <==>
            ImagesShown(o, t, profile) && LabelsShown(o, t, profile) && ExportsShown(o, t, profile) && ClassesShown(o, t, profile)
  {
    hide PodImages, PodNfsSources, Selectors, MappedValue, ImageChanges, LabelChanges, NfsChanges, ClassChanges, AppearsApplied,
         ImagesShown, LabelsShown, ExportsShown, ClassesShown, TargetApiVersion;
    var node, actual := ObjectNode(false, o), ObjectNode(true, t);
    ShownImages(o, t, profile);
    ShownLabels(o, t, profile);
    ShownExports(o, t, profile);
    ShownClasses(o, t, profile);
    MetadataIsApplied(node, profile, actual);
    NoneUnappliedIff(PlannedNode(node, profile).changes, actual);
    OnlyWorkloadsSelect(o, t, profile);
    assert AllApplied(PlannedChanges(node, profile), actual) <==>
           AllApplied(ImageChanges(PodImages(o), profile.registries), actual) && AllApplied(NfsChanges(PodNfsSources(o), profile.nfs), actual)
           && (IsWorkload(o.kind) ==> AllApplied(LabelChanges(Selectors(o), profile.nodeLabels), actual)) && AllApplied(ClassChanges(node, profile), actual)
    by {
      ChangesByField(o, profile, actual);
    }
  }

  lemma OnlyWorkloadsSelect(o: Object, t: Object, profile: Profile)
    ensures !IsWorkload(o.kind) ==> LabelsShown(o, t, profile)
  {
  }

  lemma MetadataIsApplied(node: GraphNode, profile: Profile, actual: GraphNode)
    requires actual.namespace == MappedValue(node.namespace, profile.namespaces)
    ensures AllApplied(MetadataChanges(node, profile), actual)
  {
    hide MappedValue, TargetApiVersion;
  }

  lemma ChangesByField(o: Object, profile: Profile, actual: GraphNode)
    requires AllApplied(MetadataChanges(ObjectNode(false, o), profile), actual)
    ensures AllApplied(PlannedChanges(ObjectNode(false, o), profile), actual) <==>
            AllApplied(ImageChanges(PodImages(o), profile.registries), actual) && AllApplied(NfsChanges(PodNfsSources(o), profile.nfs), actual)
            && (IsWorkload(o.kind) ==> AllApplied(LabelChanges(Selectors(o), profile.nodeLabels), actual)) && AllApplied(ClassChanges(ObjectNode(false, o), profile), actual)
  {
    hide PodImages, PodNfsSources, Selectors, MetadataChanges, ImageChanges, LabelChanges, NfsChanges, ClassChanges, AppearsApplied;
    AttributesOfAnObject(o);
    var node := ObjectNode(false, o);
    assert forall change :: change in PlannedChanges(node, profile) <==>
             change in MetadataChanges(node, profile) || change in ClassChanges(node, profile) || change in PodChanges(node, profile);
  }

  lemma AttributesOfAnObject(o: Object)
    ensures var a := ObjectNode(false, o).attributes;
            Or(a.images, []) == PodImages(o) && Or(a.nfsSources, []) == PodNfsSources(o) && Or(a.nodeSelectors, map[]) == Selectors(o)
  {
    hide PodImages, PodNfsSources, Selectors;
  }

  /** A target that still runs a source image a rule moves is reported: the node is FAILED and the drift positive. */
  lemma UnmovedImageDrifts(o: Object, t: Object, profile: Profile, image: string, run: RunStatus, observed: seq<GraphNode>)
    requires Covered(o) && t.kind == o.kind && t.namespace == MappedValue(o.namespace, profile.namespaces) && t.name == o.name
    requires forall m :: m in profile.nodeLabels ==> m.target != DROPPED
    requires image in PodImages(o) && RewritePrefix(image, profile.registries) != image && RewritePrefix(image, profile.registries) !in PodImages(t)
    requires Observed(observed, IdentityOf(ObjectNode(true, t))) == Some(ObjectNode(true, t))
    ensures var planned := PlannedNode(ObjectNode(false, o), profile);
            DriftOf(planned, observed, run) > 0 && MergedNode(planned, observed, run).status == Failed
  {
    hide PodImages, PodNfsSources, Selectors, MappedValue, PlannedChanges, PlannedAttributes, Observed, Unapplied, RewritePrefix, TargetApiVersion;
    NothingUnappliedIffShown(o, t, profile);
    assert !ImagesShown(o, t, profile);
    assert IdentityOf(PlannedNode(ObjectNode(false, o), profile)) == IdentityOf(ObjectNode(true, t));
  }

  // ---------------------------------------------------------------- what the inventory shows of an object

  predicate ShowsPods(kind: Kind) { kind in {Deployment, StatefulSet, DaemonSet, Job, CronJob} }

  /** The images of all containers, the exports of all volumes with a server and a path, and the selector, of the kinds that run Pods. */
  lemma ShownFieldsAre(o: Object, x: string)
    ensures x in PodImages(o) <==>
            && ShowsPods(o.kind) && o.template.Some? && x != ""
            && exists c :: (c in o.template.value.initContainers || c in o.template.value.containers) && c.image == Some(x)
    ensures x in PodNfsSources(o) <==>
            && ShowsPods(o.kind) && o.template.Some?
            && exists v :: v in o.template.value.volumes && v.nfs.Some? && v.nfs.value.server != "" && v.nfs.value.path != ""
                 && x == v.nfs.value.server + ":" + v.nfs.value.path
    ensures x in Selectors(o) <==>
            ShowsPods(o.kind) && o.template.Some? && o.template.value.placement.nodeSelector.Some? && x in o.template.value.placement.nodeSelector.value
  {
    if PodSpecOf(o).Some? {
      var spec := o.template.value;
      UniqueSortedKeepsMembers(Images(spec.initContainers) + Images(spec.containers), x);
      ImagesAre(spec.initContainers, x);
      ImagesAre(spec.containers, x);
      UniqueSortedKeepsMembers(Exports(spec.volumes), x);
      ExportsAre(spec.volumes, x);
    }
  }

  lemma ImagesAre(containers: seq<Container>, x: string)
    ensures x != "" ==> (x in Images(containers) <==> exists c :: c in containers && c.image == Some(x))
  {
    if x in Images(containers) && x != "" {
      var i :| 0 <= i < |containers| && Images(containers)[i] == x;
      assert containers[i] in containers;
    }
    if c :| c in containers && c.image == Some(x) {
      var i :| 0 <= i < |containers| && containers[i] == c;
      assert Images(containers)[i] == x;
    }
  }

  lemma ExportsAre(volumes: seq<Volume>, x: string)
    ensures x != "" && x in Exports(volumes) <==>
            exists v :: v in volumes && v.nfs.Some? && v.nfs.value.server != "" && v.nfs.value.path != "" && x == v.nfs.value.server + ":" + v.nfs.value.path
  {
    if x in Exports(volumes) && x != "" {
      var i :| 0 <= i < |volumes| && Exports(volumes)[i] == x;
      assert volumes[i] in volumes;
    }
    if v :| v in volumes && v.nfs.Some? && v.nfs.value.server != "" && v.nfs.value.path != "" && x == v.nfs.value.server + ":" + v.nfs.value.path {
      var i :| 0 <= i < |volumes| && volumes[i] == v;
      assert Exports(volumes)[i] == x;
    }
  }

  // ---------------------------------------------------------------- nothing shown changes unannounced

  lemma {:induction false} MappingBehind(key: string, values: seq<NodeLabels.LabelMapping>) returns (m: NodeLabels.LabelMapping)
    requires NodeLabels.LabelTarget(key, values) != NodeLabels.Keep
    ensures m in values && m.source == key
    ensures NodeLabels.LabelTarget(key, values) == if m.action.Drop? then NodeLabels.Dropped else NodeLabels.MapTo(m.target)
  {
    if values[0].source == key {
      m := values[0];
    } else {
      m := MappingBehind(key, values[1..]);
      assert values == [values[0]] + values[1..];
    }
  }

  /** A selected label that is gone, or that is new, has its change. */
  lemma LabelsAreAnnounced(o: Object, profile: Profile, key: string)
    requires OrderFree(o, profile.nodeLabels) && IsWorkload(o.kind)
    ensures var t, changes := Transformed(o, profile), LabelChanges(Selectors(o), profile.nodeLabels);
            && (key in Selectors(o) && key !in Selectors(t) ==> exists change :: change in changes && change.source == key)
            && (key in Selectors(t) && key !in Selectors(o) ==> exists change :: change in changes && change.target == key)
  {
    hide Transformed, NodeLabels.Renaming, NodeLabels.LabelTarget, LabelChanges;
    TransformedFields(o, profile);
    var labels, values, t := Selectors(o), profile.nodeLabels, Transformed(o, profile);
    NodeLabels.RenamingDomain(labels, labels.Keys, values, key);
    if key in labels && key !in Selectors(t) {
      var m := MappingBehind(key, values);
      LabelIsListed(labels, values, m);
    }
    if key in Selectors(t) && key !in labels {
      var k :| k in labels && NodeLabels.LabelTarget(k, values) == NodeLabels.MapTo(key);
      var m := MappingBehind(k, values);
      LabelIsListed(labels, values, m);
    }
  }

  lemma LabelIsListed(labels: map<string, string>, values: seq<NodeLabels.LabelMapping>, m: NodeLabels.LabelMapping)
    requires m in values && m.source in labels
    ensures Change(NodeLabelChange, m.source, if m.action.Drop? then DROPPED else m.target, None) in LabelChanges(labels, values)
  {
    var change := Change(NodeLabelChange, m.source, if m.action.Drop? then DROPPED else m.target, None);
    LabelChangeIff(labels, values, change);
    assert IsLabelChange(m, change);
  }

  /** A container's image that changes has its change, whether the container runs first or with the others. */
  lemma ImagesAreAnnounced(o: Object, profile: Profile, before: Container, after: Container)
    requires IsWorkload(o.kind) && o.template.Some? && before.image.Some? && before.image.value != "" && after.image.Some? && after != before
    requires var p, q := o.template.value, Transformed(o, profile).template;
             q.Some? && ((exists i :: 0 <= i < |p.containers| == |q.value.containers| && p.containers[i] == before && q.value.containers[i] == after)
                         || (exists i :: 0 <= i < |p.initContainers| == |q.value.initContainers| && p.initContainers[i] == before && q.value.initContainers[i] == after))
    ensures Change(ImageChange, before.image.value, after.image.value, None) in ImageChanges(PodImages(o), profile.registries)
  {
    hide Transformed, RewritePrefix, PodImages, ImageChanges;
    TransformedFields(o, profile);
    ShownFieldsAre(o, before.image.value);
    ImageChangeIff(PodImages(o), profile.registries, Change(ImageChange, before.image.value, after.image.value, None));
  }

  /** And so has an export. */
  lemma ExportsAreAnnounced(o: Object, profile: Profile, i: nat)
    requires IsWorkload(o.kind) && o.template.Some? && i < |o.template.value.volumes|
    requires VolumeExport(o.template.value.volumes[i]) != ""
    ensures var t := Transformed(o, profile).template;
            && t.Some? && |t.value.volumes| == |o.template.value.volumes| && t.value.volumes[i].nfs.Some?
            && var before, after := o.template.value.volumes[i].nfs.value, t.value.volumes[i].nfs.value;
               after != before ==> Change(NfsChange, Export(before), Export(after), None) in NfsChanges(PodNfsSources(o), profile.nfs)
  {
    hide Transformed, PodNfsSources, NfsChanges, RewrittenPlacement;
    TransformedFields(o, profile);
    var v := o.template.value.volumes[i];
    FoundNfs(v.nfs.value, profile.nfs);
    ShownFieldsAre(o, Export(v.nfs.value));
    if FindNfs(v.nfs.value, profile.nfs).Some? {
      var m := FindNfs(v.nfs.value, profile.nfs).value;
      var change := Change(NfsChange, Export(m.source), Export(m.target), None);
      NfsChangeIff(PodNfsSources(o), profile.nfs, change);
      assert v in o.template.value.volumes && IsExportChange(Export(m.source), m, change);
    }
  }

  /** Namespace and classes that change have their change. */
  lemma ClassesAreAnnounced(o: Object, profile: Profile)
    requires WellFormed(profile) && Covered(o)
    ensures var t, changes := Transformed(o, profile), PlannedChanges(ObjectNode(false, o), profile);
            && (t.namespace != o.namespace ==> Change(NamespaceChange, o.namespace, t.namespace, None) in changes)
            && (o.kind.PersistentVolumeClaim? && Or(o.storageClass, "") != "" && t.storageClass != o.storageClass ==>
                  Change(StorageClassChange, Or(o.storageClass, ""), Or(t.storageClass, ""), None) in changes)
            && (o.kind.Ingress? && t.ingressClass != o.ingressClass ==>
                  Change(IngressClassChange, Or(o.ingressClass, ""), Or(t.ingressClass, ""), None) in changes)
  {
    hide Transformed, PodImages, PodNfsSources, Selectors, MappedValue, KeyValueMap, PodChanges, TargetApiVersion;
    TransformedFields(o, profile);
    NamespacesAgree(o.namespace, profile);
    FirstIsLast(profile.storage, Or(o.storageClass, ""));
    FirstIsLast(profile.ingress, Or(o.ingressClass, ""));
  }
}
