/**
 The rewrite of one manifest (internal/transform/rules.go:81-246, engine.go:141-157):
 first as a function on the fields it touches, then in place as the source does it.
 */
module Manifests {
  import opened Wrappers
  import opened ImagePrefixes
  import NodeLabels
  import opened NodeSelection

  datatype Kind =
    | Deployment | StatefulSet | DaemonSet | ReplicaSet | Job | CronJob | Pod
    | Ingress | PersistentVolumeClaim | PersistentVolume | NamespaceKind | OtherKind(name: string)

  datatype Nfs = Nfs(server: string, path: string)

  datatype NfsMapping = NfsMapping(source: Nfs, target: Nfs, storageClass: string)

  datatype Container = Container(image: Option<string>, rest: string)

  datatype Volume = Volume(nfs: Option<Nfs>, rest: string)

  datatype Template = Template(initContainers: seq<Container>, containers: seq<Container>, volumes: seq<Volume>, placement: Placement)

  datatype Subject = Subject(isServiceAccount: bool, namespace: Option<string>, name: string, rest: string)

  /** What an object depends on; without a namespace it is in the object's own. */
  datatype Reference = Reference(apiVersion: string, kind: Kind, namespace: Option<string>, name: string, relation: string, required: bool)

  /**
   template is the Pod specification at the path the kind has one; nfs is spec.nfs;
   references are the claims, Secrets, ConfigMaps, Services, the role or the autoscaling
   target the object names.
   */
  datatype Object = Object(
    apiVersion: string, kind: Kind, namespace: string, name: string,
    template: Option<Template>,
    ingressClass: Option<string>, annotations: map<string, string>,
    storageClass: Option<string>, claimClasses: seq<Option<string>>,
    nfs: Option<Nfs>, subjects: seq<Subject>, owners: seq<Reference>, references: seq<Reference>, rest: string)

  datatype Profile = Profile(
    storage: seq<KeyValue>, namespaces: seq<KeyValue>, ingress: seq<KeyValue>, registries: seq<KeyValue>,
    nodeLabels: seq<NodeLabels.LabelMapping>, nfs: seq<NfsMapping>)

  const INGRESS_CLASS := "kubernetes.io/ingress.class"

  // ---------------------------------------------------------------- lookups

  /** Later mappings of the same source win. */
  function KeyValueMap(values: seq<KeyValue>): map<string, string> {
    if values == [] then map[]
    else KeyValueMap(values[..|values| - 1])[values[|values| - 1].source := values[|values| - 1].target]
  }

  /** The first mapping of a source wins. */
  function MappedValue(value: string, values: seq<KeyValue>): string {
    if values == [] then value
    else if values[0].source == value then values[0].target
    else MappedValue(value, values[1..])
  }

  ghost predicate UniqueSources(values: seq<KeyValue>) {
    forall i, j :: 0 <= i < j < |values| ==> values[i].source != values[j].source
  }

  function Lookup(value: string, mapped: map<string, string>): string {
    if value in mapped then mapped[value] else value
  }

  lemma {:induction false} SourcesAreKeys(values: seq<KeyValue>, key: string)
    ensures key in KeyValueMap(values) <==> exists i :: 0 <= i < |values| && values[i].source == key
  {
    if values != [] {
      SourcesAreKeys(values[..|values| - 1], key);
    }
  }

  lemma {:induction false} MappedAt(values: seq<KeyValue>, i: nat)
    requires UniqueSources(values) && i < |values|
    ensures values[i].source in KeyValueMap(values) && KeyValueMap(values)[values[i].source] == values[i].target
  {
    if i < |values| - 1 {
      MappedAt(values[..|values| - 1], i);
    }
  }

  lemma {:induction false} FirstAt(values: seq<KeyValue>, i: nat)
    requires UniqueSources(values) && i < |values|
    ensures MappedValue(values[i].source, values) == values[i].target
  {
    if i > 0 {
      FirstAt(values[1..], i - 1);
    }
  }

  lemma {:induction false} UnmappedValue(values: seq<KeyValue>, value: string)
    requires forall i :: 0 <= i < |values| ==> values[i].source != value
    ensures MappedValue(value, values) == value
  {
    if values != [] {
      UnmappedValue(values[1..], value);
    }
  }

  /** The predictor takes the first mapping, the transform the last: the same for unique sources. */
  lemma FirstIsLast(values: seq<KeyValue>, value: string)
    requires UniqueSources(values)
    ensures MappedValue(value, values) == Lookup(value, KeyValueMap(values))
  {
    SourcesAreKeys(values, value);
    if i :| 0 <= i < |values| && values[i].source == value {
      MappedAt(values, i);
      FirstAt(values, i);
    } else {
      UnmappedValue(values, value);
    }
  }

  function FindNfs(nfs: Nfs, values: seq<NfsMapping>): Option<NfsMapping> {
    if values == [] then None
    else if values[0].source == nfs then Some(values[0])
    else FindNfs(nfs, values[1..])
  }

  lemma {:induction false} FoundNfs(nfs: Nfs, values: seq<NfsMapping>)
    ensures FindNfs(nfs, values).Some? <==> exists i :: 0 <= i < |values| && values[i].source == nfs
    ensures FindNfs(nfs, values).Some? ==> FindNfs(nfs, values).value in values && FindNfs(nfs, values).value.source == nfs
  {
    if values != [] {
      FoundNfs(nfs, values[1..]);
      if i :| 0 <= i < |values| && values[i].source == nfs {
        assert i == 0 || values[1..][i - 1].source == nfs;
      }
      if j :| 0 <= j < |values[1..]| && values[1..][j].source == nfs {
        assert values[j + 1].source == nfs;
      }
    }
  }

  // ---------------------------------------------------------------- one rule each

  predicate HasTemplate(kind: Kind) {
    kind.Pod? || kind.CronJob? || kind.Deployment? || kind.StatefulSet? || kind.DaemonSet? || kind.ReplicaSet? || kind.Job?
  }

  function MappedField(field: Option<string>, values: seq<KeyValue>): Option<string> {
    if field.None? then None else Some(Lookup(field.value, KeyValueMap(values)))
  }

  function MappedSubject(subject: Subject, values: seq<KeyValue>): Subject {
    if subject.isServiceAccount then subject.(namespace := MappedField(subject.namespace, values)) else subject
  }

  function NamespaceMapped(o: Object, values: seq<KeyValue>): Object {
    o.(namespace := Lookup(o.namespace, KeyValueMap(values)),
       name := if o.kind.NamespaceKind? then Lookup(o.name, KeyValueMap(values)) else o.name,
       subjects := seq(|o.subjects|, i requires 0 <= i < |o.subjects| => MappedSubject(o.subjects[i], values)))
  }

  function StorageMapped(o: Object, values: seq<KeyValue>): Object {
    o.(storageClass := MappedField(o.storageClass, values),
       claimClasses := seq(|o.claimClasses|, i requires 0 <= i < |o.claimClasses| => MappedField(o.claimClasses[i], values)))
  }

  /** A missing annotation reads as the empty class. */
  function IngressAnnotation(annotations: map<string, string>): string {
    if INGRESS_CLASS in annotations then annotations[INGRESS_CLASS] else ""
  }

  function MappedAnnotations(annotations: map<string, string>, mapped: map<string, string>): map<string, string> {
    if IngressAnnotation(annotations) in mapped then annotations[INGRESS_CLASS := mapped[IngressAnnotation(annotations)]] else annotations
  }

  function IngressMapped(o: Object, values: seq<KeyValue>): Object {
    if !o.kind.Ingress? then o
    else o.(ingressClass := MappedField(o.ingressClass, values), annotations := MappedAnnotations(o.annotations, KeyValueMap(values)))
  }

  function MappedContainer(container: Container, values: seq<KeyValue>): Container {
    if container.image.None? then container else container.(image := Some(RewritePrefix(container.image.value, values)))
  }

  function MappedContainers(containers: seq<Container>, values: seq<KeyValue>): seq<Container> {
    seq(|containers|, i requires 0 <= i < |containers| => MappedContainer(containers[i], values))
  }

  function RegistryMapped(o: Object, values: seq<KeyValue>): Object {
    if !HasTemplate(o.kind) || o.template.None? then o
    else
      var t := o.template.value;
      o.(template := Some(t.(initContainers := MappedContainers(t.initContainers, values), containers := MappedContainers(t.containers, values))))
  }

  ghost function NodeLabelMapped(o: Object, values: seq<NodeLabels.LabelMapping>): Object {
    if !HasTemplate(o.kind) || o.template.None? then o
    else o.(template := Some(o.template.value.(placement := RewrittenPlacement(o.template.value.placement, values))))
  }

  function RewriteNfs(nfs: Option<Nfs>, values: seq<NfsMapping>): Option<Nfs> {
    if nfs.None? then None
    else
      var found := FindNfs(nfs.value, values);
      if found.None? then nfs else Some(found.value.target)
  }

  function MappedVolume(volume: Volume, values: seq<NfsMapping>): Volume {
    volume.(nfs := RewriteNfs(volume.nfs, values))
  }

  function MappedVolumes(volumes: seq<Volume>, values: seq<NfsMapping>): seq<Volume> {
    seq(|volumes|, i requires 0 <= i < |volumes| => MappedVolume(volumes[i], values))
  }

  /** Only a PersistentVolume takes the storage class of the mapping. */
  function NfsStorageClass(o: Object, values: seq<NfsMapping>): Option<string> {
    if !o.kind.PersistentVolume? || o.nfs.None? then o.storageClass
    else
      var found := FindNfs(o.nfs.value, values);
      if found.None? || found.value.storageClass == "" then o.storageClass else Some(found.value.storageClass)
  }

  function NfsMapped(o: Object, values: seq<NfsMapping>): Object {
    o.(storageClass := NfsStorageClass(o, values),
       nfs := if o.kind.PersistentVolume? then RewriteNfs(o.nfs, values) else o.nfs,
       template :=
         if !HasTemplate(o.kind) || o.template.None? then o.template
         else Some(o.template.value.(volumes := MappedVolumes(o.template.value.volumes, values))))
  }

  /** What remains mutable after a Velero restore. */
  ghost function PostRestoreMapped(o: Object, profile: Profile): Object {
    NfsMapped(NodeLabelMapped(RegistryMapped(IngressMapped(o, profile.ingress), profile.registries), profile.nodeLabels), profile.nfs)
  }

  ghost predicate OrderFree(o: Object, values: seq<NodeLabels.LabelMapping>) {
    o.template.Some? ==> OrderIrrelevant(o.template.value.placement.nodeSelector, values)
  }

  predicate SameButSelector(a: Object, b: Object) {
    if a.template.None? || b.template.None? then a == b
    else
      var selector := a.template.value.placement.nodeSelector;
      a == b.(template := Some(b.template.value.(placement := b.template.value.placement.(nodeSelector := selector))))
  }

  // ---------------------------------------------------------------- the same, in place

  method BuildKeyValueMap(values: seq<KeyValue>) returns (result: map<string, string>)
    ensures result == KeyValueMap(values)
  {
    result := map[];
    for i := 0 to |values|
      invariant result == KeyValueMap(values[..i])
    {
      assert values[..i + 1][..i] == values[..i];
      result := result[values[i].source := values[i].target];
    }
    assert values[..|values|] == values;
  }

  class Unstructured {
    var content: Object

    constructor (o: Object)
      ensures content == o
    {
      content := o;
    }

    method ApplyNamespaceMapping(values: seq<KeyValue>)
      modifies this
      ensures content == NamespaceMapped(old(content), values)
    {
      var mapped := BuildKeyValueMap(values);
      if content.namespace in mapped {
        content := content.(namespace := mapped[content.namespace]);
      }
      if content.kind.NamespaceKind? && content.name in mapped {
        content := content.(name := mapped[content.name]);
      }
      var subjects := content.subjects;
      for i := 0 to |subjects|
        invariant |subjects| == |old(content).subjects|
        invariant forall j :: 0 <= j < |subjects| ==> subjects[j] == if j < i then MappedSubject(old(content).subjects[j], values) else old(content).subjects[j]
      {
        if subjects[i].isServiceAccount && subjects[i].namespace.Some? && subjects[i].namespace.value in mapped {
          subjects := subjects[i := subjects[i].(namespace := Some(mapped[subjects[i].namespace.value]))];
        }
      }
      content := content.(subjects := subjects);
    }

    method ApplyStorageMapping(values: seq<KeyValue>)
      modifies this
      ensures content == StorageMapped(old(content), values)
    {
      var mapped := BuildKeyValueMap(values);
      if content.storageClass.Some? && content.storageClass.value in mapped {
        content := content.(storageClass := Some(mapped[content.storageClass.value]));
      }
      var claims := content.claimClasses;
      for i := 0 to |claims|
        invariant |claims| == |old(content).claimClasses|
        invariant forall j :: 0 <= j < |claims| ==> claims[j] == if j < i then MappedField(old(content).claimClasses[j], values) else old(content).claimClasses[j]
      {
        if claims[i].Some? && claims[i].value in mapped {
          claims := claims[i := Some(mapped[claims[i].value])];
        }
      }
      content := content.(claimClasses := claims);
    }

    method ApplyIngressMapping(values: seq<KeyValue>)
      modifies this
      ensures content == IngressMapped(old(content), values)
    {
      if !content.kind.Ingress? {
        return;
      }
      var mapped := BuildKeyValueMap(values);
      if content.ingressClass.Some? && content.ingressClass.value in mapped {
        content := content.(ingressClass := Some(mapped[content.ingressClass.value]));
      }
      var className := IngressAnnotation(content.annotations);
      if className in mapped {
        content := content.(annotations := content.annotations[INGRESS_CLASS := mapped[className]]);
      }
    }

    static method RewriteContainers(containers: seq<Container>, values: seq<KeyValue>) returns (result: seq<Container>)
      ensures result == MappedContainers(containers, values)
    {
      result := containers;
      for i := 0 to |containers|
        invariant |result| == |containers|
        invariant forall j :: 0 <= j < |result| ==> result[j] == if j < i then MappedContainer(containers[j], values) else containers[j]
      {
        if result[i].image.Some? {
          result := result[i := result[i].(image := Some(RewritePrefix(result[i].image.value, values)))];
        }
      }
    }

    method ApplyRegistryMapping(values: seq<KeyValue>)
      modifies this
      ensures content == RegistryMapped(old(content), values)
    {
      if !HasTemplate(content.kind) || content.template.None? {
        return;
      }
      var spec := content.template.value;
      var initContainers := RewriteContainers(spec.initContainers, values);
      var containers := RewriteContainers(spec.containers, values);
      content := content.(template := Some(spec.(initContainers := initContainers, containers := containers)));
    }

    /** Where a chain makes the result depend on the order of the loop, only the selector is left open. */
    method ApplyNodeLabelMapping(values: seq<NodeLabels.LabelMapping>, optional: nat)
      modifies this
      ensures SameButSelector(content, NodeLabelMapped(old(content), values))
      ensures !HasTemplate(old(content).kind) || old(content).template.None? ==> content == old(content)
      ensures HasTemplate(old(content).kind) && old(content).template.Some? ==>
                && content.template.Some? && content == old(content).(template := content.template)
                && content.template.value == old(content).template.value.(placement := content.template.value.placement)
                && LeavesTheRest(old(content).template.value.placement, content.template.value.placement, values)
      ensures OrderFree(old(content), values) ==> content == NodeLabelMapped(old(content), values)
    {
      hide LeavesTheRest;
      if !HasTemplate(content.kind) || content.template.None? {
        return;
      }
      var spec := new PodSpec(content.template.value.placement);
      var visits := spec.ApplyNodeLabelMapping(values, optional);
      content := content.(template := Some(content.template.value.(placement := spec.Placed())));
    }

    static method RewriteVolumes(volumes: seq<Volume>, values: seq<NfsMapping>) returns (result: seq<Volume>)
      ensures result == MappedVolumes(volumes, values)
    {
      result := volumes;
      for i := 0 to |volumes|
        invariant |result| == |volumes|
        invariant forall j :: 0 <= j < |result| ==> result[j] == if j < i then MappedVolume(volumes[j], values) else volumes[j]
      {
        result := result[i := result[i].(nfs := RewriteNfs(result[i].nfs, values))];
      }
    }

    method ApplyNfsMapping(values: seq<NfsMapping>)
      modifies this
      ensures content == NfsMapped(old(content), values)
    {
      if content.kind.PersistentVolume? && content.nfs.Some? {
        var found := FindNfs(content.nfs.value, values);
        if found.Some? {
          if found.value.storageClass != "" {
            content := content.(storageClass := Some(found.value.storageClass));
          }
          content := content.(nfs := Some(found.value.target));
        }
      }
      if HasTemplate(content.kind) && content.template.Some? {
        var volumes := RewriteVolumes(content.template.value.volumes, values);
        content := content.(template := Some(content.template.value.(volumes := volumes)));
      }
    }

    method ApplyPostRestoreMappings(profile: Profile, optional: nat)
      modifies this
      ensures SameButSelector(content, PostRestoreMapped(old(content), profile))
      ensures OrderFree(old(content), profile.nodeLabels) ==> content == PostRestoreMapped(old(content), profile)
    {
      ApplyIngressMapping(profile.ingress);
      ApplyRegistryMapping(profile.registries);
      ApplyNodeLabelMapping(profile.nodeLabels, optional);
      ApplyNfsMapping(profile.nfs);
    }
  }
}
