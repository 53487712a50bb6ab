/**
 What each rule makes of a manifest (internal/transform/rules.go:101-246, 263-271),
 mapping by mapping: which field a mapping changes, to what, and that everything else
 stays. Mappings are told apart by their sources, as profile validation requires
 (internal/domain/mapping/model.go:50-144).
 */
module ManifestRules {
  import opened Wrappers
  import opened ImagePrefixes
  import opened Manifests
  import opened NodeSelection

  /** Either a mapping of the value gives the new one, or the value has none and stays. */
  ghost predicate Follows(before: string, after: string, values: seq<KeyValue>) {
    || KeyValue(before, after) in values
    || (after == before && forall rule :: rule in values ==> rule.source != before)
  }

  ghost predicate FieldFollows(before: Option<string>, after: Option<string>, values: seq<KeyValue>) {
    if before.None? then after.None? else after.Some? && Follows(before.value, after.value, values)
  }

  lemma LookupFollows(value: string, values: seq<KeyValue>)
    requires UniqueSources(values)
    ensures Follows(value, Lookup(value, KeyValueMap(values)), values)
  {
    SourcesAreKeys(values, value);
    if i :| 0 <= i < |values| && values[i].source == value {
      MappedAt(values, i);
      assert values[i] == KeyValue(value, values[i].target) && values[i] in values;
    } else {
      forall rule | rule in values
        ensures rule.source != value
      {
        var i :| 0 <= i < |values| && values[i] == rule;
      }
    }
  }

  lemma FieldIsMapped(field: Option<string>, values: seq<KeyValue>)
    requires UniqueSources(values)
    ensures FieldFollows(field, MappedField(field, values), values)
  {
    if field.Some? {
      LookupFollows(field.value, values);
    }
  }

  // ---------------------------------------------------------------- namespaces

  /** The namespace, the name of a Namespace, and the namespaces service accounts are granted in. */
  lemma NamespaceRule(o: Object, values: seq<KeyValue>)
    requires UniqueSources(values)
    ensures var t := NamespaceMapped(o, values);
            && t == o.(namespace := t.namespace, name := t.name, subjects := t.subjects) && |t.subjects| == |o.subjects|
            && Follows(o.namespace, t.namespace, values)
            && (if o.kind.NamespaceKind? then Follows(o.name, t.name, values) else t.name == o.name)
            && forall i :: 0 <= i < |o.subjects| ==>
                 if o.subjects[i].isServiceAccount
                 then t.subjects[i] == o.subjects[i].(namespace := t.subjects[i].namespace) && FieldFollows(o.subjects[i].namespace, t.subjects[i].namespace, values)
                 else t.subjects[i] == o.subjects[i]
  {
    hide KeyValueMap, Follows, Lookup;
    LookupFollows(o.namespace, values);
    LookupFollows(o.name, values);
    forall i | 0 <= i < |o.subjects|
      ensures FieldFollows(o.subjects[i].namespace, MappedField(o.subjects[i].namespace, values), values)
    {
      FieldIsMapped(o.subjects[i].namespace, values);
    }
  }

  // ---------------------------------------------------------------- classes

  /** The class of a claim or volume and those of claim templates. */
  lemma StorageRule(o: Object, values: seq<KeyValue>)
    requires UniqueSources(values)
    ensures var t := StorageMapped(o, values);
            && t == o.(storageClass := t.storageClass, claimClasses := t.claimClasses) && |t.claimClasses| == |o.claimClasses|
            && FieldFollows(o.storageClass, t.storageClass, values)
            && forall i :: 0 <= i < |o.claimClasses| ==> FieldFollows(o.claimClasses[i], t.claimClasses[i], values)
  {
    hide MappedField, FieldFollows;
    FieldIsMapped(o.storageClass, values);
    forall i | 0 <= i < |o.claimClasses|
      ensures FieldFollows(o.claimClasses[i], MappedField(o.claimClasses[i], values), values)
    {
      FieldIsMapped(o.claimClasses[i], values);
    }
  }

  /** Class field and class annotation of an Ingress; no other annotation, and nothing of any other kind. */
  lemma IngressRule(o: Object, values: seq<KeyValue>)
    requires UniqueSources(values) && forall rule :: rule in values ==> rule.source != ""
    ensures var t, key := IngressMapped(o, values), "kubernetes.io/ingress.class";
            && t == o.(ingressClass := t.ingressClass, annotations := t.annotations)
            && (!o.kind.Ingress? ==> t == o)
            && (o.kind.Ingress? ==>
                  && FieldFollows(o.ingressClass, t.ingressClass, values)
                  && t.annotations.Keys == o.annotations.Keys
                  && (forall k :: k in o.annotations && k != key ==> t.annotations[k] == o.annotations[k])
                  && (key in o.annotations ==> Follows(o.annotations[key], t.annotations[key], values)))
  {
    hide KeyValueMap, Follows;
    FieldIsMapped(o.ingressClass, values);
    LookupFollows(IngressAnnotation(o.annotations), values);
    SourcesAreKeys(values, "");
    assert forall i :: 0 <= i < |values| ==> values[i] in values;
  }

  // ---------------------------------------------------------------- images

  predicate IsPrefix(prefix: string, rest: string, image: string) { image == prefix + rest && (rest == [] || rest[0] == '/') }

  /** A rule may be written with or without a slash at the end. */
  predicate WrittenAs(text: string, prefix: string) {
    (text == prefix || text == prefix + "/") && (prefix == [] || prefix[|prefix| - 1] != '/')
  }

  lemma TrimmedAs(text: string, prefix: string)
    requires WrittenAs(text, prefix)
    ensures TrimSlash(text) == prefix
  {
  }

  /** The rule whose source leads the image up to a slash or its end replaces exactly that part. */
  lemma ImageRule(image: string, rules: seq<KeyValue>, i: nat, source: string, target: string, rest: string)
    requires Disjoint(rules) && i < |rules| && WrittenAs(rules[i].source, source) && WrittenAs(rules[i].target, target)
    requires IsPrefix(source, rest, image)
    ensures RewritePrefix(image, rules) == target + rest
  {
    TrimmedAs(rules[i].source, source);
    TrimmedAs(rules[i].target, target);
    assert image[|source|..] == rest;
    UsesTheOnlyRule(image, rules, i);
  }

  /** An image no rule leads stays. */
  lemma OtherImagesStay(image: string, rules: seq<KeyValue>)
    requires forall rule, source, rest :: rule in rules && WrittenAs(rule.source, source) ==> !IsPrefix(source, rest, image)
    requires forall rule :: rule in rules ==> exists source :: WrittenAs(rule.source, source)
    ensures RewritePrefix(image, rules) == image
  {
    forall i | 0 <= i < |rules|
      ensures !PathPrefix(Source(rules[i]), image)
    {
      assert rules[i] in rules;
      var source :| WrittenAs(rules[i].source, source);
      TrimmedAs(rules[i].source, source);
      if PathPrefix(source, image) {
        assert IsPrefix(source, image[|source|..], image);
      }
    }
    UnmatchedIsUnchanged(image, rules);
  }

  predicate RunsPods(kind: Kind) { kind in {Pod, Job, CronJob, Deployment, StatefulSet, DaemonSet, ReplicaSet} }

  /** Every container of a Pod template, and only its image. */
  ghost predicate ImagesFollow(before: seq<Container>, after: seq<Container>, rules: seq<KeyValue>) {
    && |after| == |before|
    && forall i :: 0 <= i < |before| ==>
         && after[i] == before[i].(image := after[i].image)
         && (before[i].image.None? <==> after[i].image.None?)
         && (before[i].image.Some? ==> after[i].image.value == RewritePrefix(before[i].image.value, rules))
  }

  lemma RegistryRule(o: Object, rules: seq<KeyValue>)
    ensures var t := RegistryMapped(o, rules);
            && t == o.(template := t.template)
            && (!RunsPods(o.kind) || o.template.None? ==> t == o)
            && (RunsPods(o.kind) && o.template.Some? ==>
                  && t.template.Some?
                  && t.template.value == o.template.value.(initContainers := t.template.value.initContainers, containers := t.template.value.containers)
                  && ImagesFollow(o.template.value.initContainers, t.template.value.initContainers, rules)
                  && ImagesFollow(o.template.value.containers, t.template.value.containers, rules))
  {
    hide RewritePrefix;
  }

  // ---------------------------------------------------------------- NFS exports

  ghost predicate UniqueNfs(values: seq<NfsMapping>) { forall a, b :: a in values && b in values && a.source == b.source ==> a == b }

  ghost predicate NfsFollows(before: Option<Nfs>, after: Option<Nfs>, values: seq<NfsMapping>) {
    if before.None? then after.None?
    else
      || (exists m :: m in values && m.source == before.value && after == Some(m.target))
      || (after == before && forall m :: m in values ==> m.source != before.value)
  }

  lemma ExportIsMapped(nfs: Option<Nfs>, values: seq<NfsMapping>)
    ensures NfsFollows(nfs, RewriteNfs(nfs, values), values)
  {
    if nfs.Some? {
      FoundNfs(nfs.value, values);
      if FindNfs(nfs.value, values).None? {
        forall m | m in values
          ensures m.source != nfs.value
        {
          var i :| 0 <= i < |values| && values[i] == m;
        }
      }
    }
  }

  /** A PersistentVolume takes export and class of its mapping; a Pod template the exports; no other class changes. */
  lemma NfsRule(o: Object, values: seq<NfsMapping>)
    requires UniqueNfs(values)
    ensures var t := NfsMapped(o, values);
            && t == o.(storageClass := t.storageClass, nfs := t.nfs, template := t.template)
            && (!o.kind.PersistentVolume? ==> t.nfs == o.nfs && t.storageClass == o.storageClass)
            && (o.kind.PersistentVolume? ==>
                  && NfsFollows(o.nfs, t.nfs, values)
                  && (forall m :: m in values && o.nfs == Some(m.source) ==> t.storageClass == if m.storageClass == "" then o.storageClass else Some(m.storageClass))
                  && ((forall m :: m in values ==> o.nfs != Some(m.source)) ==> t.storageClass == o.storageClass))
            && (!RunsPods(o.kind) || o.template.None? ==> t.template == o.template)
            && (RunsPods(o.kind) && o.template.Some? ==>
                  && t.template.Some? && t.template.value == o.template.value.(volumes := t.template.value.volumes)
                  && ExportsFollow(o.template.value.volumes, t.template.value.volumes, values))
  {
    hide FindNfs, RewriteNfs, NfsFollows;
    if o.nfs.Some? {
      ExportIsMapped(o.nfs, values);
      FoundNfs(o.nfs.value, values);
      assert forall m :: m in values ==> exists i :: 0 <= i < |values| && values[i] == m;
    } else {
      ExportIsMapped(None, values);
    }
    if o.template.Some? {
      VolumesFollow(o.template.value.volumes, values);
    }
  }

  ghost predicate ExportsFollow(before: seq<Volume>, after: seq<Volume>, values: seq<NfsMapping>) {
    && |after| == |before|
    && forall i :: 0 <= i < |before| ==> after[i] == before[i].(nfs := after[i].nfs) && NfsFollows(before[i].nfs, after[i].nfs, values)
  }

  lemma VolumesFollow(volumes: seq<Volume>, values: seq<NfsMapping>)
    ensures ExportsFollow(volumes, MappedVolumes(volumes, values), values)
  {
    hide RewriteNfs, NfsFollows;
    forall i | 0 <= i < |volumes|
      ensures NfsFollows(volumes[i].nfs, RewriteNfs(volumes[i].nfs, values), values)
    {
      ExportIsMapped(volumes[i].nfs, values);
    }
  }

  // ---------------------------------------------------------------- node labels

  /** In a Pod template only the scheduling fields change, and of those nothing but the selector, requirements and spread constraints. */
  lemma NodeLabelRule(o: Object, values: seq<NodeLabels.LabelMapping>)
    ensures var t := NodeLabelMapped(o, values);
            && t == o.(template := t.template)
            && (!RunsPods(o.kind) || o.template.None? ==> t == o)
            && (RunsPods(o.kind) && o.template.Some? ==>
                  && t.template.Some? && t.template.value == o.template.value.(placement := t.template.value.placement)
                  && LeavesTheRest(o.template.value.placement, t.template.value.placement, values))
  {
    hide LeavesTheRest, RewrittenPlacement;
    if o.template.Some? {
      var p := o.template.value.placement;
      RewriteLeavesTheRest(p, values, RewrittenPlacement(p, values).nodeSelector);
      assert RewrittenPlacement(p, values).(nodeSelector := RewrittenPlacement(p, values).nodeSelector) == RewrittenPlacement(p, values);
    }
  }
}
