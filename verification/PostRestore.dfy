/**
 Mapping a restored namespace and checking the result
 (internal/adapter/kubernetes/post_restore_mapping.go:24-75): the check maps the
 stored object once more and rejects if anything changes, so it rests on the
 mapping being a fixpoint of itself.
 */
module PostRestore {
  import opened Wrappers
  import opened ImagePrefixes
  import NodeLabels
  import opened NodeSelection
  import opened Manifests

  /** The profile validation (internal/domain/mapping/model.go:46-216). */
  ghost predicate Validated(profile: Profile) {
    && UniqueSources(profile.ingress)
    && (forall rule :: rule in profile.ingress ==> rule.source != "")
    && Disjoint(profile.registries)
    && NodeLabels.Validated(profile.nodeLabels)
    && (forall i, j :: 0 <= i < j < |profile.nfs| ==> profile.nfs[i].source != profile.nfs[j].source && profile.nfs[i].target != profile.nfs[j].target)
    && (forall m :: m in profile.nfs ==> m.storageClass != "")
  }

  ghost predicate IngressSettled(values: seq<KeyValue>) {
    forall i, j :: 0 <= i < |values| && 0 <= j < |values| && values[j].source == values[i].target ==> values[j].target == values[j].source
  }

  ghost predicate NfsSettled(values: seq<NfsMapping>) {
    forall i, j :: 0 <= i < |values| && 0 <= j < |values| && values[j].source == values[i].target ==> values[j].target == values[j].source
  }

  /** What a target may not meet, in each group of mappings: a source that is moved elsewhere. */
  ghost predicate ProfileSettled(profile: Profile) {
    && ImagePrefixes.Settled(profile.registries)
    && IngressSettled(profile.ingress)
    && Unchained(profile.nodeLabels)
    && NfsSettled(profile.nfs)
  }

  // ---------------------------------------------------------------- each group twice

  lemma LookupTwice(values: seq<KeyValue>, value: string)
    requires UniqueSources(values) && IngressSettled(values)
    ensures var mapped := KeyValueMap(values); Lookup(Lookup(value, mapped), mapped) == Lookup(value, mapped)
  {
    var mapped := KeyValueMap(values);
    SourcesAreKeys(values, value);
    if i :| 0 <= i < |values| && values[i].source == value {
      MappedAt(values, i);
      SourcesAreKeys(values, values[i].target);
      if j :| 0 <= j < |values| && values[j].source == values[i].target {
        MappedAt(values, j);
      }
    }
  }

  lemma IngressTwice(o: Object, values: seq<KeyValue>)
    requires UniqueSources(values) && IngressSettled(values)
    ensures IngressMapped(IngressMapped(o, values), values) == IngressMapped(o, values)
  {
    if o.ingressClass.Some? {
      LookupTwice(values, o.ingressClass.value);
    }
    LookupTwice(values, IngressAnnotation(o.annotations));
  }

  lemma ContainersTwice(containers: seq<Container>, values: seq<KeyValue>)
    requires Disjoint(values) && ImagePrefixes.Settled(values)
    ensures var once := MappedContainers(containers, values); MappedContainers(once, values) == once
  {
    hide Disjoint, ImagePrefixes.Settled, RewritePrefix;
    var once := MappedContainers(containers, values);
    forall i | 0 <= i < |containers|
      ensures MappedContainer(once[i], values) == once[i]
    {
      if containers[i].image.Some? {
        SettledImage(containers[i].image.value, values);
      }
    }
  }

  lemma NfsTwice(nfs: Option<Nfs>, values: seq<NfsMapping>)
    requires NfsSettled(values)
    ensures RewriteNfs(RewriteNfs(nfs, values), values) == RewriteNfs(nfs, values)
  {
    if nfs.Some? {
      FoundNfs(nfs.value, values);
      var found := FindNfs(nfs.value, values);
      if found.Some? {
        FoundNfs(found.value.target, values);
      }
    }
  }

  lemma VolumesTwice(volumes: seq<Volume>, values: seq<NfsMapping>)
    requires NfsSettled(values)
    ensures var once := MappedVolumes(volumes, values); MappedVolumes(once, values) == once
  {
    hide NfsSettled;
    var once := MappedVolumes(volumes, values);
    forall i | 0 <= i < |volumes|
      ensures MappedVolume(once[i], values) == once[i]
    {
      NfsTwice(volumes[i].nfs, values);
    }
  }

  /** A target that is mapped again is mapped to itself, by the mapping that produced it. */
  lemma NfsClassTwice(o: Object, values: seq<NfsMapping>)
    requires NfsSettled(values)
    requires forall i, j :: 0 <= i < j < |values| ==> values[i].target != values[j].target
    requires forall m :: m in values ==> m.storageClass != ""
    ensures NfsStorageClass(NfsMapped(o, values), values) == NfsStorageClass(o, values)
  {
    if o.kind.PersistentVolume? && o.nfs.Some? {
      FoundNfs(o.nfs.value, values);
      var found := FindNfs(o.nfs.value, values);
      if found.Some? {
        FoundNfs(found.value.target, values);
        var again := FindNfs(found.value.target, values);
        if again.Some? {
          var i :| 0 <= i < |values| && values[i] == found.value;
          var j :| 0 <= j < |values| && values[j] == again.value;
          assert i == j;
        }
      }
    }
  }

  // ---------------------------------------------------------------- the whole object

  ghost function MappedTemplate(t: Template, profile: Profile): Template {
    Template(MappedContainers(t.initContainers, profile.registries), MappedContainers(t.containers, profile.registries),
             MappedVolumes(t.volumes, profile.nfs), RewrittenPlacement(t.placement, profile.nodeLabels))
  }

  /** The four rules touch different fields. */
  lemma FieldByField(o: Object, profile: Profile)
    ensures var i, p := IngressMapped(o, profile.ingress), PostRestoreMapped(o, profile);
            p == o.(
              ingressClass := i.ingressClass, annotations := i.annotations,
              storageClass := NfsStorageClass(o, profile.nfs),
              nfs := if o.kind.PersistentVolume? then RewriteNfs(o.nfs, profile.nfs) else o.nfs,
              template := if HasTemplate(o.kind) && o.template.Some? then Some(MappedTemplate(o.template.value, profile)) else o.template)
  {
    hide RewrittenPlacement, MappedContainers, MappedVolumes, RewriteNfs, FindNfs, MappedAnnotations, MappedField;
  }

  lemma TemplateTwice(t: Template, profile: Profile)
    requires Validated(profile) && ProfileSettled(profile)
    ensures MappedTemplate(MappedTemplate(t, profile), profile) == MappedTemplate(t, profile)
  {
    hide RewrittenPlacement, MappedContainers, MappedVolumes, ImagePrefixes.Settled, Unchained, Disjoint, NodeLabels.DistinctTargets;
    NodeLabels.ValidatedHasDistinctTargets(profile.nodeLabels);
    ContainersTwice(t.initContainers, profile.registries);
    ContainersTwice(t.containers, profile.registries);
    VolumesTwice(t.volumes, profile.nfs);
    PlacementTwice(t.placement, profile.nodeLabels);
  }

  lemma SettledIsAFixpoint(o: Object, profile: Profile)
    requires Validated(profile) && ProfileSettled(profile)
    ensures PostRestoreMapped(PostRestoreMapped(o, profile), profile) == PostRestoreMapped(o, profile)
  {
    hide MappedTemplate, PostRestoreMapped, ImagePrefixes.Settled, Unchained, Disjoint, NodeLabels.Validated, FindNfs;
    var once := PostRestoreMapped(o, profile);
    FieldByField(o, profile);
    FieldByField(once, profile);
    IngressTwice(o, profile.ingress);
    NfsTwice(o.nfs, profile.nfs);
    NfsClassTwice(o, profile.nfs);
    if o.template.Some? {
      TemplateTwice(o.template.value, profile);
    }
  }

  // ---------------------------------------------------------------- and only settled profiles

  const NOWHERE := Placement(None, None, None)

  function Blank(kind: Kind, template: Option<Template>): Object {
    Object("", kind, "", "", template, None, map[], None, [], None, [], [], [], "")
  }

  function Running(t: Template): Object { Blank(Deployment, Some(t)) }

  lemma UnsettledRegistry(profile: Profile) returns (o: Object)
    requires Validated(profile) && !ImagePrefixes.Settled(profile.registries)
    ensures PostRestoreMapped(PostRestoreMapped(o, profile), profile) != PostRestoreMapped(o, profile)
  {
    hide PostRestoreMapped, ImagePrefixes.Settled, RewrittenPlacement;
    var rules := profile.registries;
    RewritingTwiceIsOnceIffSettled(rules);
    var image :| RewritePrefix(RewritePrefix(image, rules), rules) != RewritePrefix(image, rules);
    o := Running(Template([], [Container(Some(image), "")], [], NOWHERE));
    var once := PostRestoreMapped(o, profile);
    FieldByField(o, profile);
    FieldByField(once, profile);
    assert once.template.value.containers[0].image == Some(RewritePrefix(image, rules));
    assert PostRestoreMapped(once, profile).template.value.containers[0].image == Some(RewritePrefix(RewritePrefix(image, rules), rules));
  }

  lemma UnsettledIngress(profile: Profile) returns (o: Object)
    requires Validated(profile) && !IngressSettled(profile.ingress)
    ensures PostRestoreMapped(PostRestoreMapped(o, profile), profile) != PostRestoreMapped(o, profile)
  {
    hide PostRestoreMapped, RewrittenPlacement;
    var values := profile.ingress;
    var i, j :| 0 <= i < |values| && 0 <= j < |values| && values[j].source == values[i].target && values[j].target != values[j].source;
    MappedAt(values, i);
    MappedAt(values, j);
    o := Blank(Ingress, None).(ingressClass := Some(values[i].source));
    var once := PostRestoreMapped(o, profile);
    FieldByField(o, profile);
    FieldByField(once, profile);
    assert once.ingressClass == Some(values[i].target);
    assert PostRestoreMapped(once, profile).ingressClass == Some(values[j].target);
  }

  lemma MappingOfSource(values: seq<NfsMapping>, i: nat)
    requires i < |values| && forall a, b :: 0 <= a < b < |values| ==> values[a].source != values[b].source
    ensures RewriteNfs(Some(values[i].source), values) == Some(values[i].target)
  {
    FoundNfs(values[i].source, values);
  }

  lemma MappedMount(o: Object, profile: Profile, nfs: Nfs)
    requires o == Running(Template([], [], [Volume(Some(nfs), "")], NOWHERE))
    ensures PostRestoreMapped(o, profile) == Running(Template([], [], [Volume(RewriteNfs(Some(nfs), profile.nfs), "")], NOWHERE))
  {
    hide PostRestoreMapped, RewriteNfs;
    FieldByField(o, profile);
    assert RewrittenPlacement(NOWHERE, profile.nodeLabels) == NOWHERE;
    assert MappedContainers([], profile.registries) == [];
    assert MappedVolumes([Volume(Some(nfs), "")], profile.nfs) == [Volume(RewriteNfs(Some(nfs), profile.nfs), "")];
  }

  lemma UnsettledNfs(profile: Profile) returns (o: Object)
    requires Validated(profile) && !NfsSettled(profile.nfs)
    ensures PostRestoreMapped(PostRestoreMapped(o, profile), profile) != PostRestoreMapped(o, profile)
  {
    hide PostRestoreMapped, RewriteNfs;
    var values := profile.nfs;
    var i, j :| 0 <= i < |values| && 0 <= j < |values| && values[j].source == values[i].target && values[j].target != values[j].source;
    MappingOfSource(values, i);
    MappingOfSource(values, j);
    o := Running(Template([], [], [Volume(Some(values[i].source), "")], NOWHERE));
    var once := PostRestoreMapped(o, profile);
    MappedMount(o, profile, values[i].source);
    MappedMount(once, profile, values[i].target);
    assert once.template.value.volumes[0].nfs == Some(values[i].target);
    assert PostRestoreMapped(once, profile).template.value.volumes[0].nfs == Some(values[j].target);
  }

  lemma ChainedLabels(profile: Profile) returns (o: Object)
    requires Validated(profile) && !Unchained(profile.nodeLabels)
    ensures PostRestoreMapped(PostRestoreMapped(o, profile), profile) != PostRestoreMapped(o, profile)
  {
    hide PostRestoreMapped;
    var values := profile.nodeLabels;
    NodeLabels.ValidatedHasDistinctTargets(values);
    var k :| !NodeLabels.LinkFree(k, values);
    var target := NodeLabels.LabelTarget(k, values).target;
    assert NodeLabels.LabelTarget(target, values) != NodeLabels.MapTo(target);
    var spread := [Constraint(k, "")];
    var spread' := [Constraint(target, "")];
    assert RewrittenConstraints(spread, values) == spread';
    assert RewrittenConstraints(spread', values) != spread';
    o := Running(Template([], [], [], Placement(None, None, Some(spread))));
    var once := PostRestoreMapped(o, profile);
    FieldByField(o, profile);
    FieldByField(once, profile);
    assert once.template.value.placement.spread == Some(spread');
    assert PostRestoreMapped(once, profile).template.value.placement.spread == Kept(RewrittenConstraints(spread', values));
  }

  /**
   For a validated profile, mapping any object twice is mapping it once exactly when
   the profile is settled. Validation does not ask for that.
   */
  lemma FixpointIffSettled(profile: Profile)
    requires Validated(profile)
    ensures (forall o :: PostRestoreMapped(PostRestoreMapped(o, profile), profile) == PostRestoreMapped(o, profile))
            <==> ProfileSettled(profile)
  {
    hide PostRestoreMapped, Validated, ImagePrefixes.Settled, IngressSettled, Unchained, NfsSettled;
    if ProfileSettled(profile) {
      forall o
        ensures PostRestoreMapped(PostRestoreMapped(o, profile), profile) == PostRestoreMapped(o, profile)
      {
        SettledIsAFixpoint(o, profile);
      }
    } else if !ImagePrefixes.Settled(profile.registries) {
      var o := UnsettledRegistry(profile);
    } else if !IngressSettled(profile.ingress) {
      var o := UnsettledIngress(profile);
    } else if !Unchained(profile.nodeLabels) {
      var o := ChainedLabels(profile);
    } else {
      var o := UnsettledNfs(profile);
    }
  }

  // ---------------------------------------------------------------- update, then verify

  ghost predicate Sound(profile: Profile) { Validated(profile) && ProfileSettled(profile) }

  /** An object as the API server stores it. */
  datatype Stored = Stored(content: Object, revision: nat)

  /** How the server answers the list call of one resource type. */
  datatype Listing = Listed | NotServed | ListFailed

  datatype Outcome = Done | CannotList(resource: nat) | CannotUpdate(resource: nat, index: nat) | Rejected(resource: nat, index: nat)

  datatype Counts = Counts(examined: nat, updated: nat, verified: nat)

  ghost predicate IsMapped(before: Stored, after: Stored, profile: Profile) {
    after.content == PostRestoreMapped(before.content, profile)
  }

  /** Nothing but the mapping can have happened to the object. */
  ghost predicate OnlyMapped(before: Stored, after: Stored, profile: Profile) {
    after == before || IsMapped(before, after, profile)
  }

  ghost predicate NeedsUpdate(o: Stored, profile: Profile) {
    PostRestoreMapped(o.content, profile) != o.content
  }

  ghost function CountNeeding(objects: seq<Stored>, profile: Profile): nat {
    if objects == [] then 0
    else CountNeeding(objects[..|objects| - 1], profile) + (if NeedsUpdate(objects[|objects| - 1], profile) then 1 else 0)
  }

  /** Over the resource types the server lists. */
  ghost function TotalNeeding(stored: seq<seq<Stored>>, listings: seq<Listing>, profile: Profile): nat
    requires |stored| == |listings|
  {
    if stored == [] then 0
    else
      var n := |stored| - 1;
      TotalNeeding(stored[..n], listings[..n], profile) + (if listings[n].Listed? then CountNeeding(stored[n], profile) else 0)
  }

  lemma {:induction false} CountOneMore(objects: seq<Stored>, profile: Profile, i: nat)
    requires i < |objects|
    ensures CountNeeding(objects[..i + 1], profile) == CountNeeding(objects[..i], profile) + (if NeedsUpdate(objects[i], profile) then 1 else 0)
  {
    assert objects[..i + 1][..i] == objects[..i];
  }

  lemma {:induction false} TotalOneMore(stored: seq<seq<Stored>>, listings: seq<Listing>, profile: Profile, r: nat)
    requires |stored| == |listings| && r < |stored|
    ensures TotalNeeding(stored[..r + 1], listings[..r + 1], profile)
            == TotalNeeding(stored[..r], listings[..r], profile) + (if listings[r].Listed? then CountNeeding(stored[r], profile) else 0)
  {
    assert stored[..r + 1][..r] == stored[..r] && listings[..r + 1][..r] == listings[..r];
  }

  lemma UnchainedIsOrderFree(o: Object, profile: Profile)
    requires Sound(profile)
    ensures OrderFree(o, profile.nodeLabels)
  {
    NodeLabels.ValidatedHasDistinctTargets(profile.nodeLabels);
  }

  /** The objects of one resource type in the target namespace. */
  class Collection {
    var objects: seq<Stored>
    ghost var failures: nat  // updates that failed

    constructor (objects: seq<Stored>)
      ensures this.objects == objects
    {
      this.objects := objects;
    }

    /** An update succeeds, or fails, possibly after it took effect. */
    method Update(index: nat, desired: Object) returns (ok: bool)
      requires index < |objects|
      modifies this
      ensures |objects| == |old(objects)|
      ensures forall i :: 0 <= i < |objects| && i != index ==> objects[i] == old(objects)[i]
      ensures ok ==> objects[index] == Stored(desired, old(objects)[index].revision + 1)
      ensures !ok ==> objects[index] in {old(objects)[index], Stored(desired, old(objects)[index].revision + 1)}
      ensures failures == old(failures) + if ok then 0 else 1
    {
      var effective: bool := *;
      ok := *;
      if ok || effective {
        objects := objects[index := Stored(desired, objects[index].revision + 1)];
      }
      failures := failures + if ok then 0 else 1;
    }

    /**
     One object: updated if mapping changes it, then read back and mapped again. It is
     accepted exactly if that changes nothing, which a sound profile ensures.
     */
    method MapOne(index: nat, profile: Profile, optional: nat) returns (changed: bool, ok: bool, accepted: bool)
      requires index < |objects|
      modifies this
      ensures |objects| == |old(objects)|
      ensures forall i :: 0 <= i < |objects| && i != index ==> objects[i] == old(objects)[i]
      ensures accepted ==> changed && ok
      ensures failures == old(failures) + if ok then 0 else 1
      ensures !changed ==> ok && objects == old(objects)
      ensures OrderFree(old(objects)[index].content, profile.nodeLabels) ==>
                && changed == NeedsUpdate(old(objects)[index], profile)
                && (changed && ok ==> objects[index].content == PostRestoreMapped(old(objects)[index].content, profile))
      ensures changed && ok && OrderFree(objects[index].content, profile.nodeLabels) ==>
                (accepted <==> PostRestoreMapped(objects[index].content, profile) == objects[index].content)
      ensures Sound(profile) ==>
                && changed == NeedsUpdate(old(objects)[index], profile)
                && (changed && ok ==> accepted)
                && (ok ==> IsMapped(old(objects)[index], objects[index], profile))
                && OnlyMapped(old(objects)[index], objects[index], profile)
    {
      hide PostRestoreMapped, Sound, OrderFree;
      var current := objects[index];
      if Sound(profile) {
        UnchainedIsOrderFree(current.content, profile);
      }
      var desired := new Unstructured(current.content);
      desired.ApplyPostRestoreMappings(profile, optional);
      if desired.content == current.content {
        return false, true, false;
      }
      changed, accepted := true, false;
      ok := Update(index, desired.content);
      if ok {
        var verification := new Unstructured(objects[index].content);
        if Sound(profile) {
          UnchainedIsOrderFree(objects[index].content, profile);
          SoundIsAFixpoint(current.content, profile);
        }
        verification.ApplyPostRestoreMappings(profile, optional);
        accepted := verification.content == objects[index].content;
      }
    }

    /** One resource type: every listed object is mapped, updated if that changes it, and checked. */
    method MapAll(profile: Profile, optional: nat) returns (counts: Counts, failed: Option<nat>, rejected: bool)
      modifies this
      ensures |objects| == |old(objects)|
      ensures failed.None? ==> counts.examined == |objects| && counts.verified == counts.updated && !rejected
      ensures failed.Some? ==> counts.examined == failed.value + 1 && failed.value < |objects|
      ensures counts.verified <= counts.updated <= counts.examined
      ensures old(failures) <= failures && (failed.Some? && !rejected <==> old(failures) < failures)
      ensures Sound(profile) ==>
                && !rejected && counts.verified == counts.updated
                && (forall i :: 0 <= i < |objects| ==> OnlyMapped(old(objects)[i], objects[i], profile))
                && (failed.None? ==>
                      && counts.updated == CountNeeding(old(objects), profile)
                      && forall i :: 0 <= i < |objects| ==> IsMapped(old(objects)[i], objects[i], profile))
    {
      hide Sound, NeedsUpdate, IsMapped, CountNeeding;
      ghost var before := objects;
      counts, failed, rejected := Counts(0, 0, 0), None, false;
      NothingToCount(profile);
      for index := 0 to |objects|
        invariant |objects| == |before|
        invariant objects[index..] == before[index..] && failures == old(failures)
        invariant counts.examined == index && counts.verified == counts.updated <= index
        invariant Sound(profile) ==>
                    && counts.updated == CountNeeding(before[..index], profile)
                    && forall i :: 0 <= i < index ==> IsMapped(before[i], objects[i], profile)
      {
        assert objects[index] == before[index];
        CountOneMore(before, profile, index);
        counts := counts.(examined := index + 1);
        var changed, ok, accepted := MapOne(index, profile, optional);
        if !ok {
          failed := Some(index);
          return;
        }
        if changed {
          counts := counts.(updated := counts.updated + 1);
          if !accepted {
            failed, rejected := Some(index), true;
            return;
          }
          counts := counts.(verified := counts.verified + 1);
        }
      }
      assert before[..|before|] == before;
    }
  }

  lemma NothingToCount(profile: Profile)
    ensures CountNeeding([], profile) == 0
  {
  }

  lemma SoundIsAFixpoint(o: Object, profile: Profile)
    requires Sound(profile)
    ensures PostRestoreMapped(PostRestoreMapped(o, profile), profile) == PostRestoreMapped(o, profile)
  {
    hide PostRestoreMapped, Validated, ProfileSettled;
    SettledIsAFixpoint(o, profile);
  }

  ghost predicate Distinct(collections: seq<Collection>) {
    forall i, j :: 0 <= i < j < |collections| ==> collections[i] != collections[j]
  }

  ghost function Contents(collections: seq<Collection>): seq<seq<Stored>>
    reads collections
  {
    seq(|collections|, i requires 0 <= i < |collections| reads collections => collections[i].objects)
  }

  ghost predicate AllMapped(before: seq<Stored>, after: seq<Stored>, profile: Profile) {
    |before| == |after| && forall i :: 0 <= i < |before| ==> IsMapped(before[i], after[i], profile)
  }

  ghost predicate AllOnlyMapped(before: seq<Stored>, after: seq<Stored>, profile: Profile) {
    |before| == |after| && forall i :: 0 <= i < |before| ==> OnlyMapped(before[i], after[i], profile)
  }

  /**
   One call over every resource type. Resource types the server does not serve are
   skipped. For a sound profile the check never rejects, every update is verified,
   success maps every listed object, and a failed call has done nothing but map some.
   */
  method ApplyPostRestoreMappings(collections: seq<Collection>, listings: seq<Listing>, profile: Profile, optional: nat)
    returns (counts: Counts, outcome: Outcome)
    requires |collections| == |listings| && Distinct(collections)
    modifies collections
    ensures outcome.Done? ==> forall r :: 0 <= r < |listings| ==> !listings[r].ListFailed?
    ensures outcome.CannotList? ==> outcome.resource < |listings| && listings[outcome.resource].ListFailed?
    ensures outcome.CannotUpdate? ==> outcome.resource < |collections| && old(collections[outcome.resource].failures) < collections[outcome.resource].failures
    ensures outcome.Done? ==> counts.verified == counts.updated
    ensures forall r :: 0 <= r < |listings| && !listings[r].Listed? ==> collections[r].objects == old(collections[r].objects)
    ensures Sound(profile) ==>
              && !outcome.Rejected? && counts.verified == counts.updated
              && (forall r :: 0 <= r < |listings| ==> AllOnlyMapped(old(collections[r].objects), collections[r].objects, profile))
              && (outcome.Done? ==>
                    && counts.updated == TotalNeeding(old(Contents(collections)), listings, profile)
                    && forall r :: 0 <= r < |listings| && listings[r].Listed? ==> AllMapped(old(collections[r].objects), collections[r].objects, profile))
  {
    hide Sound, IsMapped, NeedsUpdate, TotalNeeding, CountNeeding;
    ghost var before := Contents(collections);
    counts, outcome := Counts(0, 0, 0), Done;
    NothingInTotal(profile);
    for r := 0 to |collections|
      invariant counts.verified == counts.updated
      invariant forall k :: 0 <= k < r ==> !listings[k].ListFailed?
      invariant forall k :: r <= k < |collections| ==> collections[k].objects == before[k] && collections[k].failures == old(collections[k].failures)
      invariant forall k :: 0 <= k < r && !listings[k].Listed? ==> collections[k].objects == before[k]
      invariant Sound(profile) ==>
                  && counts.updated == TotalNeeding(before[..r], listings[..r], profile)
                  && forall k :: 0 <= k < r && listings[k].Listed? ==> AllMapped(before[k], collections[k].objects, profile)
    {
      TotalOneMore(before, listings, profile, r);
      match listings[r] {
        case NotServed =>
        case ListFailed =>
          outcome := CannotList(r);
          return;
        case Listed =>
          var here, failed, rejected := collections[r].MapAll(profile, optional);
          counts := Counts(counts.examined + here.examined, counts.updated + here.updated, counts.verified + here.verified);
          if failed.Some? {
            outcome := if rejected then Rejected(r, failed.value) else CannotUpdate(r, failed.value);
            return;
          }
      }
    }
    assert before[..|before|] == before && listings[..|listings|] == listings;
  }

  lemma NothingInTotal(profile: Profile)
    ensures TotalNeeding([], [], profile) == 0
  {
  }

  /** Whatever a failed call left behind, mapping it gives what mapping the original gives. */
  lemma RetryReachesTheSameObjects(before: seq<Stored>, between: seq<Stored>, after: seq<Stored>, profile: Profile)
    requires Sound(profile)
    requires AllOnlyMapped(before, between, profile) && AllMapped(between, after, profile)
    ensures AllMapped(before, after, profile)
  {
    hide PostRestoreMapped, Sound;
    forall i | 0 <= i < |before|
      ensures IsMapped(before[i], after[i], profile)
    {
      SoundIsAFixpoint(before[i].content, profile);
    }
  }

  /** After a success a further call updates nothing. */
  lemma {:induction false} SuccessLeavesNothingToDo(before: seq<Stored>, after: seq<Stored>, profile: Profile)
    requires Sound(profile) && AllMapped(before, after, profile)
    ensures CountNeeding(after, profile) == 0
  {
    hide PostRestoreMapped, Sound;
    if before != [] {
      var n := |before| - 1;
      SoundIsAFixpoint(before[n].content, profile);
      SuccessLeavesNothingToDo(before[..n], after[..n], profile);
    }
  }
}
