/**
 Sharing one claim between the mounts of one source, and planning the transfers
 (normalizeSharedComposeClaims, composeTransfers and targetClaimForMount,
 internal/migration/compose_executor.go:1042-1094, 1125-1218).
 */
module ComposeClaims {
  import opened Wrappers

  datatype MountType = Bind | Volume | OtherMount

  /** clean is the source path after filepath.Clean; absolute says whether that is an absolute path. */
  datatype Mount = Mount(mountType: MountType, source: string, clean: string, absolute: bool, target: string)

  datatype Service = Service(name: string, mounts: seq<Mount>)

  datatype MountPoint = MountPoint(path: string, name: string)

  /** claim is empty for a volume that is not a claim. */
  datatype PodVolume = PodVolume(name: string, claim: string)

  /** A Workload is a Deployment or StatefulSet; serviceLabel is its io.kompose.service label. */
  datatype Document =
    | Workload(name: string, serviceLabel: string, containers: seq<seq<MountPoint>>, volumes: seq<PodVolume>)
    | Claim(name: string)
    | OtherDocument(name: string)

  // ---------------------------------------------------------------- which claim a mount ends up on

  /** The first mount point at the path. */
  function MountedIn(points: seq<MountPoint>, path: string): Option<string> {
    if points == [] then None else if points[0].path == path then Some(points[0].name) else MountedIn(points[1..], path)
  }

  /** The last container that mounts the path decides. */
  function VolumeName(containers: seq<seq<MountPoint>>, path: string): string {
    if containers == [] then ""
    else
      var last := MountedIn(containers[|containers| - 1], path);
      if last.Some? then last.value else VolumeName(containers[..|containers| - 1], path)
  }

  function ClaimIn(volumes: seq<PodVolume>, name: string): Option<string> {
    if volumes == [] then None
    else if volumes[0].name == name && volumes[0].claim != "" then Some(volumes[0].claim)
    else ClaimIn(volumes[1..], name)
  }

  function ClaimOf(doc: Document, service: string, path: string): Option<string> {
    if doc.Workload? && (doc.name == service || doc.serviceLabel == service) then ClaimIn(doc.volumes, VolumeName(doc.containers, path)) else None
  }

  function TargetClaim(docs: seq<Document>, service: string, path: string): (claim: Option<string>)
    ensures claim.Some? ==> claim.value != ""
  {
    if docs == [] then None
    else
      var here := ClaimOf(docs[0], service, path);
      ClaimIsNamed(docs[0], service, path);
      if here.Some? then here else TargetClaim(docs[1..], service, path)
  }

  lemma ClaimIsNamed(doc: Document, service: string, path: string)
    ensures ClaimOf(doc, service, path).Some? ==> ClaimOf(doc, service, path).value != ""
  {
    if doc.Workload? {
      ClaimInIsNamed(doc.volumes, VolumeName(doc.containers, path));
    }
  }

  lemma {:induction false} ClaimInIsNamed(volumes: seq<PodVolume>, name: string)
    ensures ClaimIn(volumes, name).Some? ==> ClaimIn(volumes, name).value != ""
  {
    if volumes != [] {
      ClaimInIsNamed(volumes[1..], name);
    }
  }

  /** The first mount point with the path, of this container. */
  lemma {:induction false} MountedAt(points: seq<MountPoint>, path: string, j: nat)
    requires j < |points| && points[j].path == path && forall k :: 0 <= k < j ==> points[k].path != path
    ensures MountedIn(points, path) == Some(points[j].name)
  {
    if j > 0 {
      MountedAt(points[1..], path, j - 1);
    }
  }

  lemma {:induction false} NotMounted(points: seq<MountPoint>, path: string)
    requires forall point :: point in points ==> point.path != path
    ensures MountedIn(points, path).None?
  {
    if points != [] {
      NotMounted(points[1..], path);
    }
  }

  /** The last container that mounts the path decides, with its first mount point there. */
  lemma {:induction false} VolumeAt(containers: seq<seq<MountPoint>>, path: string, i: nat, j: nat)
    requires i < |containers| && j < |containers[i]| && containers[i][j].path == path
    requires forall k :: 0 <= k < j ==> containers[i][k].path != path
    requires forall k, point :: i < k < |containers| && point in containers[k] ==> point.path != path
    ensures VolumeName(containers, path) == containers[i][j].name
  {
    var n := |containers| - 1;
    if i == n {
      MountedAt(containers[i], path, j);
    } else {
      NotMounted(containers[n], path);
      VolumeAt(containers[..n], path, i, j);
    }
  }

  /** The first volume of that name that is a claim. */
  lemma {:induction false} ClaimAt(volumes: seq<PodVolume>, name: string, v: nat)
    requires v < |volumes| && volumes[v].name == name && volumes[v].claim != ""
    requires forall k :: 0 <= k < v ==> volumes[k].name != name || volumes[k].claim == ""
    ensures ClaimIn(volumes, name) == Some(volumes[v].claim)
  {
    if v > 0 {
      ClaimAt(volumes[1..], name, v - 1);
    }
  }

  /** A mount is on the claim that the first workload of its service, by name or label, has at its path. */
  lemma {:induction false} MountIsOn(docs: seq<Document>, service: string, path: string, d: nat, i: nat, j: nat, v: nat)
    requires d < |docs| && docs[d].Workload? && (docs[d].name == service || docs[d].serviceLabel == service)
    requires forall k :: 0 <= k < d ==> !(docs[k].Workload? && (docs[k].name == service || docs[k].serviceLabel == service))
    requires var containers := docs[d].containers;
             && i < |containers| && j < |containers[i]| && containers[i][j].path == path
             && (forall k :: 0 <= k < j ==> containers[i][k].path != path)
             && forall k, point :: i < k < |containers| && point in containers[k] ==> point.path != path
    requires var volumes, name := docs[d].volumes, docs[d].containers[i][j].name;
             && v < |volumes| && volumes[v].name == name && volumes[v].claim != ""
             && forall k :: 0 <= k < v ==> volumes[k].name != name || volumes[k].claim == ""
    ensures TargetClaim(docs, service, path) == Some(docs[d].volumes[v].claim)
  {
    hide VolumeName, ClaimIn;
    if d > 0 {
      MountIsOn(docs[1..], service, path, d - 1, i, j, v);
    } else {
      VolumeAt(docs[0].containers, path, i, j);
      ClaimAt(docs[0].volumes, docs[0].containers[i][j].name, v);
    }
  }

  // ---------------------------------------------------------------- the data mounts of an application

  datatype Item = Item(service: string, mount: Mount)

  /** What the claims are shared by. */
  datatype Key = Key(mountType: MountType, clean: string)

  function KeyOf(item: Item): Key { Key(item.mount.mountType, item.mount.clean) }

  function DataMounts(service: string, mounts: seq<Mount>): seq<Item> {
    if mounts == [] then []
    else
      var last := mounts[|mounts| - 1];
      DataMounts(service, mounts[..|mounts| - 1]) + (if last.mountType.OtherMount? then [] else [Item(service, last)])
  }

  function Items(services: seq<Service>): seq<Item> {
    if services == [] then []
    else
      var last := services[|services| - 1];
      Items(services[..|services| - 1]) + DataMounts(last.name, last.mounts)
  }

  // ---------------------------------------------------------------- normalisation, step by step

  function RedirectVolumes(volumes: seq<PodVolume>, from: string, to: string): seq<PodVolume> {
    seq(|volumes|, i requires 0 <= i < |volumes| => if volumes[i].claim == from then volumes[i].(claim := to) else volumes[i])
  }

  function RedirectDocument(doc: Document, name: string, from: string, to: string): Document {
    if doc.Workload? && doc.name == name then doc.(volumes := RedirectVolumes(doc.volumes, from, to)) else doc
  }

  /** In every workload of this name, one claim is replaced by another. */
  function Redirect(docs: seq<Document>, name: string, from: string, to: string): seq<Document> {
    seq(|docs|, i requires 0 <= i < |docs| => RedirectDocument(docs[i], name, from, to))
  }

  datatype State = State(docs: seq<Document>, canonical: map<Key, string>, duplicates: set<string>)

  function Start(docs: seq<Document>): State { State(docs, map[], {}) }

  /** One data mount. */
  function Step(s: State, item: Item): Option<State> {
    var claim := TargetClaim(s.docs, item.service, item.mount.target);
    if claim.None? then None
    else if KeyOf(item) !in s.canonical then Some(s.(canonical := s.canonical[KeyOf(item) := claim.value]))
    else if s.canonical[KeyOf(item)] == claim.value then Some(s)
    else Some(s.(docs := Redirect(s.docs, item.service, claim.value, s.canonical[KeyOf(item)]), duplicates := s.duplicates + {claim.value}))
  }

  function Run(s: State, items: seq<Item>): Option<State> {
    if items == [] then Some(s)
    else
      var before := Run(s, items[..|items| - 1]);
      if before.None? then None else Step(before.value, items[|items| - 1])
  }

  function WithoutClaims(docs: seq<Document>, removed: set<string>): seq<Document> {
    if docs == [] then []
    else
      var last := docs[|docs| - 1];
      WithoutClaims(docs[..|docs| - 1], removed) + (if last.Claim? && last.name in removed then [] else [last])
  }

  function Normalized(docs: seq<Document>, services: seq<Service>): Option<seq<Document>> {
    var end := Run(Start(docs), Items(services));
    if end.None? then None else Some(WithoutClaims(end.value.docs, end.value.duplicates))
  }

  lemma OneMoreItem(s: State, items: seq<Item>, item: Item)
    ensures Run(s, items + [item]) == if Run(s, items).None? then None else Step(Run(s, items).value, item)
  {
  }

  // ---------------------------------------------------------------- in place, as the source does it

  /** A converted manifest. */
  class Conversion {
    var documents: seq<Document>

    constructor (docs: seq<Document>)
      ensures documents == docs
    {
      documents := docs;
    }

    method RedirectClaims(name: string, from: string, to: string)
      modifies this
      ensures documents == Redirect(old(documents), name, from, to)
    {
      for i := 0 to |documents|
        invariant |documents| == |old(documents)|
        invariant forall k :: 0 <= k < i ==> documents[k] == RedirectDocument(old(documents)[k], name, from, to)
        invariant forall k :: i <= k < |documents| ==> documents[k] == old(documents)[k]
      {
        var doc := documents[i];
        if !doc.Workload? || doc.name != name {
          continue;
        }
        var volumes := doc.volumes;
        for j := 0 to |volumes|
          invariant |volumes| == |doc.volumes|
          invariant forall k :: 0 <= k < j ==> volumes[k] == RedirectVolumes(doc.volumes, from, to)[k]
          invariant forall k :: j <= k < |volumes| ==> volumes[k] == doc.volumes[k]
        {
          if volumes[j].claim == from {
            volumes := volumes[j := volumes[j].(claim := to)];
          }
        }
        assert volumes == RedirectVolumes(doc.volumes, from, to);
        documents := documents[i := doc.(volumes := volumes)];
      }
    }

    /** documents := result.Documents[:0]; the kept ones are appended over it. */
    method DropClaims(removed: set<string>)
      modifies this
      ensures documents == WithoutClaims(old(documents), removed)
    {
      var all, kept := documents, [];
      for i := 0 to |all|
        invariant kept == WithoutClaims(all[..i], removed)
      {
        assert all[..i + 1][..i] == all[..i];
        if all[i].Claim? && all[i].name in removed {
          continue;
        }
        kept := kept + [all[i]];
      }
      assert all[..|all|] == all;
      documents := kept;
    }

    /** One data mount: it sets the claim of its source, has it already, or is redirected to it. */
    method ShareClaim(item: Item, canonical: map<Key, string>, duplicates: set<string>)
      returns (ok: bool, canonical': map<Key, string>, duplicates': set<string>)
      modifies this
      ensures ok == Step(State(old(documents), canonical, duplicates), item).Some?
      ensures ok ==> Step(State(old(documents), canonical, duplicates), item) == Some(State(documents, canonical', duplicates'))
    {
      ok, canonical', duplicates' := true, canonical, duplicates;
      var claim := TargetClaim(documents, item.service, item.mount.target);
      if claim.None? {
        return false, canonical, duplicates;
      }
      if KeyOf(item) !in canonical {
        canonical' := canonical[KeyOf(item) := claim.value];
        return;
      }
      var first := canonical[KeyOf(item)];
      if first == claim.value {
        return;
      }
      RedirectClaims(item.service, claim.value, first);
      duplicates' := duplicates + {claim.value};
    }

    method NormalizeSharedClaims(services: seq<Service>) returns (ok: bool)
      modifies this
      ensures ok == Normalized(old(documents), services).Some?
      ensures ok ==> documents == Normalized(old(documents), services).value
    {
      hide Run, Step, Items, DataMounts;
      ghost var start := Start(documents);
      var canonical: map<Key, string>, duplicates: set<string> := map[], {};
      NothingDone(start, "");
      for i := 0 to |services|
        invariant Run(start, Items(services[..i])) == Some(State(documents, canonical, duplicates))
      {
        var service := services[i];
        ghost var before := Items(services[..i]);
        NothingDone(start, service.name);
        assert service.mounts[..0] == [] && before + [] == before;
        for j := 0 to |service.mounts|
          invariant Run(start, before + DataMounts(service.name, service.mounts[..j])) == Some(State(documents, canonical, duplicates))
        {
          var mount := service.mounts[j];
          ghost var done := before + DataMounts(service.name, service.mounts[..j]);
          OneMoreMount(service.name, service.mounts, j);
          if mount.mountType.OtherMount? {
            assert before + DataMounts(service.name, service.mounts[..j + 1]) == done;
            continue;
          }
          var item := Item(service.name, mount);
          OneMoreItem(start, done, item);
          assert before + DataMounts(service.name, service.mounts[..j + 1]) == done + [item];
          ok, canonical, duplicates := ShareClaim(item, canonical, duplicates);
          if !ok {
            NoneForEver(start, services, i, j);
            return;
          }
        }
        assert service.mounts[..|service.mounts|] == service.mounts;
        OneMoreService(services, i);
      }
      assert services[..|services|] == services;
      DropClaims(duplicates);
      ok := true;
    }
  }

  lemma NothingDone(start: State, service: string)
    ensures Items([]) == [] && DataMounts(service, []) == [] && Run(start, []) == Some(start)
  {
  }

  lemma OneMoreMount(service: string, mounts: seq<Mount>, j: nat)
    requires j < |mounts|
    ensures DataMounts(service, mounts[..j + 1])
            == DataMounts(service, mounts[..j]) + (if mounts[j].mountType.OtherMount? then [] else [Item(service, mounts[j])])
  {
    assert mounts[..j + 1][..j] == mounts[..j];
  }

  lemma OneMoreService(services: seq<Service>, i: nat)
    requires i < |services|
    ensures Items(services[..i + 1]) == Items(services[..i]) + DataMounts(services[i].name, services[i].mounts)
  {
    assert services[..i + 1][..i] == services[..i];
  }

  /** A mount without a claim fails the whole call. */
  lemma NoneForEver(start: State, services: seq<Service>, i: nat, j: nat)
    requires i < |services| && j < |services[i].mounts|
    requires Run(start, Items(services[..i]) + DataMounts(services[i].name, services[i].mounts[..j + 1])).None?
    ensures Run(start, Items(services)).None?
  {
    hide Run, Items, DataMounts;
    var before, here, all := Items(services[..i]), DataMounts(services[i].name, services[i].mounts[..j + 1]), Items(services);
    MountsGrow(services[i].name, services[i].mounts, j + 1);
    OneMoreService(services, i);
    ItemsGrow(services, i + 1);
    assert before + here <= all;
    FailureStays(start, before + here, all[|before + here|..]);
    assert before + here + all[|before + here|..] == all;
  }

  lemma {:induction false} MountsGrow(service: string, mounts: seq<Mount>, j: nat)
    requires j <= |mounts|
    ensures DataMounts(service, mounts[..j]) <= DataMounts(service, mounts)
  {
    if j == |mounts| {
      assert mounts[..j] == mounts;
    } else {
      MountsGrow(service, mounts[..|mounts| - 1], j);
      assert mounts[..|mounts| - 1][..j] == mounts[..j];
    }
  }

  lemma {:induction false} ItemsGrow(services: seq<Service>, i: nat)
    requires i <= |services|
    ensures Items(services[..i]) <= Items(services)
  {
    if i == |services| {
      assert services[..i] == services;
    } else {
      ItemsGrow(services[..|services| - 1], i);
      assert services[..|services| - 1][..i] == services[..i];
    }
  }

  lemma {:induction false} FailureStays(s: State, items: seq<Item>, more: seq<Item>)
    requires Run(s, items).None?
    ensures Run(s, items + more).None?
  {
    if more == [] {
      assert items + more == items;
    } else {
      FailureStays(s, items, more[..|more| - 1]);
      assert (items + more)[..|items + more| - 1] == items + more[..|more| - 1];
    }
  }

  // ---------------------------------------------------------------- the closed form

  /** Where a mount's claim is before anything is normalised. */
  function Initial(docs: seq<Document>, item: Item): Option<string> { TargetClaim(docs, item.service, item.mount.target) }

  /** The claim of a source: the one its first mount started on. */
  function Canonical(docs: seq<Document>, items: seq<Item>, key: Key): Option<string> {
    if items == [] then None
    else if KeyOf(items[0]) == key then Initial(docs, items[0])
    else Canonical(docs, items[1..], key)
  }

  /** Different sources start on different claims. */
  ghost predicate ApartAtFirst(docs: seq<Document>, items: seq<Item>) {
    forall a, b :: a in items && b in items && Initial(docs, a).Some? && Initial(docs, a) == Initial(docs, b) ==> KeyOf(a) == KeyOf(b)
  }

  /** The name of the workload a mount is resolved in. */
  function Resolver(docs: seq<Document>, service: string, path: string): Option<string> {
    if docs == [] then None
    else if ClaimOf(docs[0], service, path).Some? then Some(docs[0].name)
    else Resolver(docs[1..], service, path)
  }

  function ResolverOf(docs: seq<Document>, item: Item): Option<string> { Resolver(docs, item.service, item.mount.target) }

  /** Some data mount belongs to a service of this name. */
  ghost predicate IsService(items: seq<Item>, name: string) { exists item :: item in items && item.service == name }

  ghost predicate HasWorkload(docs: seq<Document>, name: string) { exists doc :: doc in docs && doc.Workload? && doc.name == name }

  /**
   No mount is resolved, by label, in a workload that is named after another service
   while its own service has a workload of its name. Workloads that carry only the
   label of their service are fine, and so are those named after it.
   */
  ghost predicate Unmixed(docs: seq<Document>, items: seq<Item>) {
    forall item :: item in items && ResolverOf(docs, item).Some? ==>
      || ResolverOf(docs, item).value == item.service
      || !IsService(items, ResolverOf(docs, item).value)
      || !HasWorkload(docs, item.service)
  }

  /** A workload that carries the label of a service has its name. */
  ghost predicate NamedByService(docs: seq<Document>, items: seq<Item>) {
    forall doc, item :: doc in docs && item in items && doc.Workload? && doc.serviceLabel == item.service ==> doc.name == item.service
  }

  /** No workload answers to two services, and no service to two workloads, by name or label. */
  ghost predicate OneToOne(docs: seq<Document>, items: seq<Item>) {
    && (forall doc, a, b :: doc in docs && a in items && b in items && Answers(doc, a.service) && Answers(doc, b.service) ==> a.service == b.service)
    && (forall doc, other, item :: doc in docs && other in docs && item in items && Answers(doc, item.service) && Answers(other, item.service) ==> doc == other)
  }

  predicate Answers(doc: Document, service: string) { doc.Workload? && (doc.name == service || doc.serviceLabel == service) }

  lemma {:induction false} ResolverIs(docs: seq<Document>, service: string, path: string)
    ensures Resolver(docs, service, path).Some? <==> TargetClaim(docs, service, path).Some?
    ensures Resolver(docs, service, path).Some? ==>
              exists doc :: doc in docs && Answers(doc, service) && doc.name == Resolver(docs, service, path).value
  {
    if docs != [] {
      ResolverIs(docs[1..], service, path);
      assert docs[0] in docs && forall doc :: doc in docs[1..] ==> doc in docs;
    }
  }

  /** Both ways Kompose labels its workloads are unmixed. */
  lemma NamedOrOneToOneIsUnmixed(docs: seq<Document>, items: seq<Item>)
    requires NamedByService(docs, items) || OneToOne(docs, items)
    ensures Unmixed(docs, items)
  {
    forall item | item in items && ResolverOf(docs, item).Some? && ResolverOf(docs, item).value != item.service
      ensures !IsService(items, ResolverOf(docs, item).value) || !HasWorkload(docs, item.service)
    {
      ResolverIs(docs, item.service, item.mount.target);
      var doc :| doc in docs && Answers(doc, item.service) && doc.name == ResolverOf(docs, item).value;
      if other :| other in items && other.service == doc.name {
        assert Answers(doc, other.service);
      }
    }
  }

  ghost predicate AllResolve(docs: seq<Document>, items: seq<Item>) {
    forall item :: item in items ==> Initial(docs, item).Some?
  }

  /** A mount of this workload's service that starts on the claim. */
  ghost predicate UsedBy(docs: seq<Document>, items: seq<Item>, name: string, claim: string, item: Item) {
    item in items && item.service == name && Initial(docs, item) == Some(claim)
  }

  /** The claim a workload names after normalisation. */
  ghost function Moved(docs: seq<Document>, items: seq<Item>, name: string, claim: string): string {
    if item :| UsedBy(docs, items, name, claim, item) then
      (if Canonical(docs, items, KeyOf(item)).Some? then Canonical(docs, items, KeyOf(item)).value else claim)
    else claim
  }

  lemma {:induction false} CanonicalIsFirst(docs: seq<Document>, items: seq<Item>, key: Key)
    requires AllResolve(docs, items)
    ensures Canonical(docs, items, key).Some? <==> exists item :: item in items && KeyOf(item) == key
    ensures Canonical(docs, items, key).Some? ==> exists item :: item in items && KeyOf(item) == key && Initial(docs, item) == Canonical(docs, items, key)
  {
    if items != [] {
      CanonicalIsFirst(docs, items[1..], key);
      assert items == [items[0]] + items[1..];
    }
  }

  lemma {:induction false} CanonicalGrows(docs: seq<Document>, items: seq<Item>, item: Item, key: Key)
    requires AllResolve(docs, items)
    ensures Canonical(docs, items + [item], key) ==
            if Canonical(docs, items, key).Some? then Canonical(docs, items, key)
            else if KeyOf(item) == key then Initial(docs, item) else None
  {
    if items != [] {
      assert (items + [item])[1..] == items[1..] + [item];
      CanonicalGrows(docs, items[1..], item, key);
    }
  }

  lemma MovedIs(docs: seq<Document>, items: seq<Item>, name: string, claim: string, item: Item)
    requires AllResolve(docs, items) && ApartAtFirst(docs, items) && UsedBy(docs, items, name, claim, item)
    ensures Canonical(docs, items, KeyOf(item)) == Some(Moved(docs, items, name, claim))
  {
  }

  lemma MovedIsNamed(docs: seq<Document>, items: seq<Item>, name: string, claim: string)
    requires AllResolve(docs, items) && ApartAtFirst(docs, items)
    ensures Moved(docs, items, name, claim) == "" <==> claim == ""
  {
    if item :| UsedBy(docs, items, name, claim, item) {
      MovedIs(docs, items, name, claim, item);
      CanonicalIsFirst(docs, items, KeyOf(item));
    }
  }

  ghost function MovedDocument(docs: seq<Document>, items: seq<Item>, doc: Document): Document {
    if doc.Workload? then
      doc.(volumes := seq(|doc.volumes|, i requires 0 <= i < |doc.volumes| =>
        doc.volumes[i].(claim := Moved(docs, items, doc.name, doc.volumes[i].claim))))
    else doc
  }

  ghost function MovedDocuments(docs: seq<Document>, items: seq<Item>, part: seq<Document>): seq<Document> {
    seq(|part|, i requires 0 <= i < |part| => MovedDocument(docs, items, part[i]))
  }

  lemma {:induction false} ClaimInMoves(docs: seq<Document>, items: seq<Item>, service: string, volumes: seq<PodVolume>, moved: seq<PodVolume>, name: string)
    requires AllResolve(docs, items) && ApartAtFirst(docs, items)
    requires |moved| == |volumes|
    requires forall i :: 0 <= i < |volumes| ==> moved[i] == volumes[i].(claim := Moved(docs, items, service, volumes[i].claim))
    ensures ClaimIn(moved, name) == match ClaimIn(volumes, name) case None => None case Some(claim) => Some(Moved(docs, items, service, claim))
  {
    hide Moved, AllResolve, ApartAtFirst;
    if volumes != [] {
      MovedIsNamed(docs, items, service, volumes[0].claim);
      ClaimInMoves(docs, items, service, volumes[1..], moved[1..], name);
    }
  }

  /** After the move, a mount is on the claim its resolving workload moved to. */
  lemma {:induction false} ResolutionMoves(docs: seq<Document>, items: seq<Item>, part: seq<Document>, service: string, path: string)
    requires AllResolve(docs, items) && ApartAtFirst(docs, items)
    ensures TargetClaim(part, service, path).Some? <==> Resolver(part, service, path).Some?
    ensures TargetClaim(MovedDocuments(docs, items, part), service, path)
            == match TargetClaim(part, service, path)
               case None => None
               case Some(claim) => Some(Moved(docs, items, Resolver(part, service, path).value, claim))
  {
    hide Moved, AllResolve, ApartAtFirst;
    ResolverIs(part, service, path);
    var moved := MovedDocuments(docs, items, part);
    if part != [] {
      assert moved[1..] == MovedDocuments(docs, items, part[1..]);
      if part[0].Workload? {
        ClaimInMoves(docs, items, part[0].name, part[0].volumes, moved[0].volumes, VolumeName(part[0].containers, path));
      }
      ResolutionMoves(docs, items, part[1..], service, path);
    }
  }

  /** This claim is some mount's first claim, but not the claim of its source. */
  ghost predicate Replaced(docs: seq<Document>, items: seq<Item>, claim: string) {
    exists item :: item in items && Initial(docs, item) == Some(claim) && Canonical(docs, items, KeyOf(item)) != Some(claim)
  }

  ghost predicate Represents(docs: seq<Document>, items: seq<Item>, s: State) {
    && s.docs == MovedDocuments(docs, items, docs)
    && (forall key :: key in s.canonical <==> Canonical(docs, items, key).Some?)
    && (forall key :: key in s.canonical ==> Canonical(docs, items, key) == Some(s.canonical[key]))
    && (forall claim :: claim in s.duplicates <==> Replaced(docs, items, claim))
  }

  lemma MovedGrows(docs: seq<Document>, items: seq<Item>, item: Item, name: string, claim: string)
    requires AllResolve(docs, items + [item]) && ApartAtFirst(docs, items + [item])
    ensures item.service == name && Initial(docs, item) == Some(claim) ==>
              Some(Moved(docs, items + [item], name, claim)) == Canonical(docs, items + [item], KeyOf(item))
    ensures !(item.service == name && Initial(docs, item) == Some(claim)) ==>
              Moved(docs, items + [item], name, claim) == Moved(docs, items, name, claim)
  {
    var more := items + [item];
    assert forall x :: x in more <==> x in items || x == item;
    assert item in more;
    assert AllResolve(docs, items) && ApartAtFirst(docs, items);
    CanonicalGrows(docs, items, item, KeyOf(item));
    CanonicalIsFirst(docs, more, KeyOf(item));
    if item.service == name && Initial(docs, item) == Some(claim) {
      MovedIs(docs, more, name, claim, item);
    } else if other :| UsedBy(docs, items, name, claim, other) {
      MovedIs(docs, items, name, claim, other);
      MovedIs(docs, more, name, claim, other);
      CanonicalGrows(docs, items, item, KeyOf(other));
    } else {
      forall other
        ensures !UsedBy(docs, more, name, claim, other)
      {
        assert !UsedBy(docs, items, name, claim, other);
      }
    }
  }

  /** The claim a mount is found on when its turn comes. */
  lemma CurrentClaim(docs: seq<Document>, items: seq<Item>, item: Item, s: State)
    requires AllResolve(docs, items + [item]) && ApartAtFirst(docs, items + [item])
    requires Represents(docs, items, s)
    ensures Initial(docs, item).Some? && ResolverOf(docs, item).Some?
    ensures TargetClaim(s.docs, item.service, item.mount.target) == Some(Moved(docs, items, ResolverOf(docs, item).value, Initial(docs, item).value))
  {
    hide Moved, Represents;
    assert s.docs == MovedDocuments(docs, items, docs) by { DocsOf(docs, items, s); }
    assert item in items + [item];
    assert forall x :: x in items ==> x in items + [item];
    ResolutionMoves(docs, items, docs, item.service, item.mount.target);
  }

  lemma DocsOf(docs: seq<Document>, items: seq<Item>, s: State)
    requires Represents(docs, items, s)
    ensures s.docs == MovedDocuments(docs, items, docs)
  {
  }

  /** If redirecting one claim of one name is all that changes, the documents are the redirected ones. */
  lemma RedirectedDocuments(docs: seq<Document>, items: seq<Item>, more: seq<Item>, name: string, from: string, to: string)
    requires forall claim :: Moved(docs, more, name, claim) == if Moved(docs, items, name, claim) == from then to else Moved(docs, items, name, claim)
    requires forall other, claim :: other != name ==> Moved(docs, more, other, claim) == Moved(docs, items, other, claim)
    ensures MovedDocuments(docs, more, docs) == Redirect(MovedDocuments(docs, items, docs), name, from, to)
  {
    hide Moved;
    var before, after := MovedDocuments(docs, items, docs), MovedDocuments(docs, more, docs);
    forall i | 0 <= i < |docs|
      ensures after[i] == RedirectDocument(before[i], name, from, to)
    {
      if docs[i].Workload? {
        assert docs[i].name == name ==> after[i].volumes == RedirectVolumes(before[i].volumes, from, to);
        assert docs[i].name != name ==> after[i].volumes == before[i].volumes;
      }
    }
  }

  lemma SameDocuments(docs: seq<Document>, items: seq<Item>, more: seq<Item>)
    requires forall name, claim :: HasWorkload(docs, name) ==> Moved(docs, more, name, claim) == Moved(docs, items, name, claim)
    ensures MovedDocuments(docs, more, docs) == MovedDocuments(docs, items, docs)
  {
    hide Moved;
    forall i | 0 <= i < |docs|
      ensures MovedDocument(docs, more, docs[i]) == MovedDocument(docs, items, docs[i])
    {
      if docs[i].Workload? {
        assert docs[i] in docs && HasWorkload(docs, docs[i].name);
        assert MovedDocument(docs, more, docs[i]).volumes == MovedDocument(docs, items, docs[i]).volumes;
      }
    }
  }

  lemma ReplacedGrows(docs: seq<Document>, items: seq<Item>, item: Item, claim: string)
    requires AllResolve(docs, items + [item])
    ensures Replaced(docs, items + [item], claim) <==>
            Replaced(docs, items, claim) || (Initial(docs, item) == Some(claim) && Canonical(docs, items + [item], KeyOf(item)) != Some(claim))
  {
    var more := items + [item];
    assert forall x :: x in more <==> x in items || x == item;
    forall other | other in items
      ensures Canonical(docs, more, KeyOf(other)) == Canonical(docs, items, KeyOf(other))
    {
      CanonicalIsFirst(docs, items, KeyOf(other));
      CanonicalGrows(docs, items, item, KeyOf(other));
    }
  }

  /** Before its turn a claim is where it started, or on the claim of the source whose mount started there. */
  lemma MovedOrNot(docs: seq<Document>, items: seq<Item>, item: Item, name: string)
    requires AllResolve(docs, items + [item]) && ApartAtFirst(docs, items + [item])
    ensures Initial(docs, item).Some?
    ensures var claim := Initial(docs, item); var current := Moved(docs, items, name, claim.value);
            || (Some(current) == claim && !exists other :: UsedBy(docs, items, name, claim.value, other))
            || (IsService(items, name) && Some(current) == Canonical(docs, items, KeyOf(item)) && (Some(current) != claim ==> Replaced(docs, items, claim.value)))
  {
    var more := items + [item];
    assert forall x :: x in more <==> x in items || x == item;
    assert item in more;
    assert AllResolve(docs, items) && ApartAtFirst(docs, items);
    var claim := Initial(docs, item).value;
    if other :| UsedBy(docs, items, name, claim, other) {
      MovedIs(docs, items, name, claim, other);
      assert KeyOf(other) == KeyOf(item);
    }
  }

  /** No other claim has been moved onto the one that is about to be replaced. */
  lemma NothingElseIsThere(docs: seq<Document>, items: seq<Item>, item: Item, claim: string)
    requires AllResolve(docs, items + [item]) && ApartAtFirst(docs, items + [item])
    requires Canonical(docs, items, KeyOf(item)).Some? && Canonical(docs, items, KeyOf(item)) != Initial(docs, item)
    requires Some(claim) != Initial(docs, item)
    ensures Some(Moved(docs, items, item.service, claim)) != Initial(docs, item)
  {
    var more := items + [item];
    assert forall x :: x in more <==> x in items || x == item;
    assert item in more;
    assert AllResolve(docs, items) && ApartAtFirst(docs, items);
    if other :| UsedBy(docs, items, item.service, claim, other) {
      MovedIs(docs, items, item.service, claim, other);
      CanonicalIsFirst(docs, items, KeyOf(other));
      var first :| first in items && KeyOf(first) == KeyOf(other) && Initial(docs, first) == Canonical(docs, items, KeyOf(other));
      assert first in more;
    }
  }

  /** A step that finds the claim in place leaves the closed form as it was. */
  lemma InPlaceStepMovesNothing(docs: seq<Document>, items: seq<Item>, item: Item, name: string, claim: string)
    requires AllResolve(docs, items + [item]) && ApartAtFirst(docs, items + [item]) && Unmixed(docs, items + [item])
    requires ResolverOf(docs, item).Some? && Initial(docs, item).Some? && HasWorkload(docs, name)
    requires var first, current := Canonical(docs, items, KeyOf(item)), Moved(docs, items, ResolverOf(docs, item).value, Initial(docs, item).value);
             first.None? || first == Some(current)
    ensures Moved(docs, items + [item], name, claim) == Moved(docs, items, name, claim)
  {
    hide Moved, ApartAtFirst, AllResolve, Replaced;
    var more, resolver, started := items + [item], ResolverOf(docs, item).value, Initial(docs, item).value;
    MovedGrows(docs, items, item, name, claim);
    if name == item.service && started == claim {
      Fewer(docs, items, item);
      CanonicalGrows(docs, items, item, KeyOf(item));
      MovedOrNot(docs, items, item, name);
      MovedOrNot(docs, items, item, resolver);
      assert item in more && forall x :: x in items ==> x in more;
      StaysOrUsed(docs, items, name, claim);
    }
  }

  lemma StaysOrUsed(docs: seq<Document>, items: seq<Item>, name: string, claim: string)
    ensures (!exists item :: UsedBy(docs, items, name, claim, item)) ==> Moved(docs, items, name, claim) == claim
  {
  }

  lemma StepRepresents(docs: seq<Document>, items: seq<Item>, item: Item, s: State)
    requires AllResolve(docs, items + [item]) && ApartAtFirst(docs, items + [item]) && Unmixed(docs, items + [item])
    requires Represents(docs, items, s)
    ensures Step(s, item).Some? && Represents(docs, items + [item], Step(s, item).value)
  {
    hide Moved, ApartAtFirst, Unmixed, Replaced, AllResolve, Redirect;
    var more := items + [item];
    CurrentClaim(docs, items, item, s);
    var claim, resolver := Initial(docs, item).value, ResolverOf(docs, item).value;
    var current := Moved(docs, items, resolver, claim);
    MovedOrNot(docs, items, item, resolver);
    assert AllResolve(docs, items) by { Fewer(docs, items, item); }
    forall key
      ensures Canonical(docs, more, key) ==
              if Canonical(docs, items, key).Some? then Canonical(docs, items, key)
              else if KeyOf(item) == key then Some(claim) else None
    {
      CanonicalGrows(docs, items, item, key);
    }
    forall c
      ensures Replaced(docs, more, c) <==> Replaced(docs, items, c) || (claim == c && Canonical(docs, more, KeyOf(item)) != Some(c))
    {
      ReplacedGrows(docs, items, item, c);
    }
    var first := Canonical(docs, items, KeyOf(item));
    if first.None? || first == Some(current) {
      forall name, c | HasWorkload(docs, name)
        ensures Moved(docs, more, name, c) == Moved(docs, items, name, c)
      {
        InPlaceStepMovesNothing(docs, items, item, name, c);
      }
      SameDocuments(docs, items, more);
    } else {
      RedirectingStep(docs, items, item, first.value);
    }
  }

  /** A step that finds another claim moves it, in the workloads named after the service. */
  lemma RedirectingStep(docs: seq<Document>, items: seq<Item>, item: Item, first: string)
    requires AllResolve(docs, items + [item]) && ApartAtFirst(docs, items + [item])
    requires Canonical(docs, items, KeyOf(item)) == Some(first) && Initial(docs, item).Some? && Initial(docs, item) != Some(first)
    ensures MovedDocuments(docs, items + [item], docs) == Redirect(MovedDocuments(docs, items, docs), item.service, Initial(docs, item).value, first)
  {
    hide Moved, ApartAtFirst, AllResolve, Replaced, Redirect;
    var more, claim := items + [item], Initial(docs, item).value;
    Fewer(docs, items, item);
    CanonicalGrows(docs, items, item, KeyOf(item));
    MovedOrNot(docs, items, item, item.service);
    forall name, c
      ensures name == item.service && c == claim ==> Some(Moved(docs, more, name, c)) == Canonical(docs, more, KeyOf(item))
      ensures !(name == item.service && c == claim) ==> Moved(docs, more, name, c) == Moved(docs, items, name, c)
    {
      MovedGrows(docs, items, item, name, c);
    }
    forall c
      ensures Moved(docs, more, item.service, c) == if Moved(docs, items, item.service, c) == claim then first else Moved(docs, items, item.service, c)
    {
      if c != claim {
        NothingElseIsThere(docs, items, item, c);
      }
    }
    RedirectedDocuments(docs, items, more, item.service, claim, first);
  }

  lemma Fewer(docs: seq<Document>, items: seq<Item>, item: Item)
    requires AllResolve(docs, items + [item])
    ensures AllResolve(docs, items)
    ensures ApartAtFirst(docs, items + [item]) ==> ApartAtFirst(docs, items)
    ensures Unmixed(docs, items + [item]) ==> Unmixed(docs, items)
  {
    assert forall x :: x in items ==> x in items + [item];
  }

  /** What the caller has to provide: resolvable mounts, sources apart, no workload between two services. */
  ghost predicate WellConverted(docs: seq<Document>, items: seq<Item>) {
    AllResolve(docs, items) && ApartAtFirst(docs, items) && Unmixed(docs, items)
  }

  lemma {:induction false} RunRepresents(docs: seq<Document>, items: seq<Item>)
    requires WellConverted(docs, items)
    ensures Run(Start(docs), items).Some? && Represents(docs, items, Run(Start(docs), items).value)
  {
    hide Step, Represents, AllResolve, ApartAtFirst, Unmixed;
    if items == [] {
      NothingMoved(docs);
    } else {
      var before, item := items[..|items| - 1], items[|items| - 1];
      assert before + [item] == items;
      Fewer(docs, before, item);
      RunRepresents(docs, before);
      StepRepresents(docs, before, item, Run(Start(docs), before).value);
    }
  }

  lemma NothingMoved(docs: seq<Document>)
    ensures Represents(docs, [], Start(docs))
  {
    var moved := MovedDocuments(docs, [], docs);
    forall i | 0 <= i < |docs|
      ensures moved[i] == docs[i]
    {
      if docs[i].Workload? {
        assert moved[i].volumes == docs[i].volumes;
      }
    }
    assert moved == docs;
  }

  // ---------------------------------------------------------------- what normalisation promises

  lemma {:induction false} ResolveAppended(docs: seq<Document>, last: Document, service: string, path: string)
    ensures TargetClaim(docs + [last], service, path) ==
            if TargetClaim(docs, service, path).Some? then TargetClaim(docs, service, path) else ClaimOf(last, service, path)
  {
    if docs != [] {
      assert (docs + [last])[1..] == docs[1..] + [last];
      ResolveAppended(docs[1..], last, service, path);
    }
  }

  lemma {:induction false} RemovalResolvesAlike(docs: seq<Document>, removed: set<string>, service: string, path: string)
    ensures TargetClaim(WithoutClaims(docs, removed), service, path) == TargetClaim(docs, service, path)
  {
    if docs != [] {
      var n := |docs| - 1;
      RemovalResolvesAlike(docs[..n], removed, service, path);
      ResolveAppended(docs[..n], docs[n], service, path);
      assert docs[..n] + [docs[n]] == docs;
      var kept := WithoutClaims(docs[..n], removed);
      ResolveAppended(kept, docs[n], service, path);
      assert kept + [] == kept;
    }
  }

  lemma {:induction false} KeptDocuments(docs: seq<Document>, removed: set<string>, doc: Document)
    ensures doc in WithoutClaims(docs, removed) <==> doc in docs && !(doc.Claim? && doc.name in removed)
  {
    if docs != [] {
      var n := |docs| - 1;
      KeptDocuments(docs[..n], removed, doc);
      assert docs == docs[..n] + [docs[n]];
    }
  }

  /**
   The mount moves with its source: it started on its source's claim, or its resolving
   workload is named after a service one of whose mounts started where it did.
   */
  ghost predicate Follows(docs: seq<Document>, items: seq<Item>, item: Item) {
    && Initial(docs, item).Some? && ResolverOf(docs, item).Some?
    && (|| Initial(docs, item) == Canonical(docs, items, KeyOf(item))
        || exists other :: UsedBy(docs, items, ResolverOf(docs, item).value, Initial(docs, item).value, other))
  }

  ghost predicate AllFollow(docs: seq<Document>, items: seq<Item>) {
    forall item :: item in items ==> Follows(docs, items, item)
  }

  /** A mount resolved in a workload of its service's name follows. */
  lemma NamedMountsFollow(docs: seq<Document>, items: seq<Item>)
    requires AllResolve(docs, items) && NamedByService(docs, items)
    ensures AllFollow(docs, items)
  {
    forall item | item in items
      ensures Follows(docs, items, item)
    {
      ResolverIs(docs, item.service, item.mount.target);
      assert UsedBy(docs, items, item.service, Initial(docs, item).value, item);
    }
  }

  /** After normalisation a mount is on the claim of its source if it follows, and where it was otherwise. */
  lemma NormalizedResolution(docs: seq<Document>, services: seq<Service>, item: Item)
    requires WellConverted(docs, Items(services)) && item in Items(services)
    ensures Normalized(docs, services).Some? && Canonical(docs, Items(services), KeyOf(item)).Some?
    ensures TargetClaim(Normalized(docs, services).value, item.service, item.mount.target) ==
            if Follows(docs, Items(services), item) then Canonical(docs, Items(services), KeyOf(item)) else Initial(docs, item)
  {
    hide Items, Moved, Redirect, Replaced, Unmixed;
    var items := Items(services);
    RunRepresents(docs, items);
    var end := Run(Start(docs), items).value;
    RemovalResolvesAlike(end.docs, end.duplicates, item.service, item.mount.target);
    ResolutionMoves(docs, items, docs, item.service, item.mount.target);
    CanonicalIsFirst(docs, items, KeyOf(item));
    var name, claim := ResolverOf(docs, item).value, Initial(docs, item).value;
    StaysOrUsed(docs, items, name, claim);
    if other :| UsedBy(docs, items, name, claim, other) {
      MovedIs(docs, items, name, claim, other);
      assert KeyOf(other) == KeyOf(item);
    }
  }

  /** The source of a mount is told by its type and cleaned path. */
  predicate SameSource(a: Mount, b: Mount) { a.mountType == b.mountType && a.clean == b.clean }

  /** The mounts that hold data: the bind mounts and volumes of every service. */
  lemma {:induction false} ItemsAre(services: seq<Service>, item: Item)
    ensures item in Items(services) <==>
            item.mount.mountType in {Bind, Volume} && exists s :: s in services && s.name == item.service && item.mount in s.mounts
  {
    if services != [] {
      var n := |services| - 1;
      ItemsAre(services[..n], item);
      DataMountsAre(services[n].name, services[n].mounts, item);
      assert services == services[..n] + [services[n]];
    }
  }

  lemma {:induction false} DataMountsAre(service: string, mounts: seq<Mount>, item: Item)
    ensures item in DataMounts(service, mounts) <==> item.mount.mountType in {Bind, Volume} && item.service == service && item.mount in mounts
  {
    if mounts != [] {
      var n := |mounts| - 1;
      DataMountsAre(service, mounts[..n], item);
      assert mounts == mounts[..n] + [mounts[n]];
    }
  }

  /** Afterwards two mounts are on one claim exactly if they have one source, provided all mounts follow theirs. */
  lemma OneClaimPerSource(docs: seq<Document>, services: seq<Service>, a: Item, b: Item)
    requires WellConverted(docs, Items(services)) && AllFollow(docs, Items(services))
    requires a in Items(services) && b in Items(services)
    ensures Normalized(docs, services).Some?
    ensures var after := Normalized(docs, services).value;
            && TargetClaim(after, a.service, a.mount.target).Some?
            && (TargetClaim(after, a.service, a.mount.target) == TargetClaim(after, b.service, b.mount.target) <==> SameSource(a.mount, b.mount))
  {
    hide Items, Normalized, Follows;
    var items := Items(services);
    NormalizedResolution(docs, services, a);
    NormalizedResolution(docs, services, b);
    if Canonical(docs, items, KeyOf(a)) == Canonical(docs, items, KeyOf(b)) {
      CanonicalsApart(docs, items, KeyOf(a), KeyOf(b));
    }
  }

  ghost predicate ClaimsTellSources(docs: seq<Document>, items: seq<Item>) {
    forall a, b :: a in items && b in items ==> (Initial(docs, a) == Initial(docs, b) <==> SameSource(a.mount, b.mount))
  }

  /** And not otherwise: normalisation gives every source one claim of its own exactly if every mount follows. */
  lemma OneClaimPerSourceIffAllFollow(docs: seq<Document>, services: seq<Service>)
    requires WellConverted(docs, Items(services))
    ensures Normalized(docs, services).Some?
    ensures ClaimsTellSources(Normalized(docs, services).value, Items(services)) <==> AllFollow(docs, Items(services))
  {
    hide Items, Normalized, Follows, WellConverted;
    var items := Items(services);
    SomeNormalized(docs, services);
    var after := Normalized(docs, services).value;
    if AllFollow(docs, items) {
      forall a, b | a in items && b in items
        ensures Initial(after, a) == Initial(after, b) <==> SameSource(a.mount, b.mount)
      {
        OneClaimPerSource(docs, services, a, b);
      }
    } else {
      var a :| a in items && !Follows(docs, items, a);
      var b := FirstOfSource(docs, items, a);
      NormalizedResolution(docs, services, a);
      NormalizedResolution(docs, services, b);
      assert Initial(after, a) != Initial(after, b);
    }
  }

  lemma SomeNormalized(docs: seq<Document>, services: seq<Service>)
    requires WellConverted(docs, Items(services))
    ensures Normalized(docs, services).Some?
  {
    RunRepresents(docs, Items(services));
  }

  /** The first mount of a source keeps its claim; one that does not follow started elsewhere. */
  lemma FirstOfSource(docs: seq<Document>, items: seq<Item>, a: Item) returns (b: Item)
    requires WellConverted(docs, items) && a in items && !Follows(docs, items, a)
    ensures b in items && KeyOf(b) == KeyOf(a) && Initial(docs, b) == Canonical(docs, items, KeyOf(b)) && Follows(docs, items, b)
    ensures Initial(docs, a) != Initial(docs, b)
  {
    CanonicalIsFirst(docs, items, KeyOf(a));
    b :| b in items && KeyOf(b) == KeyOf(a) && Initial(docs, b) == Canonical(docs, items, KeyOf(a));
    ResolverIs(docs, b.service, b.mount.target);
    ResolverIs(docs, a.service, a.mount.target);
  }

  lemma CanonicalsApart(docs: seq<Document>, items: seq<Item>, a: Key, b: Key)
    requires WellConverted(docs, items)
    requires Canonical(docs, items, a).Some? && Canonical(docs, items, a) == Canonical(docs, items, b)
    ensures a == b
  {
    CanonicalIsFirst(docs, items, a);
    CanonicalIsFirst(docs, items, b);
  }

  ghost predicate Names(doc: Document, claim: string) {
    doc.Workload? && exists v :: v in doc.volumes && v.claim == claim
  }

  /** A workload that names a replaced claim on which no data mount of a service of its name started. */
  ghost predicate NamesAside(docs: seq<Document>, items: seq<Item>, doc: Document, claim: string) {
    Names(doc, claim) && Replaced(docs, items, claim) && !exists item :: UsedBy(docs, items, doc.name, claim, item)
  }

  lemma CanonicalIsNeverReplaced(docs: seq<Document>, items: seq<Item>, key: Key, claim: string)
    requires WellConverted(docs, items) && Canonical(docs, items, key) == Some(claim)
    ensures !Replaced(docs, items, claim)
  {
    CanonicalIsFirst(docs, items, key);
  }

  lemma MovedOntoReplaced(docs: seq<Document>, items: seq<Item>, name: string, claim: string)
    requires WellConverted(docs, items) && Replaced(docs, items, Moved(docs, items, name, claim))
    ensures Moved(docs, items, name, claim) == claim && !exists item :: UsedBy(docs, items, name, claim, item)
  {
    hide Replaced;
    if item :| UsedBy(docs, items, name, claim, item) {
      MovedIs(docs, items, name, claim, item);
      CanonicalIsNeverReplaced(docs, items, KeyOf(item), Moved(docs, items, name, claim));
    }
  }

  /**
   Exactly the replaced claims are removed, and afterwards a workload names a removed
   claim if and only if it named one before on which no data mount of a service of its
   name started. Workloads that carry just a service's label are among those.
   */
  lemma RemovedClaimsAreNamedIffAside(docs: seq<Document>, services: seq<Service>)
    requires WellConverted(docs, Items(services))
    ensures Normalized(docs, services).Some?
    ensures var after, items := Normalized(docs, services).value, Items(services);
            && (forall claim :: Claim(claim) in after <==> Claim(claim) in docs && !Replaced(docs, items, claim))
            && ((exists doc, claim :: doc in after && Names(doc, claim) && Replaced(docs, items, claim))
                <==> exists doc, claim :: doc in docs && NamesAside(docs, items, doc, claim))
  {
    hide Items, Moved, Replaced, WellConverted;
    var items := Items(services);
    RunRepresents(docs, items);
    var end := Run(Start(docs), items).value;
    var after := Normalized(docs, services).value;
    forall doc
      ensures doc in after <==> doc in end.docs && !(doc.Claim? && doc.name in end.duplicates)
    {
      KeptDocuments(end.docs, end.duplicates, doc);
    }
    forall claim
      ensures Claim(claim) in end.docs <==> Claim(claim) in docs
    {
      if k :| 0 <= k < |docs| && docs[k] == Claim(claim) {
        assert end.docs[k] == Claim(claim);
      }
      if k :| 0 <= k < |docs| && end.docs[k] == Claim(claim) {
        assert docs[k] == Claim(claim);
      }
    }
    forall doc, claim | doc in after && Names(doc, claim) && Replaced(docs, items, claim)
      ensures exists before :: before in docs && NamesAside(docs, items, before, claim)
    {
      var k :| 0 <= k < |docs| && end.docs[k] == doc;
      var j :| 0 <= j < |doc.volumes| && doc.volumes[j].claim == claim;
      MovedOntoReplaced(docs, items, docs[k].name, docs[k].volumes[j].claim);
      assert docs[k].volumes[j] in docs[k].volumes;
      assert docs[k] in docs && NamesAside(docs, items, docs[k], claim);
    }
    forall before, claim | before in docs && NamesAside(docs, items, before, claim)
      ensures exists doc :: doc in after && Names(doc, claim) && Replaced(docs, items, claim)
    {
      var k :| 0 <= k < |docs| && docs[k] == before;
      var j :| 0 <= j < |before.volumes| && before.volumes[j].claim == claim;
      assert Moved(docs, items, before.name, claim) == claim by { StaysUnused(docs, items, before.name, claim); }
      assert end.docs[k].volumes[j] in end.docs[k].volumes;
      assert end.docs[k] in end.docs && Names(end.docs[k], claim);
    }
  }

  lemma StaysUnused(docs: seq<Document>, items: seq<Item>, name: string, claim: string)
    requires !exists item :: UsedBy(docs, items, name, claim, item)
    ensures Moved(docs, items, name, claim) == claim
  {
  }

  lemma TwoMountsOfOneSource(docs: seq<Document>, a: Item, b: Item, first: string, second: string)
    requires KeyOf(a) == KeyOf(b) && first != second
    requires Initial(docs, a) == Some(first) && Initial(docs, b) == Some(second)
    ensures Run(Start(docs), [a, b]) == Some(State(Redirect(docs, b.service, second, first), map[KeyOf(a) := first], {second}))
  {
    hide Redirect, TargetClaim;
    NothingDone(Start(docs), "");
    OneMoreItem(Start(docs), [], a);
    OneMoreItem(Start(docs), [a], b);
    assert [] + [a] == [a] && [a] + [b] == [a, b];
    assert Start(docs).canonical[KeyOf(a) := first] == map[KeyOf(a) := first];
    assert Start(docs).duplicates + {second} == {second};
  }

  lemma ItemsOfTwoServices(name0: string, name1: string, mount: Mount)
    requires !mount.mountType.OtherMount?
    ensures Items([Service(name0, [mount]), Service(name1, [mount])]) == [Item(name0, mount), Item(name1, mount)]
  {
    var services := [Service(name0, [mount]), Service(name1, [mount])];
    NothingDone(Start([]), name0);
    NothingDone(Start([]), name1);
    OneMoreService(services, 0);
    OneMoreService(services, 1);
    OneMoreMount(name0, [mount], 0);
    OneMoreMount(name1, [mount], 0);
    assert services[..2] == services && services[..1] == [services[0]] && services[..0] == [];
    assert [mount][..1] == [mount] && [mount][..0] == [];
  }

  /**
   Workloads are resolved by name or label but redirected by name only: a workload that
   carries just the label of its service keeps naming the claim that is removed.
   */
  lemma LabelledWorkloadsLoseTheirClaim() returns (docs: seq<Document>, services: seq<Service>)
    ensures WellConverted(docs, Items(services))
    ensures Normalized(docs, services).Some?
    ensures exists doc :: doc in Normalized(docs, services).value && Names(doc, "c2") && Claim("c2") in docs && Claim("c2") !in Normalized(docs, services).value
  {
    hide Run, Items;
    var web := Workload("web", "", [[MountPoint("/data", "v")]], [PodVolume("v", "c1")]);
    var api := Workload("api-server", "api", [[MountPoint("/data", "v")]], [PodVolume("v", "c2")]);
    docs := [web, api, Claim("c1"), Claim("c2")];
    var mount := Mount(Volume, "data", "data", false, "/data");
    services := [Service("web", [mount]), Service("api", [mount])];
    var a, b := Item("web", mount), Item("api", mount);
    ItemsOfTwoServices("web", "api", mount);
    assert |"api-server"| != |"web"| && |"api-server"| != |"api"| && "c1" != "c2";
    assert Initial(docs, a) == Some("c1") && Initial(docs, b) == Some("c2") by {
      assert "web" != "api";
      assert docs[1..][0] == api;
      assert VolumeName(web.containers, "/data") == "v" && VolumeName(api.containers, "/data") == "v";
      assert ClaimOf(web, "web", "/data") == Some("c1") && ClaimOf(web, "api", "/data") == None && ClaimOf(api, "api", "/data") == Some("c2");
      assert TargetClaim(docs[1..], "api", "/data") == Some("c2");
    }
    TwoMountsOfOneSource(docs, a, b, "c1", "c2");
    assert Redirect(docs, "api", "c2", "c1") == docs;
    KeptDocuments(docs, {"c2"}, api);
    KeptDocuments(docs, {"c2"}, Claim("c2"));
    assert api.volumes[0] in api.volumes;
    assert docs[3] in docs && docs[1] in docs;
  }
}
