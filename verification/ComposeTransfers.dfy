/**
 Planning the data transfers of a Compose application (composeTransfers,
 internal/migration/compose_executor.go:1101, 1130-1181): one for every source.
 */
module ComposeTransfers {
  import opened Wrappers
  import opened ComposeClaims
  import ComposeRunLog

  datatype VolumeDeclaration = VolumeDeclaration(name: string, runtimeName: string, external: bool)

  datatype TransferError = NoClaim(service: string) | Anonymous(service: string) | Undeclared(volume: string) | Relative(path: string)

  datatype Transfer = Transfer(claim: string, mountType: MountType, path: string)

  function RuntimeName(volume: VolumeDeclaration, project: string): string {
    if volume.runtimeName != "" then volume.runtimeName else if volume.external then volume.name else project + "_" + volume.name
  }

  /** Later declarations of a name win. */
  function RuntimeNames(volumes: seq<VolumeDeclaration>, project: string): map<string, string> {
    if volumes == [] then map[]
    else
      var last := volumes[|volumes| - 1];
      RuntimeNames(volumes[..|volumes| - 1], project)[last.name := RuntimeName(last, project)]
  }

  function SourcePath(item: Item, names: map<string, string>): Result<string, TransferError> {
    if item.mount.mountType.Volume? then
      if item.mount.source == "" then Failure(Anonymous(item.service))
      else if item.mount.source !in names || names[item.mount.source] == "" then Failure(Undeclared(item.mount.source))
      else Success(names[item.mount.source])
    else if item.mount.absolute then Success(item.mount.clean)
    else Failure(Relative(item.mount.source))
  }

  /** The name Docker knows the last declaration of a volume by. */
  lemma {:induction false} RuntimeNameOf(volumes: seq<VolumeDeclaration>, project: string, i: nat)
    requires i < |volumes| && forall k :: i < k < |volumes| ==> volumes[k].name != volumes[i].name
    ensures var v, names := volumes[i], RuntimeNames(volumes, project);
            v.name in names && names[v.name] == if v.runtimeName != "" then v.runtimeName else if v.external then v.name else project + "_" + v.name
  {
    if i < |volumes| - 1 {
      RuntimeNameOf(volumes[..|volumes| - 1], project, i);
    }
  }

  /** A volume is read under its runtime name, a bind mount at its cleaned path; there is no transfer of any other. */
  lemma PathIs(item: Item, names: map<string, string>)
    ensures item.mount.mountType == Volume ==>
              (SourcePath(item, names).Success? <==> item.mount.source != "" && item.mount.source in names && names[item.mount.source] != "")
    ensures item.mount.mountType == Volume && SourcePath(item, names).Success? ==> SourcePath(item, names).value == names[item.mount.source]
    ensures item.mount.mountType == Bind ==> (SourcePath(item, names).Success? <==> item.mount.absolute)
    ensures item.mount.mountType == Bind && SourcePath(item, names).Success? ==> SourcePath(item, names).value == item.mount.clean
  {
  }

  predicate HasClaim(transfers: seq<Transfer>, claim: string) { exists t :: t in transfers && t.claim == claim }

  lemma NoClaims()
    ensures forall claim :: !HasClaim([], claim)
  {
  }

  lemma OneMoreClaim(transfers: seq<Transfer>, transfer: Transfer)
    ensures forall claim :: HasClaim(transfers + [transfer], claim) <==> HasClaim(transfers, claim) || claim == transfer.claim
  {
    var more := transfers + [transfer];
    assert forall t :: t in more <==> t in transfers || t == transfer;
  }

  /** What one more mount adds, or the error it ends in. */
  function AddTransfer(docs: seq<Document>, names: map<string, string>, before: seq<Transfer>, item: Item): Result<seq<Transfer>, TransferError> {
    var claim := Initial(docs, item);
    if claim.None? then Failure(NoClaim(item.service))
    else
      var path := SourcePath(item, names);
      if path.Failure? then Failure(path.error)
      else if HasClaim(before, claim.value) then Success(before)
      else Success(before + [Transfer(claim.value, item.mount.mountType, path.value)])
  }

  function Transfers(docs: seq<Document>, items: seq<Item>, names: map<string, string>): Result<seq<Transfer>, TransferError> {
    if items == [] then Success([])
    else
      var before := Transfers(docs, items[..|items| - 1], names);
      if before.Failure? then before else AddTransfer(docs, names, before.value, items[|items| - 1])
  }

  lemma OneMoreTransfer(docs: seq<Document>, items: seq<Item>, item: Item, names: map<string, string>)
    ensures Transfers(docs, items + [item], names) ==
            var before := Transfers(docs, items, names);
            if before.Failure? then before else AddTransfer(docs, names, before.value, item)
  {
    assert (items + [item])[..|items|] == items;
  }

  method ComposeTransfers(docs: seq<Document>, items: seq<Item>, volumes: seq<VolumeDeclaration>, project: string)
    returns (transfers: Result<seq<Transfer>, TransferError>)
    ensures transfers == Transfers(docs, items, RuntimeNames(volumes, project))
  {
    var names: map<string, string> := map[];
    for i := 0 to |volumes|
      invariant names == RuntimeNames(volumes[..i], project)
    {
      assert volumes[..i + 1][..i] == volumes[..i];
      names := names[volumes[i].name := RuntimeName(volumes[i], project)];
    }
    assert volumes[..|volumes|] == volumes;
    hide Transfers, TargetClaim, SourcePath, HasClaim;
    NothingTransferred(docs, names);
    var unique: set<string>, values: seq<Transfer> := {}, [];
    assert items[..0] == [];
    NoClaims();
    for i := 0 to |items|
      invariant Transfers(docs, items[..i], names) == Success(values)
      invariant forall claim :: claim in unique <==> HasClaim(values, claim)
    {
      assert items[..i + 1] == items[..i] + [items[i]];
      OneMoreTransfer(docs, items[..i], items[i], names);
      var claim := TargetClaim(docs, items[i].service, items[i].mount.target);
      var path := SourcePath(items[i], names);
      if claim.None? || path.Failure? {
        TransferFailureStays(docs, items, names, i + 1);
        return Failure(if claim.None? then NoClaim(items[i].service) else path.error);
      }
      if claim.value !in unique {
        var transfer := Transfer(claim.value, items[i].mount.mountType, path.value);
        OneMoreClaim(values, transfer);
        unique, values := unique + {claim.value}, values + [transfer];
      }
    }
    assert items[..|items|] == items;
    return Success(values);
  }

  lemma {:induction false} TransferFailureStays(docs: seq<Document>, items: seq<Item>, names: map<string, string>, i: nat)
    requires i <= |items| && Transfers(docs, items[..i], names).Failure?
    ensures Transfers(docs, items, names) == Transfers(docs, items[..i], names)
  {
    if i < |items| {
      assert items[..|items| - 1][..i] == items[..i];
      TransferFailureStays(docs, items[..|items| - 1], names, i);
    } else {
      assert items[..i] == items;
    }
  }

  // ---------------------------------------------------------------- one transfer per source

  function Keys(items: seq<Item>): set<Key> { set item | item in items :: KeyOf(item) }

  /** The mounts that name their source for the first time. */
  function FirstMounts(items: seq<Item>): seq<Item> {
    if items == [] then []
    else
      var n := |items| - 1;
      FirstMounts(items[..n]) + (if KeyOf(items[n]) in Keys(items[..n]) then [] else [items[n]])
  }

  /** Every source has exactly one first mount. */
  lemma {:induction false} FirstMountsAre(items: seq<Item>)
    ensures |FirstMounts(items)| == |Keys(items)|
    ensures forall i :: 0 <= i < |FirstMounts(items)| ==> FirstMounts(items)[i] in items
    ensures forall i, j :: 0 <= i < j < |FirstMounts(items)| ==> KeyOf(FirstMounts(items)[i]) != KeyOf(FirstMounts(items)[j])
    ensures Keys(FirstMounts(items)) == Keys(items)
  {
    hide Keys;
    NoKeys();
    if items != [] {
      var n := |items| - 1;
      var before, first := items[..n], FirstMounts(items[..n]);
      FirstMountsAre(before);
      OneMoreKey(before, items[n]);
      OneMoreKey(first, items[n]);
      assert items == before + [items[n]];
      assert first + [] == first;
      assert KeyOf(items[n]) in Keys(before) ==> Keys(before) + {KeyOf(items[n])} == Keys(before);
      forall i | 0 <= i < |first|
        ensures KeyOf(first[i]) in Keys(before)
      {
        KeyOfMember(before, first[i]);
      }
    }
  }

  lemma NoKeys()
    ensures Keys([]) == {}
  {
  }

  lemma KeyOfMember(items: seq<Item>, item: Item)
    requires item in items
    ensures KeyOf(item) in Keys(items)
  {
  }

  lemma OneMoreKey(items: seq<Item>, item: Item)
    ensures Keys(items + [item]) == Keys(items) + {KeyOf(item)}
  {
  }

  /** The claims tell the sources apart, as they do after normalisation. */
  ghost predicate Shared(docs: seq<Document>, items: seq<Item>) {
    AllResolve(docs, items) && ClaimsTellSources(docs, items)
  }

  /** The transfer a mount asks for. */
  ghost predicate IsTransferOf(docs: seq<Document>, names: map<string, string>, item: Item, t: Transfer) {
    && Initial(docs, item) == Some(t.claim)
    && t.mountType == item.mount.mountType
    && SourcePath(item, names) == Success(t.path)
  }

  lemma KnownClaimIffKnownSource(docs: seq<Document>, items: seq<Item>, item: Item, names: map<string, string>, transfers: seq<Transfer>)
    requires Shared(docs, items + [item])
    requires |transfers| == |FirstMounts(items)|
    requires forall i :: 0 <= i < |transfers| ==> IsTransferOf(docs, names, FirstMounts(items)[i], transfers[i])
    ensures HasClaim(transfers, Initial(docs, item).value) <==> KeyOf(item) in Keys(items)
  {
    var first, claim := FirstMounts(items), Initial(docs, item).value;
    assert forall x :: x in items + [item] <==> x in items || x == item;
    FirstMountsAre(items);
    if HasClaim(transfers, claim) {
      var i :| 0 <= i < |transfers| && transfers[i].claim == claim;
      assert KeyOf(first[i]) == KeyOf(item);
    }
    if KeyOf(item) in Keys(items) {
      var i :| 0 <= i < |first| && KeyOf(first[i]) == KeyOf(item);
      assert transfers[i] in transfers;
    }
  }

  lemma {:induction false} TransfersOfFirstMounts(docs: seq<Document>, items: seq<Item>, names: map<string, string>)
    requires Shared(docs, items) && Transfers(docs, items, names).Success?
    ensures var transfers := Transfers(docs, items, names).value;
            && |transfers| == |FirstMounts(items)|
            && forall i :: 0 <= i < |transfers| ==> IsTransferOf(docs, names, FirstMounts(items)[i], transfers[i])
  {
    hide HasClaim, SourcePath, Keys, Shared, IsTransferOf, Initial, KeyOf, Transfers, FirstMounts;
    if items == [] {
      NothingTransferred(docs, names);
    } else {
      var n := |items| - 1;
      var before, item := items[..n], items[n];
      assert items == before + [item];
      OneMoreTransfer(docs, before, item, names);
      OneMoreFirstMount(before, item);
      FewerShared(docs, before, item);
      TransfersOfFirstMounts(docs, before, names);
      var transfers := Transfers(docs, before, names).value;
      KnownClaimIffKnownSource(docs, before, item, names, transfers);
      TransferIsOf(docs, names, item);
    }
  }

  lemma NothingTransferred(docs: seq<Document>, names: map<string, string>)
    ensures Transfers(docs, [], names) == Success([]) && FirstMounts([]) == []
  {
  }

  lemma OneMoreFirstMount(items: seq<Item>, item: Item)
    ensures FirstMounts(items + [item]) == FirstMounts(items) + if KeyOf(item) in Keys(items) then [] else [item]
  {
    assert (items + [item])[..|items|] == items;
  }

  lemma TransferIsOf(docs: seq<Document>, names: map<string, string>, item: Item)
    requires Initial(docs, item).Some? && SourcePath(item, names).Success?
    ensures IsTransferOf(docs, names, item, Transfer(Initial(docs, item).value, item.mount.mountType, SourcePath(item, names).value))
  {
  }

  lemma FewerShared(docs: seq<Document>, items: seq<Item>, item: Item)
    requires Shared(docs, items + [item])
    ensures Shared(docs, items)
  {
  }

  /** Normalisation makes the claims tell the sources apart. */
  lemma NormalizedIsShared(docs: seq<Document>, services: seq<Service>)
    requires WellConverted(docs, Items(services)) && AllFollow(docs, Items(services))
    ensures Normalized(docs, services).Some? && Shared(Normalized(docs, services).value, Items(services))
  {
    hide Items, Normalized, WellConverted, AllFollow;
    var items := Items(services);
    SomeNormalized(docs, services);
    forall a, b | a in items && b in items
      ensures Initial(Normalized(docs, services).value, a).Some?
      ensures Initial(Normalized(docs, services).value, a) == Initial(Normalized(docs, services).value, b) <==> KeyOf(a) == KeyOf(b)
    {
      OneClaimPerSource(docs, services, a, b);
    }
  }

  /**
   After normalisation the plan holds exactly one transfer for every distinct source,
   the transfers have distinct claims, and each is the one its source's first mount asks for.
   */
  lemma OneTransferPerSource(docs: seq<Document>, services: seq<Service>, names: map<string, string>)
    requires WellConverted(docs, Items(services)) && AllFollow(docs, Items(services))
    requires Normalized(docs, services).Some? ==> Transfers(Normalized(docs, services).value, Items(services), names).Success?
    ensures Normalized(docs, services).Some?
    ensures var after, items := Normalized(docs, services).value, Items(services);
            var transfers := Transfers(after, items, names).value;
            && |transfers| == |Keys(items)| == |FirstMounts(items)|
            && (forall i, j :: 0 <= i < j < |transfers| ==> transfers[i].claim != transfers[j].claim)
            && (forall item :: item in items ==> exists i :: 0 <= i < |transfers| && TargetClaim(after, item.service, item.mount.target) == Some(transfers[i].claim))
            && (forall i :: 0 <= i < |transfers| ==> FirstMounts(items)[i] in items && IsTransferOf(after, names, FirstMounts(items)[i], transfers[i]))
  {
    hide Items, Normalized, WellConverted, AllFollow, SourcePath, Transfers;
    NormalizedIsShared(docs, services);
    var after, items := Normalized(docs, services).value, Items(services);
    var transfers, first := Transfers(after, items, names).value, FirstMounts(items);
    TransfersOfFirstMounts(after, items, names);
    FirstMountsAre(items);
    forall item | item in items
      ensures exists i :: 0 <= i < |transfers| && TargetClaim(after, item.service, item.mount.target) == Some(transfers[i].claim)
    {
      assert KeyOf(item) in Keys(first);
      var i :| 0 <= i < |first| && KeyOf(first[i]) == KeyOf(item);
      assert Initial(after, first[i]) == Initial(after, item);
    }
    forall i, j | 0 <= i < j < |transfers|
      ensures transfers[i].claim != transfers[j].claim
    {
      assert Initial(after, first[i]) != Initial(after, first[j]);
    }
  }

  /** There is a plan if and only if every data mount has a claim and a path, and then every one of their claims is in it. */
  lemma {:induction false} PlanIffAllHaveClaimAndPath(docs: seq<Document>, items: seq<Item>, names: map<string, string>)
    ensures Transfers(docs, items, names).Success? <==>
            forall item :: item in items ==> TargetClaim(docs, item.service, item.mount.target).Some? && SourcePath(item, names).Success?
    ensures Transfers(docs, items, names).Success? ==>
              forall item :: item in items ==> HasClaim(Transfers(docs, items, names).value, TargetClaim(docs, item.service, item.mount.target).value)
  {
    hide SourcePath, TargetClaim, HasClaim;
    if items != [] {
      var n := |items| - 1;
      var before := Transfers(docs, items[..n], names);
      PlanIffAllHaveClaimAndPath(docs, items[..n], names);
      assert items == items[..n] + [items[n]];
      if Transfers(docs, items, names).Success? {
        var transfer := Transfer(Initial(docs, items[n]).value, items[n].mount.mountType, SourcePath(items[n], names).value);
        OneMoreClaim(before.value, transfer);
      }
    }
  }

  // ---------------------------------------------------------------- what the executor relies on

  /** The plan as the executor sees it: a claim names both the snapshot source and the restore target. */
  function Executable(t: Transfer): ComposeRunLog.Transfer {
    ComposeRunLog.Transfer(ComposeRunLog.Source(t.claim, if t.mountType.Bind? then "bind" else "volume", t.path), t.claim)
  }

  function Plan(transfers: seq<Transfer>): seq<ComposeRunLog.Transfer> {
    seq(|transfers|, i requires 0 <= i < |transfers| => Executable(transfers[i]))
  }

  /** Any plan, normalised or not, has the distinct non-empty keys the executor's count check rests on. */
  lemma PlansHaveDistinctKeys(docs: seq<Document>, items: seq<Item>, names: map<string, string>)
    requires Transfers(docs, items, names).Success?
    ensures ComposeRunLog.DistinctKeys(Plan(Transfers(docs, items, names).value))
  {
    ClaimsAreDistinct(docs, items, names);
  }

  lemma {:induction false} ClaimsAreDistinct(docs: seq<Document>, items: seq<Item>, names: map<string, string>)
    requires Transfers(docs, items, names).Success?
    ensures var transfers := Transfers(docs, items, names).value;
            && (forall i, j :: 0 <= i < j < |transfers| ==> transfers[i].claim != transfers[j].claim)
            && (forall t :: t in transfers ==> t.claim != "")
  {
    hide SourcePath, TargetClaim;
    if items != [] {
      ClaimsAreDistinct(docs, items[..|items| - 1], names);
    }
  }
}
