/**
 The two retry loops of internal/adapter/kubernetes/execution.go:94-188 as code:
 read, edit the annotations and data of the ConfigMap, write it back guarded by
 the version read, at most five times. Calls of other runs may write at any point
 in between (`Others`); OtherRunsInterfere derives its contract from the protocol.
 */
module StorageMappingClient {
  import opened Wrappers
  import opened StorageMappings
  import opened StorageMappingProtocol

  class ConfigMaps {
    var server: ApiServer
    var foreign: nat  // writes of other runs accepted so far
    ghost var readings: nat  // reads of this run, answered or not
    ghost var conflicts: nat  // writes of this run that met another write
    ghost var lost: nat  // requests of this run without an answer

    /** What any number of accepted writes of other runs may do. */
    static ghost predicate Interference(run: string, server: ApiServer, foreign: nat, server': ApiServer, foreign': nat) {
      && foreign <= foreign'
      && (foreign == foreign' ==> server == server')
      && (foreign < foreign' ==>
            && server.clock < server'.clock
            && (server'.stored.Some? ==> server.clock <= server'.stored.value.version))
      && ServerOk(server')
      && (Healthy(server.stored) ==> Healthy(server'.stored))
      && Contribution(server'.stored, run) == Contribution(server.stored, run)
    }

    /** Other runs' turn. Callers rely on the contract alone, which admits every interference. */
    method Others(run: string)
      requires ServerOk(server)
      modifies this`server, this`foreign
      ensures Interference(run, old(server), old(foreign), server, foreign)
    {
    }

    method Get() returns (found: Option<Option<ConfigMap>>)
      modifies this`readings, this`lost
      ensures found.Some? ==> found.value == server.stored
      ensures readings == old(readings) + 1 && lost == old(lost) + if found.None? then 1 else 0
    {
      readings := readings + 1;
      if * {
        lost := lost + 1;
        return None;
      }
      return Some(server.stored);
    }

    /** A request may be lost, be answered, or take effect without an answer. */
    method Submit(request: Request) returns (reply: Option<Reply>)
      modifies this`server, this`conflicts, this`lost
      ensures server == old(server) || server == Serve(old(server), request).0
      ensures reply.Some? ==> (server, reply.value) == Serve(old(server), request)
      ensures conflicts == old(conflicts) + if reply in {Some(Conflict), Some(AlreadyExists)} then 1 else 0
      ensures lost == old(lost) + if reply.None? then 1 else 0
    {
      if * {
        lost := lost + 1;
        return None;
      }
      var (next, answer) := Serve(server, request);
      server := next;
      if * {
        lost := lost + 1;
        return None;
      }
      if answer in {Conflict, AlreadyExists} {
        conflicts := conflicts + 1;
      }
      return Some(answer);
    }

    /** The contribution of `run` after a call that ended with `outcome`. */
    static predicate Settled(outcome: Outcome, before: Mapping, wanted: Mapping, after: Mapping) {
      match outcome
      case Succeeded => after == wanted
      case ApiFailed => after == before || after == wanted
      case _ => after == before
    }

    method EnsureVeleroStorageClassMappings(run: string, mappings: Mapping) returns (outcome: Outcome)
      requires ServerOk(server)
      modifies this
      ensures ServerOk(server) && (Healthy(old(server.stored)) ==> Healthy(server.stored))
      ensures mappings == map[] ==> outcome == Succeeded && server == old(server)
      ensures mappings != map[] ==>
                Settled(outcome, Contribution(old(server.stored), run), mappings, Contribution(server.stored, run))
      ensures mappings != map[] ==> EnsureOutcome(run, mappings, outcome, server.stored)
      ensures mappings != map[] ==> Attempts(outcome, readings - old(readings), conflicts - old(conflicts))
      ensures outcome == ApiFailed ==> old(lost) < lost || (old(foreign) < foreign && server.stored.None?)
      ensures outcome == Exhausted ==> old(foreign) + 5 <= foreign
      ensures mappings != map[] && foreign == old(foreign) && lost == old(lost) ==>
                && (outcome == Succeeded <==> old(server.stored).None? || (old(server.stored).value.managed && CanJoin(old(server.stored).value, run, mappings)))
                && (outcome == NotManaged <==> old(server.stored).Some? && !old(server.stored).value.managed)
                && (outcome == MergeFailed <==> old(server.stored).Some? && old(server.stored).value.managed && !CanJoin(old(server.stored).value, run, mappings))
                && (outcome != Succeeded ==> server == old(server))
    {
      hide Mergeable, IsUnion, Contribution, Healthy, Holds, ServerOk;
      if mappings == map[] {
        return Succeeded;
      }
      var attempt := 0;
      while attempt < MAX_ATTEMPTS
        invariant ServerOk(server) && (Healthy(old(server.stored)) ==> Healthy(server.stored))
        invariant Contribution(server.stored, run) == Contribution(old(server.stored), run)
        invariant attempt <= MAX_ATTEMPTS && old(foreign) + attempt <= foreign
        invariant attempt == 0 ==> foreign == old(foreign) && server == old(server)
        invariant readings == old(readings) + attempt && conflicts == old(conflicts) + attempt && lost == old(lost)
      {
        Others(run);
        var found := Get();
        if found.None? {
          return ApiFailed;
        }
        var request;
        if found.value.None? {
          request := Create(map[RunKey(run) := Encoded(mappings)], mappings);
        } else {
          var current := found.value.value;
          if !current.managed {
            return NotManaged;
          }
          var annotations := current.annotations[RunKey(run) := Encoded(mappings)];
          var merged := MergeStorageMappingOwners(annotations);
          if merged.Failure? {
            return MergeFailed;
          }
          request := Update(current.(annotations := annotations, data := merged.value));
        }
        var again;
        outcome, again := Write(run, Ensure(mappings), found.value, request);
        if !again {
          if outcome == Succeeded {
            JoinedLeaves(run, mappings, found.value, request, server.stored);
          }
          return;
        }
        attempt := attempt + 1;
      }
      return Exhausted;
    }

    method DeleteVeleroStorageClassMappings(run: string) returns (outcome: Outcome)
      requires ServerOk(server)
      modifies this
      ensures ServerOk(server) && (Healthy(old(server.stored)) ==> Healthy(server.stored))
      ensures Settled(outcome, Contribution(old(server.stored), run), map[], Contribution(server.stored, run))
      ensures DeleteOutcome(run, outcome, server.stored)
      ensures Attempts(outcome, readings - old(readings), conflicts - old(conflicts))
      ensures outcome == ApiFailed ==> old(lost) < lost || (old(foreign) < foreign && server.stored.None?)
      ensures outcome == Exhausted ==> old(foreign) + 5 <= foreign
      ensures foreign == old(foreign) && lost == old(lost) ==>
                && (outcome == Succeeded <==> old(server.stored).None? || CanLeave(old(server.stored).value, run))
                && (outcome == MergeFailed <==> old(server.stored).Some? && !CanLeave(old(server.stored).value, run))
                && (outcome != Succeeded ==> server == old(server))
                && (server.stored.None? <==> old(server.stored).None? || (outcome == Succeeded && NothingRemains(old(server.stored).value, run)))
    {
      hide Mergeable, IsUnion, Contribution, Healthy, Holds, ServerOk, NothingRemains;
      var attempt := 0;
      while attempt < MAX_ATTEMPTS
        invariant ServerOk(server) && (Healthy(old(server.stored)) ==> Healthy(server.stored))
        invariant Contribution(server.stored, run) == Contribution(old(server.stored), run)
        invariant attempt <= MAX_ATTEMPTS && old(foreign) + attempt <= foreign
        invariant attempt == 0 ==> foreign == old(foreign) && server == old(server)
        invariant readings == old(readings) + attempt && conflicts == old(conflicts) + attempt && lost == old(lost)
      {
        Others(run);
        var found := Get();
        if found.None? {
          return ApiFailed;
        }
        if found.value.None? {
          NothingStored(run);
          return Succeeded;
        }
        var current := found.value.value;
        var annotations := current.annotations - {RunKey(run)};
        var merged := MergeStorageMappingOwners(annotations);
        if merged.Failure? {
          return MergeFailed;
        }
        var request := if merged.value == map[] then Remove(current.uid, current.version)
                       else Update(current.(annotations := annotations, data := merged.value));
        var again;
        outcome, again := Write(run, Delete, found.value, request);
        if !again {
          if outcome == Succeeded {
            LeftLeaves(run, found.value, request, server.stored);
          }
          return;
        }
        attempt := attempt + 1;
      }
      return Exhausted;
    }

    /** The owners agree with this run's mappings. */
    static ghost predicate CanJoin(stored: ConfigMap, run: string, mappings: Mapping) {
      Mergeable(stored.annotations[RunKey(run) := Encoded(mappings)])
    }

    /** The owners without this run agree. */
    static ghost predicate CanLeave(stored: ConfigMap, run: string) { Mergeable(stored.annotations - {RunKey(run)}) }

    static ghost predicate NothingRemains(stored: ConfigMap, run: string) {
      forall k, source :: k != RunKey(run) ==> !Owns(stored.annotations, k, source)
    }

    /** A refusal is about the ConfigMap that is there; a success leaves this run's mappings in a merge of all owners. */
    static ghost predicate EnsureOutcome(run: string, mappings: Mapping, outcome: Outcome, stored: Option<ConfigMap>) {
      match outcome
      case NotManaged => stored.Some? && !stored.value.managed
      case MergeFailed => stored.Some? && stored.value.managed && !CanJoin(stored.value, run, mappings)
      case Succeeded =>
        && stored.Some? && stored.value.managed && RunKey(run) in stored.value.annotations
        && stored.value.annotations[RunKey(run)] == Encoded(mappings) && IsUnion(stored.value.annotations, stored.value.data)
      case _ => true
    }

    /** Deletion never asks who manages the ConfigMap; a success leaves no trace of this run. */
    static ghost predicate DeleteOutcome(run: string, outcome: Outcome, stored: Option<ConfigMap>) {
      match outcome
      case NotManaged => false
      case MergeFailed => stored.Some? && !CanLeave(stored.value, run)
      case Succeeded => stored.Some? ==> RunKey(run) !in stored.value.annotations && IsUnion(stored.value.annotations, stored.value.data) && stored.value.data != map[]
      case _ => true
    }

    /** Every conflict is followed by another read, and the fifth is the end. */
    static predicate Attempts(outcome: Outcome, readings: int, conflicts: int) {
      if outcome == Exhausted then readings == conflicts == 5 else 0 <= conflicts < 5 && readings == conflicts + 1
    }

    /** What the write asked for is there. */
    static ghost predicate Holds(request: Request, stored: Option<ConfigMap>) {
      match request
      case Create(annotations, data) => stored.Some? && stored.value.managed && stored.value.annotations == annotations && stored.value.data == data
      case Update(wanted) => stored.Some? && stored.value.(version := wanted.version) == wanted
      case Remove(_, _) => stored.None?
    }

    /** Sends the write of one attempt, after other runs had another chance to get in first. */
    method Write(run: string, call: Call, ghost seen: Option<ConfigMap>, request: Request)
      returns (outcome: Outcome, again: bool)
      requires ServerOk(server) && seen == server.stored
      requires Decide(run, call, seen) == Send(request)
      modifies this`server, this`foreign, this`conflicts, this`lost
      ensures ServerOk(server) && (Healthy(old(server.stored)) ==> Healthy(server.stored))
      ensures old(foreign) <= foreign
      ensures conflicts == old(conflicts) + (if again then 1 else 0) && (again ==> lost == old(lost)) && old(lost) <= lost
      ensures !again && outcome == ApiFailed ==> old(lost) < lost || (old(foreign) < foreign && server.stored.None?)
      ensures !again && outcome == Succeeded ==> Holds(request, server.stored)
      ensures again ==> old(foreign) < foreign && Contribution(server.stored, run) == Contribution(old(server.stored), run)
      ensures !again ==> outcome == Succeeded || outcome == ApiFailed
      ensures !again ==>
                Settled(outcome, Contribution(old(server.stored), run), Wanted(call), Contribution(server.stored, run))
    {
      hide Mergeable, IsUnion, Decide, Consistent;
      Others(run);
      ghost var before := server;
      var reply := Submit(request);
      AttemptEffect(old(server), before, run, call, request);
      if reply.None? {
        return ApiFailed, false;
      }
      match Judge(request, reply.value)
      case Finish(verdict) => return verdict, false;
      case Again => return ApiFailed, true;
    }
  }

  lemma NothingStored(run: string)
    ensures Contribution(None, run) == map[]
  {
  }

  /** A join that took effect leaves a merge of all owners, this run among them. */
  lemma JoinedLeaves(run: string, mappings: Mapping, seen: Option<ConfigMap>, request: Request, after: Option<ConfigMap>)
    requires Decide(run, Ensure(mappings), seen) == Send(request) && ConfigMaps.Holds(request, after)
    ensures ConfigMaps.EnsureOutcome(run, mappings, Succeeded, after)
  {
    hide Union;
    if seen.None? {
      var annotations := map[RunKey(run) := Encoded(mappings)];
      forall k, source
        ensures Owns(annotations, k, source) <==> k == RunKey(run) && source in mappings
      {
      }
      forall source | source in mappings
        ensures Owns(annotations, RunKey(run), source)
      {
      }
    }
  }

  /** A departure that took effect leaves a merge of the others, or nothing if they hold nothing. */
  lemma LeftLeaves(run: string, seen: Option<ConfigMap>, request: Request, after: Option<ConfigMap>)
    requires Decide(run, Delete, seen) == Send(request) && ConfigMaps.Holds(request, after)
    ensures ConfigMaps.DeleteOutcome(run, Succeeded, after)
    ensures after.None? <==> ConfigMaps.NothingRemains(seen.value, run)
  {
    hide Union, Mergeable, IsUnion, ConfigMaps.NothingRemains;
    NothingMergedIff(seen.value, run, Union(seen.value.annotations - {RunKey(run)}));
  }

  lemma NothingMergedIff(stored: ConfigMap, run: string, merged: Mapping)
    requires IsUnion(stored.annotations - {RunKey(run)}, merged)
    ensures merged == map[] <==> ConfigMaps.NothingRemains(stored, run)
  {
    var annotations := stored.annotations - {RunKey(run)};
    if k, source :| k != RunKey(run) && Owns(stored.annotations, k, source) {
      assert Owns(annotations, k, source) && source in merged;
    }
    if source :| source in merged {
      var k :| Owns(annotations, k, source);
      assert Owns(stored.annotations, k, source);
    }
  }

  /** What serving a request computed from `read` does to a server that has become `now` in the meantime. */
  lemma AttemptEffect(read: ApiServer, now: ApiServer, run: string, call: Call, request: Request)
    requires Decide(run, call, read.stored) == Send(request)
    requires ServerOk(read) && ServerOk(now)
    requires now == read
      || (read.clock < now.clock && (now.stored.Some? ==> read.clock <= now.stored.value.version))
    ensures var (after, reply) := Serve(now, request);
            && ServerOk(after)
            && (reply.Accepted? ==>
                  && now.stored == read.stored
                  && (Healthy(now.stored) ==> Healthy(after.stored))
                  && Contribution(after.stored, run) == Wanted(call))
            && (!reply.Accepted? ==> after == now)
            && (Judge(request, reply).Again? ==> now != read)
            && (Judge(request, reply) == Finish(Succeeded) ==> Contribution(after.stored, run) == Wanted(call) && ConfigMaps.Holds(request, after.stored))
            && (Judge(request, reply) == Finish(ApiFailed) ==> now != read && after.stored.None?)
            && (Judge(request, reply) == Again <==> reply in {Conflict, AlreadyExists})
  {
    hide Mergeable, IsUnion, Union, Consistent;
    GuardHolds(read, now, run, call, request);
    if Serve(now, request).1.Accepted? {
      EffectOfCurrentWrite(now, run, call);
    }
  }

  lemma GuardHolds(read: ApiServer, now: ApiServer, run: string, call: Call, request: Request)
    requires Decide(run, call, read.stored) == Send(request)
    requires ServerOk(read) && ServerOk(now)
    requires now == read
      || (read.clock < now.clock && (now.stored.Some? ==> read.clock <= now.stored.value.version))
    ensures Serve(now, request).1.Accepted? ==> now.stored == read.stored
  {
    hide Mergeable, IsUnion, Union, Consistent;
  }

  /** No write in this interleaving is sent by a call of `run`. */
  ghost predicate NoWriteOf(w: World, es: seq<Event>, run: string)
    requires Legal(w, es)
    decreases |es|
  {
    es == [] || ((es[0].Write? ==> w.clients[es[0].id].run != run) && NoWriteOf(Step(w, es[0]), es[1..], run))
  }

  lemma OneStepInterferes(w: World, e: Event, run: string)
    requires Inv(w) && Enabled(w, e) && (e.Write? ==> w.clients[e.id].run != run)
    ensures ConfigMaps.Interference(run, w.server, |w.log|, Step(w, e).server, |Step(w, e).log|)
  {
    hide Mergeable, IsUnion, Union, Consistent, Decide, Step;
    InvStep(w, e);
    StepEffect(w, e);
    if Healthy(w.server.stored) {
      HealthyStep(w, e);
    }
    if Contribution(Step(w, e).server.stored, run) != Contribution(w.server.stored, run) {
      OnlyOwnCallsChangeContribution(w, e, run);
    }
    if Step(w, e).log != w.log {
      AcceptedTakesTheClock(w.server, Decide(w.clients[e.id].run, w.clients[e.id].call, w.server.stored).request);
      ChangedByWrite(w, e);
    }
  }

  lemma ChangedByWrite(w: World, e: Event)
    requires Inv(w) && Enabled(w, e) && Step(w, e).log != w.log
    ensures e.Write? && Step(w, e).server.clock == w.server.clock + 1
    ensures Step(w, e).server.stored.Some? ==> Step(w, e).server.stored.value.version == w.server.clock
  {
    hide Mergeable, IsUnion, Union, Consistent;
  }

  lemma AcceptedTakesTheClock(server: ApiServer, request: Request)
    ensures var (after, reply) := Serve(server, request);
            reply.Accepted? ==> after.clock == server.clock + 1 && (after.stored.Some? ==> after.stored.value.version == server.clock)
  {
  }

  /** The contract of `Others` is what the protocol proves of every interleaving without a write of this run. */
  lemma {:induction false} OtherRunsInterfere(w: World, es: seq<Event>, run: string)
    requires Inv(w) && Legal(w, es) && NoWriteOf(w, es, run)
    ensures ConfigMaps.Interference(run, w.server, |w.log|, Run(w, es).server, |Run(w, es).log|)
    decreases |es|
  {
    hide Inv, Step, Contribution;
    if es == [] {
      StillOk(w);
    } else {
      OneStepInterferes(w, es[0], run);
      InvStep(w, es[0]);
      OtherRunsInterfere(Step(w, es[0]), es[1..], run);
    }
  }

  lemma StillOk(w: World)
    requires Inv(w)
    ensures ServerOk(w.server)
  {
  }
}
