/**
 Any number of runs interleave EnsureVeleroStorageClassMappings and
 DeleteVeleroStorageClassMappings (internal/adapter/kubernetes/execution.go:94-188)
 against one API server. Each call repeats "read, then write guarded by the
 version read" at most five times; reads and writes of different calls interleave
 freely, and a request may be lost before or after it takes effect.
 */
module StorageMappingProtocol {
  import opened Wrappers
  import opened StorageMappings

  const MAX_ATTEMPTS := 5

  datatype ConfigMap = ConfigMap(managed: bool, annotations: Annotations, data: Mapping, uid: nat, version: nat)

  /** `clock` is the next version the server hands out; every accepted write takes a new one. */
  datatype ApiServer = ApiServer(stored: Option<ConfigMap>, clock: nat)

  datatype Request =
    | Create(annotations: Annotations, data: Mapping)
    | Update(stored: ConfigMap)
    | Remove(uid: nat, version: nat)

  datatype Reply = Accepted | AlreadyExists | NotFound | Conflict

  /** The server's optimistic concurrency control. */
  function Serve(server: ApiServer, request: Request): (ApiServer, Reply) {
    match request
    case Create(annotations, data) =>
      if server.stored.Some? then (server, AlreadyExists)
      else (ApiServer(Some(ConfigMap(true, annotations, data, server.clock, server.clock)), server.clock + 1), Accepted)
    case Update(stored) =>
      if server.stored.None? then (server, NotFound)
      else if server.stored.value.uid != stored.uid || server.stored.value.version != stored.version then (server, Conflict)
      else (ApiServer(Some(stored.(version := server.clock)), server.clock + 1), Accepted)
    case Remove(uid, version) =>
      if server.stored.None? then (server, NotFound)
      else if server.stored.value.uid != uid || server.stored.value.version != version then (server, Conflict)
      else (ApiServer(None, server.clock + 1), Accepted)
  }

  datatype Call = Ensure(mappings: Mapping) | Delete

  datatype Outcome = Succeeded | NotManaged | MergeFailed | ApiFailed | Exhausted

  datatype Decision = Send(request: Request) | Stop(outcome: Outcome)

  /** What one attempt does with the ConfigMap it has just read. */
  ghost function Decide(run: string, call: Call, seen: Option<ConfigMap>): Decision {
    match call
    case Ensure(mappings) =>
      if seen.None? then Send(Create(map[RunKey(run) := Encoded(mappings)], mappings))
      else if !seen.value.managed then Stop(NotManaged)
      else
        var annotations := seen.value.annotations[RunKey(run) := Encoded(mappings)];
        if !Mergeable(annotations) then Stop(MergeFailed)
        else Send(Update(seen.value.(annotations := annotations, data := Union(annotations))))
    case Delete =>
      if seen.None? then Stop(Succeeded)
      else
        var annotations := seen.value.annotations - {RunKey(run)};
        if !Mergeable(annotations) then Stop(MergeFailed)
        else if Union(annotations) == map[] then Send(Remove(seen.value.uid, seen.value.version))
        else Send(Update(seen.value.(annotations := annotations, data := Union(annotations))))
  }

  datatype Verdict = Finish(outcome: Outcome) | Again

  /** How a call reads the server's reply to its write. */
  function Judge(request: Request, reply: Reply): Verdict {
    match reply
    case Accepted => Finish(Succeeded)
    case AlreadyExists => if request.Create? then Again else Finish(ApiFailed)
    case NotFound => if request.Remove? then Finish(Succeeded) else Finish(ApiFailed)
    case Conflict => if request.Create? then Finish(ApiFailed) else Again
  }

  // ---------------------------------------------------------------- the interleaving

  datatype Phase =
    | Reading
    | Holding(seen: Option<ConfigMap>, readAt: nat)
    | Finished(outcome: Outcome, at: nat)

  /** One call in progress. `began` counts the writes accepted before it started. */
  datatype Client = Client(run: string, call: Call, attempt: nat, began: nat, phase: Phase)

  /** `log` names the client of every accepted write, in order. */
  datatype World = World(server: ApiServer, clients: map<nat, Client>, log: seq<nat>)

  /** A write reaches the server and is answered, is lost, or takes effect without an answer. */
  datatype Fate = Answered | Lost | Unanswered

  datatype Event = Begin(id: nat, run: string, call: Call) | Read(id: nat, ok: bool) | Write(id: nat, fate: Fate)

  predicate Enabled(w: World, e: Event) {
    match e
    case Begin(id, _, _) => id !in w.clients
    case Read(id, _) => id in w.clients && w.clients[id].phase.Reading?
    case Write(id, _) => id in w.clients && w.clients[id].phase.Holding?
  }

  ghost function AfterRead(w: World, c: Client): Client {
    match Decide(c.run, c.call, w.server.stored)
    case Stop(outcome) => c.(phase := Finished(outcome, |w.log|))
    case Send(_) => c.(phase := Holding(w.server.stored, |w.log|))
  }

  function AfterReply(c: Client, verdict: Verdict, at: nat): Client {
    match verdict
    case Finish(outcome) => c.(phase := Finished(outcome, at))
    case Again =>
      var next := c.(attempt := c.attempt + 1, phase := Reading);
      if next.attempt < MAX_ATTEMPTS then next else next.(phase := Finished(Exhausted, at))
  }

  ghost function Step(w: World, e: Event): World
    requires Enabled(w, e)
  {
    match e
    case Begin(id, run, call) =>
      var phase := if call == Ensure(map[]) then Finished(Succeeded, |w.log|) else Reading;
      w.(clients := w.clients[id := Client(run, call, 0, |w.log|, phase)])
    case Read(id, ok) =>
      var c := w.clients[id];
      w.(clients := w.clients[id := if ok then AfterRead(w, c) else c.(phase := Finished(ApiFailed, |w.log|))])
    case Write(id, fate) =>
      var c := w.clients[id];
      match Decide(c.run, c.call, c.phase.seen)
      case Stop(_) => w
      case Send(request) =>
        if fate.Lost? then w.(clients := w.clients[id := c.(phase := Finished(ApiFailed, |w.log|))])
        else
          var (server, reply) := Serve(w.server, request);
          var log := if reply.Accepted? then w.log + [id] else w.log;
          var verdict := if fate.Unanswered? then Finish(ApiFailed) else Judge(request, reply);
          World(server, w.clients[id := AfterReply(c, verdict, |log|)], log)
  }

  ghost predicate Legal(w: World, es: seq<Event>)
    decreases |es|
  {
    es == [] || (Enabled(w, es[0]) && Legal(Step(w, es[0]), es[1..]))
  }

  ghost function Run(w: World, es: seq<Event>): World
    requires Legal(w, es)
    decreases |es|
  {
    if es == [] then w else Run(Step(w, es[0]), es[1..])
  }

  // ---------------------------------------------------------------- the invariant

  /** Data is exactly the merge of the owners, and the owners agree. */
  ghost predicate Consistent(stored: ConfigMap) {
    Mergeable(stored.annotations) && stored.data == Union(stored.annotations)
  }

  /** Absent, or managed by this program and consistent. */
  ghost predicate Healthy(stored: Option<ConfigMap>) {
    stored.Some? ==> stored.value.managed && Consistent(stored.value)
  }

  predicate ServerOk(server: ApiServer) {
    server.stored.Some? ==> server.stored.value.version < server.clock && server.stored.value.uid < server.clock
  }

  /** What a client holds is what the server has, unless another write was accepted in between. */
  predicate SeenOk(server: ApiServer, seen: Option<ConfigMap>) {
    && (seen.Some? ==> seen.value.version < server.clock)
    && (seen.Some? && server.stored.Some? && seen.value.version == server.stored.value.version ==> seen == server.stored)
  }

  ghost predicate ClientOk(w: World, id: nat, c: Client) {
    && c.began <= |w.log|
    && (!c.phase.Finished? ==>
          c.attempt < MAX_ATTEMPTS && c.began + c.attempt <= |w.log| && id !in w.log[c.began..] && c.call != Ensure(map[]))
    && match c.phase
       case Reading => true
       case Holding(seen, readAt) =>
         && c.began + c.attempt <= readAt <= |w.log|
         && Decide(c.run, c.call, seen).Send?
         && SeenOk(w.server, seen)
         && (readAt == |w.log| ==> seen == w.server.stored)
       case Finished(outcome, at) =>
         && c.began <= at <= |w.log|
         && (outcome == Exhausted ==> c.began + MAX_ATTEMPTS <= at && id !in w.log[c.began..at])
  }

  ghost predicate Inv(w: World) {
    && ServerOk(w.server)
    && (forall id | id in w.log :: id in w.clients)
    && (forall id | id in w.clients :: ClientOk(w, id, w.clients[id]))
  }

  ghost predicate Initial(w: World) {
    w.clients == map[] && w.log == [] && ServerOk(w.server)
  }

  /** A rejected guarded write means some other write was accepted since the read. */
  lemma RejectionMeansInterference(w: World, id: nat, request: Request)
    requires Inv(w) && id in w.clients && w.clients[id].phase.Holding?
    requires Decide(w.clients[id].run, w.clients[id].call, w.clients[id].phase.seen) == Send(request)
    requires Judge(request, Serve(w.server, request).1).Again?
    ensures w.clients[id].phase.readAt < |w.log|
  {
    assert ClientOk(w, id, w.clients[id]);
  }

  /** Compare-and-swap: an accepted write was computed from the current object. */
  lemma AcceptedMeansCurrent(w: World, id: nat, request: Request)
    requires Inv(w) && id in w.clients && w.clients[id].phase.Holding?
    requires Decide(w.clients[id].run, w.clients[id].call, w.clients[id].phase.seen) == Send(request)
    requires Serve(w.server, request).1.Accepted?
    ensures w.clients[id].phase.seen == w.server.stored
  {
    assert ClientOk(w, id, w.clients[id]);
  }

  /** An accepted write leaves every other client's bookkeeping sound. */
  lemma OthersStayOk(w: World, id: nat, server: ApiServer, other: nat)
    requires Inv(w) && id in w.clients && other in w.clients && other != id
    requires server.clock == w.server.clock + 1
    requires server.stored.Some? ==> server.stored.value.version == w.server.clock
    ensures ClientOk(World(server, w.clients, w.log + [id]), other, w.clients[other])
  {
    var c := w.clients[other];
    assert ClientOk(w, other, c);
    var log := w.log + [id];
    assert log[c.began..] == w.log[c.began..] + [id];
    if c.phase.Finished? {
      assert log[c.began..c.phase.at] == w.log[c.began..c.phase.at];
    }
  }

  lemma InvAfterAccepted(w: World, id: nat, fate: Fate)
    requires Inv(w) && Enabled(w, Write(id, fate)) && !fate.Lost?
    requires Step(w, Write(id, fate)).log != w.log
    ensures Inv(Step(w, Write(id, fate)))
  {
    hide Mergeable, IsUnion, Union, Consistent;
    assert ClientOk(w, id, w.clients[id]);
    var w' := Step(w, Write(id, fate));
    forall x | x in w'.clients ensures ClientOk(w', x, w'.clients[x]) {
      if x != id {
        OthersStayOk(w, id, w'.server, x);
      }
    }
  }

  lemma InvAfterRejected(w: World, id: nat, fate: Fate)
    requires Inv(w) && Enabled(w, Write(id, fate))
    requires Step(w, Write(id, fate)).log == w.log
    ensures Inv(Step(w, Write(id, fate)))
  {
    hide Mergeable, IsUnion, Union, Consistent;
    var c := w.clients[id];
    assert ClientOk(w, id, c);
    var w' := Step(w, Write(id, fate));
    var request := Decide(c.run, c.call, c.phase.seen).request;
    if !fate.Lost? {
      assert !Serve(w.server, request).1.Accepted? by {
        assert |w.log + [id]| == |w.log| + 1;
      }
      if Judge(request, Serve(w.server, request).1).Again? {
        RejectionMeansInterference(w, id, request);
      }
    }
    assert w.log[c.began..] == w.log[c.began..|w.log|];
    forall x | x in w'.clients && x != id ensures ClientOk(w', x, w'.clients[x]) {
      assert ClientOk(w, x, w.clients[x]);
    }
  }

  lemma InvAfterBeginOrRead(w: World, e: Event)
    requires Inv(w) && Enabled(w, e) && !e.Write?
    ensures Inv(Step(w, e))
  {
    hide Mergeable, IsUnion, Union, Consistent;
    var w' := Step(w, e);
    assert w.log[|w.log|..] == [];
    forall x | x in w'.clients ensures ClientOk(w', x, w'.clients[x]) {
      assert x in w.clients ==> ClientOk(w, x, w.clients[x]);
    }
  }

  lemma InvStep(w: World, e: Event)
    requires Inv(w) && Enabled(w, e)
    ensures Inv(Step(w, e))
  {
    hide Inv, Step;
    if !e.Write? {
      InvAfterBeginOrRead(w, e);
    } else if Step(w, e).log == w.log {
      InvAfterRejected(w, e.id, e.fate);
    } else {
      if e.fate.Lost? {
        LostKeepsLog(w, e.id);
      }
      InvAfterAccepted(w, e.id, e.fate);
    }
  }

  lemma LostKeepsLog(w: World, id: nat)
    requires Enabled(w, Write(id, Lost))
    ensures Step(w, Write(id, Lost)).log == w.log
  {
  }

  lemma {:induction false} InvRun(w: World, es: seq<Event>)
    requires Inv(w) && Legal(w, es)
    ensures Inv(Run(w, es))
    decreases |es|
  {
    if es != [] {
      InvStep(w, es[0]);
      InvRun(Step(w, es[0]), es[1..]);
    }
  }

  // ---------------------------------------------------------------- safety of the shared data

  lemma SingleOwnerUnion(run: string, mappings: Mapping)
    ensures Mergeable(map[RunKey(run) := Encoded(mappings)])
    ensures Union(map[RunKey(run) := Encoded(mappings)]) == mappings
  {
    var a := map[RunKey(run) := Encoded(mappings)];
    forall s | s in mappings ensures exists k :: Owns(a, k, s) {
      assert Owns(a, RunKey(run), s);
    }
    UnionIsUnique(a, mappings, Union(a));
  }

  /** What `run` contributes to the stored ConfigMap. */
  function Contribution(stored: Option<ConfigMap>, run: string): Mapping {
    if stored.Some? && RunKey(run) in stored.value.annotations && stored.value.annotations[RunKey(run)].Encoded?
    then stored.value.annotations[RunKey(run)].mappings
    else map[]
  }

  /** What a call wants its run's contribution to be. */
  function Wanted(call: Call): Mapping {
    if call.Ensure? then call.mappings else map[]
  }

  lemma OtherContributionsSurviveRemove(stored: ConfigMap, run: string, other: string)
    requires Mergeable(stored.annotations - {RunKey(run)}) && Union(stored.annotations - {RunKey(run)}) == map[]
    requires other != run
    ensures Contribution(Some(stored), other) == map[]
  {
    var annotations := stored.annotations - {RunKey(run)};
    var union := Union(annotations);
    forall s ensures s !in Contribution(Some(stored), other) {
      assert Owns(annotations, RunKey(other), s) ==> s in union;
    }
  }

  /** `call` of `run` turns `before` into `after`: consistent, its own contribution as wanted, all others kept. */
  ghost predicate Effective(before: Option<ConfigMap>, run: string, call: Call, after: Option<ConfigMap>) {
    && (after.Some? ==> Consistent(after.value))
    && (Healthy(before) ==> Healthy(after))
    && Contribution(after, run) == Wanted(call)
    && forall other | other != run :: Contribution(after, other) == Contribution(before, other)
  }

  lemma EffectOfCreate(run: string, mappings: Mapping, version: nat)
    ensures Effective(None, run, Ensure(mappings),
                      Some(ConfigMap(true, map[RunKey(run) := Encoded(mappings)], mappings, version, version)))
  {
    hide Mergeable, IsUnion, Union;
    SingleOwnerUnion(run, mappings);
  }

  lemma EffectOfUpdate(stored: ConfigMap, run: string, call: Call, annotations: Annotations, version: nat)
    requires Mergeable(annotations)
    requires call.Ensure? ==> annotations == stored.annotations[RunKey(run) := Encoded(call.mappings)]
    requires call.Delete? ==> annotations == stored.annotations - {RunKey(run)}
    ensures Effective(Some(stored), run, call,
                      Some(stored.(annotations := annotations, data := Union(annotations), version := version)))
  {
    hide Mergeable, IsUnion, Union;
  }

  lemma EffectOfRemove(stored: ConfigMap, run: string)
    requires Mergeable(stored.annotations - {RunKey(run)}) && Union(stored.annotations - {RunKey(run)}) == map[]
    ensures Effective(Some(stored), run, Delete, None)
  {
    forall other | other != run ensures Contribution(Some(stored), other) == map[] {
      OtherContributionsSurviveRemove(stored, run, other);
    }
  }

  /** The effect of a write computed from the stored object itself. */
  lemma EffectOfCurrentWrite(server: ApiServer, run: string, call: Call)
    requires Decide(run, call, server.stored).Send?
    ensures Effective(server.stored, run, call, Serve(server, Decide(run, call, server.stored).request).0.stored)
  {
    hide Mergeable, IsUnion, Union, Consistent, Effective;
    if server.stored.None? {
      EffectOfCreate(run, call.mappings, server.clock);
    } else if call.Ensure? {
      EffectOfUpdate(server.stored.value, run, call,
                     server.stored.value.annotations[RunKey(run) := Encoded(call.mappings)], server.clock);
    } else if Union(server.stored.value.annotations - {RunKey(run)}) == map[] {
      EffectOfRemove(server.stored.value, run);
    } else {
      EffectOfUpdate(server.stored.value, run, call, server.stored.value.annotations - {RunKey(run)}, server.clock);
    }
  }

  /** Every step either leaves server and log alone or is an accepted write computed from the current object. */
  lemma StepEffect(w: World, e: Event)
    requires Inv(w) && Enabled(w, e)
    ensures (Step(w, e).server == w.server && Step(w, e).log == w.log)
      || (&& e.Write? && e.id in w.clients && Step(w, e).log == w.log + [e.id]
          && var c := w.clients[e.id];
             && Decide(c.run, c.call, w.server.stored).Send?
             && Step(w, e).server == Serve(w.server, Decide(c.run, c.call, w.server.stored).request).0)
  {
    hide Mergeable, IsUnion, Union, Consistent;
    if e.Write? && !e.fate.Lost? {
      var c := w.clients[e.id];
      assert ClientOk(w, e.id, c);
      var request := Decide(c.run, c.call, c.phase.seen).request;
      if Serve(w.server, request).1.Accepted? {
        AcceptedMeansCurrent(w, e.id, request);
      }
    }
  }

  /**
   Whatever was stored before, even data written by someone else, an accepted
   write leaves the ConfigMap gone or with `data` equal to the merge of its owners.
   */
  lemma AcceptedWriteIsConsistent(w: World, e: Event)
    requires Inv(w) && Enabled(w, e)
    requires Step(w, e).log != w.log
    ensures var after := Step(w, e).server.stored; after.Some? ==> Consistent(after.value)
  {
    StepEffect(w, e);
    EffectOfCurrentWrite(w.server, w.clients[e.id].run, w.clients[e.id].call);
  }

  lemma HealthyStep(w: World, e: Event)
    requires Inv(w) && Enabled(w, e) && Healthy(w.server.stored)
    ensures Healthy(Step(w, e).server.stored)
  {
    StepEffect(w, e);
    if Step(w, e).server != w.server {
      EffectOfCurrentWrite(w.server, w.clients[e.id].run, w.clients[e.id].call);
    }
  }

  /**
   Safety over whole runs: from an absent or managed ConfigMap, in every
   interleaving, `data` is at every moment the merge of all owners and no two
   owners disagree.
   */
  lemma {:induction false} SharedDataIsTheMerge(w: World, es: seq<Event>)
    requires Inv(w) && Healthy(w.server.stored) && Legal(w, es)
    ensures Inv(Run(w, es)) && Healthy(Run(w, es).server.stored)
    decreases |es|
  {
    if es != [] {
      InvStep(w, es[0]);
      HealthyStep(w, es[0]);
      SharedDataIsTheMerge(Step(w, es[0]), es[1..]);
    }
  }

  // ---------------------------------------------------------------- ownership

  /** Contributing a mapping is visible in `data`. */
  lemma ContributionIsInData(stored: Option<ConfigMap>, run: string, source: string)
    requires Healthy(stored) && source in Contribution(stored, run)
    ensures source in stored.value.data && stored.value.data[source] == Contribution(stored, run)[source]
  {
  }

  /** No step changes a run's contribution except an accepted write of that run's own call, to what that call wants. */
  lemma OnlyOwnCallsChangeContribution(w: World, e: Event, run: string)
    requires Inv(w) && Enabled(w, e)
    requires Contribution(Step(w, e).server.stored, run) != Contribution(w.server.stored, run)
    ensures e.Write? && w.clients[e.id].run == run
    ensures Contribution(Step(w, e).server.stored, run) == Wanted(w.clients[e.id].call)
  {
    StepEffect(w, e);
    EffectOfCurrentWrite(w.server, w.clients[e.id].run, w.clients[e.id].call);
  }

  lemma SuccessfulStop(run: string, call: Call, stored: Option<ConfigMap>)
    requires Decide(run, call, stored) == Stop(Succeeded)
    ensures call.Delete? && Contribution(stored, run) == Wanted(call)
  {
  }

  lemma SuccessfulReply(server: ApiServer, run: string, call: Call, seen: Option<ConfigMap>)
    requires Decide(run, call, seen).Send?
    requires var request := Decide(run, call, seen).request; Judge(request, Serve(server, request).1) == Finish(Succeeded)
    ensures Serve(server, Decide(run, call, seen).request).1.Accepted? || (call.Delete? && server.stored.None?)
  {
  }

  /** A call that reports success has put its run's contribution where it wants it, at that moment. */
  lemma SuccessMeansDone(w: World, e: Event)
    requires Inv(w) && Enabled(w, e) && !e.Begin?
    requires Step(w, e).clients[e.id].phase.Finished? && Step(w, e).clients[e.id].phase.outcome == Succeeded
    ensures Contribution(Step(w, e).server.stored, w.clients[e.id].run) == Wanted(w.clients[e.id].call)
  {
    hide Mergeable, IsUnion, Union, Consistent;
    var c := w.clients[e.id];
    assert ClientOk(w, e.id, c);
    if e.Read? {
      SuccessfulStop(c.run, c.call, w.server.stored);
    } else {
      SuccessfulReply(w.server, c.run, c.call, c.phase.seen);
      StepEffect(w, e);
      if Step(w, e).log != w.log {
        EffectOfCurrentWrite(w.server, c.run, c.call);
      }
    }
  }

  /** `run` has no call that could remove or replace the mappings it contributes. */
  ghost predicate OnlyEnsures(w: World, es: seq<Event>, run: string, mappings: Mapping) {
    && (forall id | id in w.clients && w.clients[id].run == run && !w.clients[id].phase.Finished? ::
          w.clients[id].call == Ensure(mappings))
    && (forall e | e in es && e.Begin? && e.run == run :: e.call == Ensure(mappings))
  }

  lemma OnlyEnsuresStep(w: World, es: seq<Event>, run: string, mappings: Mapping)
    requires Inv(w) && Healthy(w.server.stored) && es != [] && Enabled(w, es[0])
    requires Contribution(w.server.stored, run) == mappings
    requires OnlyEnsures(w, es, run, mappings)
    ensures Contribution(Step(w, es[0]).server.stored, run) == mappings
    ensures OnlyEnsures(Step(w, es[0]), es[1..], run, mappings)
  {
    hide Mergeable, IsUnion, Union, Consistent;
    var e := es[0];
    assert e in es;
    if Contribution(Step(w, e).server.stored, run) != mappings {
      OnlyOwnCallsChangeContribution(w, e, run);
    }
    forall x | x in es[1..] ensures x in es {
    }
  }

  /**
   A completed Ensure is undone only by that run's own Delete: as long as the run
   starts no Delete, every later state of every interleaving still holds its
   mappings, in its annotation and in `data`.
   */
  lemma {:induction false} CompletedEnsureStays(w: World, es: seq<Event>, run: string, mappings: Mapping)
    requires Inv(w) && Healthy(w.server.stored) && Legal(w, es)
    requires Contribution(w.server.stored, run) == mappings
    requires OnlyEnsures(w, es, run, mappings)
    ensures Contribution(Run(w, es).server.stored, run) == mappings
    ensures forall s | s in mappings ::
              var stored := Run(w, es).server.stored;
              stored.Some? && s in stored.value.data && stored.value.data[s] == mappings[s]
    decreases |es|
  {
    if es == [] {
      forall s | s in mappings ensures s in w.server.stored.value.data && w.server.stored.value.data[s] == mappings[s] {
        ContributionIsInData(w.server.stored, run, s);
      }
    } else {
      InvStep(w, es[0]);
      HealthyStep(w, es[0]);
      OnlyEnsuresStep(w, es, run, mappings);
      CompletedEnsureStays(Step(w, es[0]), es[1..], run, mappings);
    }
  }

  // ---------------------------------------------------------------- retries

  /**
   A call gives up with "exceeded conflict retries" only after at least five
   writes, none of them its own, were accepted while it ran.
   */
  lemma ExhaustionNeedsFiveForeignWrites(w: World, es: seq<Event>, id: nat)
    requires Initial(w) && Legal(w, es)
    requires id in Run(w, es).clients && Run(w, es).clients[id].phase.Finished?
    requires Run(w, es).clients[id].phase.outcome == Exhausted
    ensures var end := Run(w, es);
            var c := end.clients[id];
            && c.began + 5 <= c.phase.at <= |end.log|
            && forall i | c.began <= i < c.phase.at :: end.log[i] != id
  {
    InvRun(w, es);
    var end := Run(w, es);
    var c := end.clients[id];
    assert ClientOk(end, id, c);
    forall i | c.began <= i < c.phase.at ensures end.log[i] != id {
      assert end.log[i] == end.log[c.began..c.phase.at][i - c.began];
    }
  }

  // ---------------------------------------------------------------- a ConfigMap somebody else manages

  /**
   Ensure refuses a ConfigMap without this program's managed-by label; Delete has
   no such check. An undisturbed Delete removes such a ConfigMap exactly when its
   other owners merge and none of them has an entry.
   */
  lemma DeleteTakesUnmanagedConfigMaps(server: ApiServer, run: string)
    requires server.stored.Some? && !server.stored.value.managed
    ensures forall mappings :: Decide(run, Ensure(mappings), server.stored) == Stop(NotManaged)
    ensures var others := server.stored.value.annotations - {RunKey(run)};
            RemovedBy(server, Decide(run, Delete, server.stored))
            <==> Mergeable(others) && forall k, s :: !Owns(others, k, s)
  {
  }

  predicate RemovedBy(server: ApiServer, decision: Decision) {
    decision.Send? && Serve(server, decision.request).0.stored.None?
  }

  // ---------------------------------------------------------------- undisturbed calls

  /** The outcome a call has reached, if any. */
  function Reached(w: World, id: nat): Option<Outcome> {
    if id in w.clients && w.clients[id].phase.Finished? then Some(w.clients[id].phase.outcome) else None
  }

  /**
   A call whose read and write are answered and that nobody comes between: it refuses a
   ConfigMap that is not managed, or owners it does not agree with, and nothing else.
   */
  lemma UndisturbedEnsure(w: World, id: nat, run: string, mappings: Mapping)
    requires id !in w.clients && mappings != map[]
    ensures var read := Step(Step(w, Begin(id, run, Ensure(mappings))), Read(id, true));
            var stored := w.server.stored;
            && (Reached(read, id) == Some(NotManaged) <==> stored.Some? && !stored.value.managed)
            && (Reached(read, id) == Some(MergeFailed) <==>
                  stored.Some? && stored.value.managed && !Mergeable(stored.value.annotations[RunKey(run) := Encoded(mappings)]))
            && (Reached(read, id).None? <==> Enabled(read, Write(id, Answered)))
            && (Reached(read, id).Some? ==> Reached(read, id).value in {NotManaged, MergeFailed})
            && (Reached(read, id).None? ==> Reached(Step(read, Write(id, Answered)), id) == Some(Succeeded))
  {
    hide Mergeable, Union;
  }

  /** And removing a contribution is refused exactly if the other owners disagree. */
  lemma UndisturbedDelete(w: World, id: nat, run: string)
    requires id !in w.clients
    ensures var read := Step(Step(w, Begin(id, run, Delete)), Read(id, true));
            var stored := w.server.stored;
            && (Reached(read, id) == Some(Succeeded) <==> stored.None?)
            && (Reached(read, id) == Some(MergeFailed) <==> stored.Some? && !Mergeable(stored.value.annotations - {RunKey(run)}))
            && (Reached(read, id).None? <==> Enabled(read, Write(id, Answered)))
            && (Reached(read, id).Some? ==> Reached(read, id).value in {Succeeded, MergeFailed})
            && (Reached(read, id).None? ==> Reached(Step(read, Write(id, Answered)), id) == Some(Succeeded))
  {
    hide Mergeable, Union;
  }
}
