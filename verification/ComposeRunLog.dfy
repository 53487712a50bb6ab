/**
 One run of a Compose migration as a record (internal/migration/compose_executor.go):
 the remote actions that took effect, the helper containers on the source host, and
 the append-only event log, which is all the handlers remember between attempts.
 */
module ComposeRunLog {
  import opened Wrappers
  import EventPages

  datatype SyncPhase = PreSync | Final

  datatype Source = Source(name: string, kind: string, path: string)

  datatype Transfer = Transfer(source: Source, claim: string)

  /** composeTransfer.key(): the two names joined by a NUL, which neither can contain. */
  type Key = (string, string)

  function KeyOf(t: Transfer): Key { (t.source.name, t.claim) }

  function Keys(transfers: seq<Transfer>): set<Key> { set t | t in transfers :: KeyOf(t) }

  datatype Event =
    | SourceStopped
    | SourceRestarted
    | Snapshot(key: Key, id: nat, final: bool)
    | ManifestsApplied
    | Other(name: string)

  /** A remote action that took effect. Snapshot ids are the repository's and never repeat. */
  datatype Act =
    | Stop
    | Start
    | HelperStarted(phase: SyncPhase, source: Source)
    | HelperFinished(phase: SyncPhase, source: Source, id: nat)
    | RestoreJob(claim: string, id: nat)

  datatype Helper = Running | Exited(snapshot: Option<nat>)

  /** Container names are hashes of run, phase, source name and path, so a pre-sync helper is never a final one. */
  type Helpers = map<(SyncPhase, Source), Helper>

  datatype State = State(acts: seq<Act>, log: seq<Event>, helpers: Helpers, nextId: nat)

  const PAGE := EventPages.PAGE

  /** The handlers read one page of events and never ask for the next. */
  function Visible(log: seq<Event>): seq<Event> { EventPages.FirstPage(log) }

  // ---------------------------------------------------------------- is the source running

  /** The latest stop or start decides. */
  predicate SourceUp(acts: seq<Act>) {
    if acts == [] then true
    else match acts[|acts| - 1]
      case Stop => false
      case Start => true
      case _ => SourceUp(acts[..|acts| - 1])
  }

  // ---------------------------------------------------------------- what a snapshot is worth

  ghost predicate StartedStopped(acts: seq<Act>, source: Source) {
    exists b :: 0 <= b < |acts| && acts[b] == HelperStarted(Final, source) && Stop in acts[..b]
  }

  /** A final-phase helper for `source` was started after a stop took effect, and then produced snapshot `id`. */
  ghost predicate TakenStopped(acts: seq<Act>, source: Source, id: nat) {
    exists c :: 0 <= c < |acts| && acts[c] == HelperFinished(Final, source, id) && StartedStopped(acts[..c], source)
  }

  ghost predicate TakenFor(acts: seq<Act>, transfers: seq<Transfer>, key: Key, id: nat) {
    exists t :: t in transfers && KeyOf(t) == key && TakenStopped(acts, t.source, id)
  }

  /**
   Every restore used a snapshot of one of the transfers onto that claim, taken in the
   final phase while the source was stopped; and the run had not restarted the source.
   */
  ghost predicate Justified(acts: seq<Act>, transfers: seq<Transfer>) {
    forall u | 0 <= u < |acts| && acts[u].RestoreJob? ::
      && Start !in acts[..u]
      && exists name :: TakenFor(acts[..u], transfers, (name, acts[u].claim), acts[u].id)
  }

  ghost predicate FreshIds(acts: seq<Act>, nextId: nat) {
    && (forall a | a in acts && a.HelperFinished? :: a.id < nextId)
    && (forall i, j | 0 <= i < j < |acts| && acts[i].HelperFinished? && acts[j].HelperFinished? :: acts[i].id != acts[j].id)
  }

  /** What holds at every moment of every run, whatever crashed. */
  ghost predicate Sound(s: State, transfers: seq<Transfer>) {
    && Justified(s.acts, transfers)
    && FreshIds(s.acts, s.nextId)
    && (SourceStopped in s.log ==> Stop in s.acts)
    && (SourceRestarted in s.log ==> Start in s.acts && SourceUp(s.acts))
    && (forall e | e in s.log && e.Snapshot? && e.final :: TakenFor(s.acts, transfers, e.key, e.id))
    && (forall h | h in s.helpers && h.0 == Final ::
          && StartedStopped(s.acts, h.1)
          && (s.helpers[h].Exited? && s.helpers[h].snapshot.Some? ==> TakenStopped(s.acts, h.1, s.helpers[h].snapshot.value)))
  }

  // ---------------------------------------------------------------- appending

  lemma StartedStoppedGrows(acts: seq<Act>, a: Act, source: Source)
    requires StartedStopped(acts, source)
    ensures StartedStopped(acts + [a], source)
  {
    var b :| 0 <= b < |acts| && acts[b] == HelperStarted(Final, source) && Stop in acts[..b];
    assert (acts + [a])[..b] == acts[..b] && (acts + [a])[b] == acts[b];
  }

  lemma TakenStoppedGrows(acts: seq<Act>, a: Act, source: Source, id: nat)
    requires TakenStopped(acts, source, id)
    ensures TakenStopped(acts + [a], source, id)
  {
    var c :| 0 <= c < |acts| && acts[c] == HelperFinished(Final, source, id) && StartedStopped(acts[..c], source);
    assert (acts + [a])[..c] == acts[..c] && (acts + [a])[c] == acts[c];
  }

  lemma TakenForGrows(acts: seq<Act>, a: Act, transfers: seq<Transfer>, key: Key, id: nat)
    requires TakenFor(acts, transfers, key, id)
    ensures TakenFor(acts + [a], transfers, key, id)
  {
    var t :| t in transfers && KeyOf(t) == key && TakenStopped(acts, t.source, id);
    TakenStoppedGrows(acts, a, t.source, id);
  }

  lemma JustifiedGrows(acts: seq<Act>, a: Act, transfers: seq<Transfer>)
    requires Justified(acts, transfers)
    requires a.RestoreJob? ==> Start !in acts && exists name :: TakenFor(acts, transfers, (name, a.claim), a.id)
    ensures Justified(acts + [a], transfers)
  {
    var next := acts + [a];
    forall u | 0 <= u < |next| && next[u].RestoreJob?
      ensures Start !in next[..u] && exists name :: TakenFor(next[..u], transfers, (name, next[u].claim), next[u].id)
    {
      assert next[..u] == acts[..u];
      if u == |acts| {
        assert acts[..u] == acts;
      }
    }
  }

  /** Any action except an unjustified restore keeps the state sound. */
  lemma SoundAfterAct(s: State, transfers: seq<Transfer>, a: Act)
    requires Sound(s, transfers)
    requires a.HelperFinished? ==> a.id == s.nextId
    requires a.Stop? ==> Start !in s.acts
    requires a.RestoreJob? ==> Start !in s.acts && exists name :: TakenFor(s.acts, transfers, (name, a.claim), a.id)
    ensures Sound(s.(acts := s.acts + [a], nextId := if a.HelperFinished? then s.nextId + 1 else s.nextId), transfers)
  {
    JustifiedGrows(s.acts, a, transfers);
    forall e | e in s.log && e.Snapshot? && e.final ensures TakenFor(s.acts + [a], transfers, e.key, e.id) {
      TakenForGrows(s.acts, a, transfers, e.key, e.id);
    }
    forall h | h in s.helpers && h.0 == Final ensures StartedStopped(s.acts + [a], h.1) {
      StartedStoppedGrows(s.acts, a, h.1);
    }
    forall h | h in s.helpers && h.0 == Final && s.helpers[h].Exited? && s.helpers[h].snapshot.Some?
      ensures TakenStopped(s.acts + [a], h.1, s.helpers[h].snapshot.value)
    {
      TakenStoppedGrows(s.acts, a, h.1, s.helpers[h].snapshot.value);
    }
  }

  // ---------------------------------------------------------------- starting and finishing a helper

  function HelperStart(s: State, phase: SyncPhase, source: Source): State {
    s.(acts := s.acts + [HelperStarted(phase, source)], helpers := s.helpers[(phase, source) := Running])
  }

  /** A running helper ends, with a snapshot or without. */
  function HelperEnd(s: State, phase: SyncPhase, source: Source, ok: bool): State {
    if ok
    then State(s.acts + [HelperFinished(phase, source, s.nextId)], s.log,
               s.helpers[(phase, source) := Exited(Some(s.nextId))], s.nextId + 1)
    else s.(helpers := s.helpers[(phase, source) := Exited(None)])
  }

  lemma SoundAfterHelperStart(s: State, transfers: seq<Transfer>, phase: SyncPhase, source: Source)
    requires Sound(s, transfers) && (phase == Final ==> Stop in s.acts)
    ensures Sound(HelperStart(s, phase, source), transfers)
  {
    SoundAfterAct(s, transfers, HelperStarted(phase, source));
    var acts := s.acts + [HelperStarted(phase, source)];
    assert acts[..|s.acts|] == s.acts && acts[|s.acts|] == HelperStarted(phase, source);
  }

  lemma SoundAfterHelperEnd(s: State, transfers: seq<Transfer>, phase: SyncPhase, source: Source, ok: bool)
    requires Sound(s, transfers) && (phase, source) in s.helpers
    ensures Sound(HelperEnd(s, phase, source, ok), transfers)
  {
    if ok {
      var a := HelperFinished(phase, source, s.nextId);
      SoundAfterAct(s, transfers, a);
      var acts := s.acts + [a];
      assert acts[..|s.acts|] == s.acts && acts[|s.acts|] == a;
    }
  }

  // ---------------------------------------------------------------- reading the log

  /** The last recorded final snapshot of each key. */
  function LatestFinal(events: seq<Event>): map<Key, nat> {
    if events == [] then map[]
    else
      var e, earlier := events[|events| - 1], LatestFinal(events[..|events| - 1]);
      if e.Snapshot? && e.final && e.key.0 != "" && e.key.1 != "" then earlier[e.key := e.id] else earlier
  }

  lemma {:induction false} LatestFinalIsRecorded(events: seq<Event>, key: Key)
    ensures key in LatestFinal(events) ==> Snapshot(key, LatestFinal(events)[key], true) in events
    ensures key in LatestFinal(events) <==> key.0 != "" && key.1 != "" && exists id :: Snapshot(key, id, true) in events
    decreases |events|
  {
    if events != [] {
      var rest := events[..|events| - 1];
      LatestFinalIsRecorded(rest, key);
      assert events == rest + [events[|events| - 1]];
    }
  }

  /** A later snapshot of the same key wins. */
  lemma {:induction false} LatestFinalIsLast(events: seq<Event>, i: nat)
    requires i < |events| && events[i].Snapshot? && events[i].final && events[i].key.0 != "" && events[i].key.1 != ""
    requires forall k :: i < k < |events| && events[k].Snapshot? && events[k].final ==> events[k].key != events[i].key
    ensures events[i].key in LatestFinal(events) && LatestFinal(events)[events[i].key] == events[i].id
    decreases |events|
  {
    if i < |events| - 1 {
      LatestFinalIsLast(events[..|events| - 1], i);
    }
  }

  lemma SubsetOfEqualSize<T>(a: set<T>, b: set<T>)
    requires a <= b && |a| == |b|
    ensures a == b
  {
    assert |b - a| == |b| - |a|;
  }

  predicate DistinctKeys(transfers: seq<Transfer>) {
    && (forall i, j | 0 <= i < j < |transfers| :: KeyOf(transfers[i]) != KeyOf(transfers[j]))
    && (forall t | t in transfers :: KeyOf(t).0 != "" && KeyOf(t).1 != "")
  }

  lemma {:induction false} DistinctKeysCount(transfers: seq<Transfer>)
    requires DistinctKeys(transfers)
    ensures |Keys(transfers)| == |transfers|
    decreases |transfers|
  {
    if transfers != [] {
      var last, rest := transfers[|transfers| - 1], transfers[..|transfers| - 1];
      DistinctKeysCount(rest);
      assert Keys(transfers) == Keys(rest) + {KeyOf(last)};
      assert KeyOf(last) !in Keys(rest);
    }
  }

  lemma RecordedKeysAreTransferKeys(s: State, transfers: seq<Transfer>)
    requires Sound(s, transfers)
    ensures LatestFinal(Visible(s.log)).Keys <= Keys(transfers)
  {
    forall key | key in LatestFinal(Visible(s.log)) ensures key in Keys(transfers) {
      LatestFinalIsRecorded(Visible(s.log), key);
      var e := Snapshot(key, LatestFinal(Visible(s.log))[key], true);
      assert e in s.log;
    }
  }

  /**
   The transfer step compares two counts. In a sound state the counts agree exactly
   when the recorded final snapshots and the transfers have the same keys.
   */
  lemma CountCheckComparesKeys(s: State, transfers: seq<Transfer>)
    requires Sound(s, transfers) && DistinctKeys(transfers)
    ensures |LatestFinal(Visible(s.log))| == |transfers| <==> LatestFinal(Visible(s.log)).Keys == Keys(transfers)
  {
    RecordedKeysAreTransferKeys(s, transfers);
    DistinctKeysCount(transfers);
    var keys := LatestFinal(Visible(s.log)).Keys;
    assert |keys| == |LatestFinal(Visible(s.log))|;
    if |keys| == |Keys(transfers)| {
      SubsetOfEqualSize(keys, Keys(transfers));
    }
  }

  /** Once complete, the recorded keys stay complete whatever is appended to the log. */
  lemma CompleteStaysComplete(s: State, s': State, transfers: seq<Transfer>)
    requires Sound(s', transfers) && s.log <= s'.log
    requires LatestFinal(Visible(s.log)).Keys == Keys(transfers)
    ensures LatestFinal(Visible(s'.log)).Keys == Keys(transfers)
  {
    RecordedKeysAreTransferKeys(s', transfers);
    assert Visible(s.log) <= Visible(s'.log);
    forall key | key in Keys(transfers) ensures key in LatestFinal(Visible(s'.log)) {
      assert key in LatestFinal(Visible(s.log));
      LatestFinalIsRecorded(Visible(s.log), key);
      LatestFinalIsRecorded(Visible(s'.log), key);
    }
  }

  /** No restore ever used a pre-sync snapshot. */
  lemma NoPreSyncSnapshotIsRestored(s: State, transfers: seq<Transfer>, u: nat, p: nat)
    requires Justified(s.acts, transfers) && FreshIds(s.acts, s.nextId)
    requires u < |s.acts| && s.acts[u].RestoreJob? && p < |s.acts| && s.acts[p].HelperFinished?
    requires s.acts[p].id == s.acts[u].id
    ensures s.acts[p].phase == Final
  {
  }

  // ---------------------------------------------------------------- rollback

  lemma {:induction false} DownMeansStopped(acts: seq<Act>)
    ensures !SourceUp(acts) ==> Stop in acts
    ensures Start !in acts ==> (SourceUp(acts) <==> Stop !in acts)
    decreases |acts|
  {
    if acts != [] {
      DownMeansStopped(acts[..|acts| - 1]);
      assert acts == acts[..|acts| - 1] + [acts[|acts| - 1]];
    }
  }

  datatype RollbackChoice = Leave | AlreadyDone | Restart

  /** What Rollback does with the source, from the page of events it reads. */
  function ChooseRollback(log: seq<Event>): RollbackChoice {
    if SourceStopped !in Visible(log) then Leave
    else if SourceRestarted in Visible(log) then AlreadyDone
    else Restart
  }

  const NEW_RUN := State([], [], map[], 0)

  /** The stop took effect; whether that was reported or recorded is another matter. */
  function StopTook(s: State): State { s.(acts := s.acts + [Stop]) }

  /**
   Between the stop taking effect and its event there is a window: what StopSource may
   leave of a new run is sound, has the source down, and makes rollback leave it down.
   */
  lemma StopWindow(transfers: seq<Transfer>)
    ensures var crashed := StopTook(NEW_RUN);
            Sound(crashed, transfers) && !SourceUp(crashed.acts) && ChooseRollback(crashed.log) == Leave
  {
    SoundAfterAct(NEW_RUN, transfers, Stop);
  }

  /** Rollback leaves a source down that is down exactly if its stop is not among the events it sees. */
  lemma RollbackLeavesDownIff(s: State, transfers: seq<Transfer>)
    requires Sound(s, transfers) && !SourceUp(s.acts)
    ensures ChooseRollback(s.log) != Restart <==> SourceStopped !in Visible(s.log)
  {
    assert SourceRestarted in Visible(s.log) ==> SourceRestarted in s.log;
  }
}
