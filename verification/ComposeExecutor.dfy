/**
 The step handlers of internal/migration/compose_executor.go, with a crash possible
 between any two actions, every remote action free to fail, to take effect, or to take
 effect and still report failure, and helper containers that outlive the worker that
 started them (internal/adapter/ssh/compose.go:392-406).
 */
module ComposeExecutor {
  import opened Wrappers
  import opened ComposeRunLog

  datatype Outcome = Done | Failed | Crashed

  datatype VolumeMode = VolumeNone | VolumeFSBackup | VolumeCSIDataMover | VolumeComposeKopia

  datatype StepType =
    | Preflight | PreSyncStep | Quiesce | FinalBackup | TransferStep | Transform | Restore | Validation | AwaitCutover

  /** scheduledSteps (internal/migration/run_service.go:275-293). */
  function ScheduledSteps(preSync: bool, mode: VolumeMode): seq<StepType> {
    [Preflight] + (if preSync then [PreSyncStep] else []) + [Quiesce, FinalBackup]
    + (if mode != VolumeNone then [TransferStep] else []) + [Transform, Restore, Validation, AwaitCutover]
  }

  /** The place of a step in every run. */
  function Place(step: StepType): nat {
    match step
    case Preflight => 0
    case PreSyncStep => 1
    case Quiesce => 2
    case FinalBackup => 3
    case TransferStep => 4
    case Transform => 5
    case Restore => 6
    case Validation => 7
    case AwaitCutover => 8
  }

  /** Every step occurs once and in its place; only the pre-sync and the transfer are optional. */
  lemma StepsAreInPlace(preSync: bool, mode: VolumeMode)
    ensures forall step :: step in ScheduledSteps(preSync, mode) <==> (step == PreSyncStep ==> preSync) && (step == TransferStep ==> mode != VolumeNone)
    ensures forall i, j :: 0 <= i < j < |ScheduledSteps(preSync, mode)| ==> Place(ScheduledSteps(preSync, mode)[i]) < Place(ScheduledSteps(preSync, mode)[j])
  {
    var steps := ScheduledSteps(preSync, mode);
    var n := if preSync then 2 else 1;
    var m := if mode != VolumeNone then n + 3 else n + 2;
    assert steps[0] == Preflight && (preSync ==> steps[1] == PreSyncStep) && steps[n] == Quiesce && steps[n + 1] == FinalBackup;
    assert mode != VolumeNone ==> steps[n + 2] == TransferStep;
    assert steps[m] == Transform && steps[m + 1] == Restore && steps[m + 2] == Validation && steps[m + 3] == AwaitCutover && |steps| == m + 4;
  }

  /** A step that comes earlier in its place has been scheduled before. */
  lemma ComesBefore(preSync: bool, mode: VolumeMode, i: nat, earlier: StepType)
    requires var steps := ScheduledSteps(preSync, mode); i < |steps| && earlier in steps && Place(earlier) < Place(steps[i])
    ensures earlier in ScheduledSteps(preSync, mode)[..i]
  {
    hide ScheduledSteps;
    var steps := ScheduledSteps(preSync, mode);
    StepsAreInPlace(preSync, mode);
    var j :| 0 <= j < |steps| && steps[j] == earlier;
    assert j < i;
    assert steps[..i][j] == earlier;
  }

  /** The forward steps cannot restore before the transfer check, nor before preflight accepted the volume mode. */
  lemma RestoreComesAfterTheChecks(preSync: bool, mode: VolumeMode, i: nat)
    requires var steps := ScheduledSteps(preSync, mode); i < |steps| && steps[i] == Restore
    ensures Preflight in ScheduledSteps(preSync, mode)[..i]
    ensures mode != VolumeNone ==> TransferStep in ScheduledSteps(preSync, mode)[..i]
  {
    hide ScheduledSteps;
    StepsAreInPlace(preSync, mode);
    ComesBefore(preSync, mode, i, Preflight);
    if mode != VolumeNone {
      ComesBefore(preSync, mode, i, TransferStep);
    }
  }

  class Executor {
    const transfers: seq<Transfer>
    const mode: VolumeMode
    var state: State
    ghost var reportedMissing: bool  // some restore found no final snapshot for a transfer
    ghost var trouble: nat  // remote actions and appends that failed, and crashes

    constructor (transfers: seq<Transfer>, mode: VolumeMode)
      requires DistinctKeys(transfers)
      ensures Valid() && Start !in state.acts && !reportedMissing
      ensures this.transfers == transfers && this.mode == mode
      ensures state == NEW_RUN && trouble == 0
    {
      this.transfers, this.mode := transfers, mode;
      state, reportedMissing, trouble := NEW_RUN, false, 0;
    }

    ghost predicate Valid()
      reads this
    {
      Sound(state, transfers) && DistinctKeys(transfers)
    }

    /** The recorded final snapshots cover exactly the transfers. */
    ghost predicate Complete()
      reads this
    {
      LatestFinal(Visible(state.log)).Keys == Keys(transfers)
    }

    /** What every action of a forward step keeps. */
    twostate predicate Forward()
      reads this
    {
      && Valid() && Start !in state.acts
      && old(state.log) <= state.log && old(state.acts) <= state.acts
      && (reportedMissing <==> old(reportedMissing))
      && old(trouble) <= trouble && (trouble == old(trouble) && old(state.helpers) == map[] ==> state.helpers == map[])
    }

    lemma CompletenessIsKept(before: State)
      requires Valid() && before.log <= state.log
      requires LatestFinal(Visible(before.log)).Keys == Keys(transfers)
      ensures Complete()
    {
      CompleteStaysComplete(before, state, transfers);
    }

    // ---------------------------------------------------------------- actions

    static predicate Succeeded(helper: Helper) { helper.Exited? && helper.snapshot.Some? }

    /** Meanwhile helpers may end and other components may append events of their own. */
    method Background()
      requires Valid() && Start !in state.acts
      modifies this`state, this`trouble
      ensures Forward() && state.helpers.Keys == old(state.helpers.Keys)
      ensures trouble == old(trouble) ==> forall h :: h in state.helpers ==> state.helpers[h] == old(state.helpers)[h] || Succeeded(state.helpers[h])
    {
      hide Justified, FreshIds, TakenFor, StartedStopped, TakenStopped, SourceUp;
      var turns: nat :| true;
      for i := 0 to turns
        invariant Forward() && state.helpers.Keys == old(state.helpers.Keys)
        invariant trouble == old(trouble) ==> forall h :: h in state.helpers ==> state.helpers[h] == old(state.helpers)[h] || Succeeded(state.helpers[h])
      {
        if * {
          var name: string := *;
          state := state.(log := state.log + [Other(name)]);
        } else if h :| h in state.helpers && state.helpers[h].Running? {
          var ok: bool := *;
          SoundAfterHelperEnd(state, transfers, h.0, h.1, ok);
          state := HelperEnd(state, h.0, h.1, ok);
          if !ok {
            trouble := trouble + 1;
          }
        }
      }
    }

    method AppendEvent(e: Event) returns (ok: bool)
      requires Valid()
      requires e == SourceStopped ==> Stop in state.acts
      requires e == SourceRestarted ==> Start in state.acts && SourceUp(state.acts)
      requires e.Snapshot? && e.final ==> TakenFor(state.acts, transfers, e.key, e.id)
      modifies this`state, this`trouble
      ensures Valid() && state.acts == old(state.acts) && old(state.log) <= state.log
      ensures state.log == old(state.log) || state.log == old(state.log) + [e]
      ensures ok ==> state.log == old(state.log) + [e]
      ensures state.helpers == old(state.helpers) && trouble == old(trouble) + if ok then 0 else 1
    {
      if * {
        trouble := trouble + 1;
        return false;
      }
      state := state.(log := state.log + [e]);
      ok := *;
      if !ok {
        trouble := trouble + 1;
      }
    }

    method StopSource() returns (ok: bool)
      requires Valid() && Start !in state.acts
      modifies this`state, this`trouble
      ensures Forward() && state in {old(state), StopTook(old(state))}
      ensures ok ==> state == StopTook(old(state)) && Stop in state.acts
      ensures trouble == old(trouble) + if ok then 0 else 1
    {
      if * {
        trouble := trouble + 1;
        return false;
      }
      SoundAfterAct(state, transfers, Stop);
      state := StopTook(state);
      ok := *;
      if !ok {
        trouble := trouble + 1;
      }
    }

    /** A helper that is already there is not started again. */
    method StartHelper(phase: SyncPhase, source: Source) returns (ok: bool)
      requires Valid() && Start !in state.acts
      requires phase == Final ==> Stop in state.acts
      modifies this`state, this`trouble
      ensures Valid() && Start !in state.acts && state.log == old(state.log) && old(state.acts) <= state.acts
      ensures trouble == old(trouble) + if ok then 0 else 1
      ensures if ok then (phase, source) in state.helpers && state.helpers == old(state.helpers)[(phase, source) := state.helpers[(phase, source)]]
              else state == old(state)
      ensures ok && (phase, source) !in old(state.helpers) ==> state.helpers[(phase, source)] == Running
    {
      hide Justified, FreshIds, TakenFor, StartedStopped, TakenStopped, SourceUp;
      if (phase, source) in state.helpers {
        return true;
      }
      if * {
        trouble := trouble + 1;
        return false;
      }
      SoundAfterHelperStart(state, transfers, phase, source);
      state := HelperStart(state, phase, source);
      return true;
    }

    /** docker wait and docker logs: the snapshot the helper reports, if it succeeded. */
    method AwaitHelper(phase: SyncPhase, source: Source) returns (id: Option<nat>)
      requires Valid() && Start !in state.acts && (phase, source) in state.helpers
      modifies this`state, this`trouble
      ensures Valid() && Start !in state.acts && state.log == old(state.log) && old(state.acts) <= state.acts
      ensures state.helpers.Keys == old(state.helpers.Keys) && old(trouble) <= trouble
      ensures trouble == old(trouble) ==> id.Some? || (old(state.helpers)[(phase, source)].Exited? && !Succeeded(old(state.helpers)[(phase, source)]))
      ensures id.Some? && phase == Final ==> TakenStopped(state.acts, source, id.value)
    {
      hide Justified, FreshIds, TakenFor, StartedStopped, SourceUp;
      var h := (phase, source);
      if state.helpers[h].Running? {
        var ok: bool := *;
        SoundAfterHelperEnd(state, transfers, phase, source, ok);
        state := HelperEnd(state, phase, source, ok);
        if !ok {
          trouble := trouble + 1;
        }
      }
      id := state.helpers[h].snapshot;
    }

    /** Starts the helper or reconnects to the one already there, waits, and removes it. */
    method CreateKopiaSnapshot(phase: SyncPhase, source: Source) returns (id: Option<nat>)
      requires Valid() && Start !in state.acts
      requires phase == Final ==> Stop in state.acts
      modifies this`state, this`trouble
      ensures Forward()
      ensures trouble == old(trouble) && old(state.helpers) == map[] ==> id.Some?
      ensures id.Some? && phase == Final ==> TakenStopped(state.acts, source, id.value)
    {
      hide Justified, FreshIds, TakenFor, StartedStopped, TakenStopped, SourceUp;
      var h := (phase, source);
      var ok := StartHelper(phase, source);
      if !ok {
        return None;
      }
      Background();
      if * {
        trouble := trouble + 1;
        return None;
      }
      id := AwaitHelper(phase, source);
      if * {
        trouble := trouble + 1;
        return None;
      }
      state := state.(helpers := state.helpers - {h});
      if * {
        trouble := trouble + 1;
        id := None;
      }
    }

    /** The restore job may run its course and still report failure. */
    method RunKopiaRestoreJob(t: Transfer, id: nat) returns (ok: bool)
      requires Valid() && Start !in state.acts && TakenFor(state.acts, transfers, KeyOf(t), id)
      modifies this`state, this`trouble
      ensures Forward() && state.log == old(state.log)
      ensures ok ==> RestoreJob(t.claim, id) in state.acts
      ensures trouble == old(trouble) + if ok then 0 else 1
    {
      if * {
        trouble := trouble + 1;
        return false;
      }
      SoundAfterAct(state, transfers, RestoreJob(t.claim, id));
      state := state.(acts := state.acts + [RestoreJob(t.claim, id)]);
      ok := *;
      if !ok {
        trouble := trouble + 1;
      }
    }

    // ---------------------------------------------------------------- reading the log

    method FinalSnapshots() returns (snapshots: map<Key, nat>)
      ensures snapshots == LatestFinal(Visible(state.log))
    {
      var events := Visible(state.log);
      snapshots := map[];
      for i := 0 to |events|
        invariant snapshots == LatestFinal(events[..i])
      {
        assert events[..i + 1][..i] == events[..i];
        var e := events[i];
        if e.Snapshot? && e.final && e.key.0 != "" && e.key.1 != "" {
          snapshots := snapshots[e.key := e.id];
        }
      }
      assert events[..|events|] == events;
    }

    /** The transfers of a phase already recorded as done. */
    method SnapshotKeys(final: bool) returns (completed: set<Key>)
      ensures forall k :: k in completed <==>
                k.0 != "" && k.1 != "" && exists e :: e in Visible(state.log) && e.Snapshot? && e.final == final && e.key == k
    {
      var events := Visible(state.log);
      completed := {};
      for i := 0 to |events|
        invariant forall k :: k in completed <==>
                    k.0 != "" && k.1 != "" && exists e :: e in events[..i] && e.Snapshot? && e.final == final && e.key == k
      {
        var e := events[i];
        assert events[..i + 1] == events[..i] + [e];
        if e.Snapshot? && e.final == final && e.key.0 != "" && e.key.1 != "" {
          completed := completed + {e.key};
        }
      }
      assert events[..|events|] == events;
    }

    // ---------------------------------------------------------------- handlers

    /** Steps that neither touch the source nor read snapshots: they only report. */
    method ReportStep(name: string) returns (outcome: Outcome)
      requires Valid() && Start !in state.acts
      modifies this`state, this`trouble
      ensures Forward()
      ensures trouble == old(trouble) ==> outcome.Done?
    {
      Background();
      if * {
        trouble := trouble + 1;
        return Crashed;
      }
      var ok := AppendEvent(Other(name));
      return if ok then Done else Failed;
    }

    method HandlePreflight() returns (outcome: Outcome)
      requires Valid() && Start !in state.acts
      modifies this`state, this`trouble
      ensures Forward()
      ensures trouble == old(trouble) && (transfers == [] || mode == VolumeComposeKopia) ==> outcome.Done?
      ensures outcome.Done? ==> transfers == [] || mode == VolumeComposeKopia
    {
      if |transfers| > 0 && mode != VolumeComposeKopia {
        return Failed;
      }
      outcome := ReportStep("COMPOSE_PREFLIGHT_PASSED");
    }

    method HandlePreSync() returns (outcome: Outcome)
      requires Valid() && Start !in state.acts
      modifies this`state, this`trouble
      ensures Forward()
      ensures trouble == old(trouble) && old(state.helpers) == map[] ==> outcome.Done?
      ensures outcome.Done? ==> forall t :: t in transfers ==> Recorded(state.log, KeyOf(t), false)
    {
      if |transfers| == 0 {
        outcome := ReportStep("COMPOSE_STATELESS_STEP");
        return;
      }
      outcome := SnapshotVolumes(PreSync);
    }

    method HandleQuiesce() returns (outcome: Outcome)
      requires Valid() && Start !in state.acts
      modifies this`state, this`trouble
      ensures Forward()
      ensures trouble == old(trouble) ==> outcome.Done?
      ensures outcome.Done? && transfers != [] ==> Stop in state.acts && SourceStopped in state.log
    {
      if |transfers| == 0 {
        outcome := ReportStep("COMPOSE_STATELESS_STEP");
        return;
      }
      Background();
      if SourceStopped in Visible(state.log) {
        return Done;
      }
      if * {
        trouble := trouble + 1;
        return Crashed;
      }
      var ok := StopSource();
      if !ok {
        return Failed;
      }
      Background();
      if * {
        trouble := trouble + 1;
        return Crashed;
      }
      ok := AppendEvent(SourceStopped);
      return if ok then Done else Failed;
    }

    /** Afterwards the transfer check can only fail because the log has outgrown the page. */
    method HandleFinalBackup() returns (outcome: Outcome)
      requires Valid() && Start !in state.acts
      modifies this`state, this`trouble
      ensures Forward()
      ensures trouble == old(trouble) && old(state.helpers) == map[] && |state.log| <= PAGE && (transfers == [] || SourceStopped in old(state.log)) ==>
                outcome.Done?
      ensures outcome.Done? && |state.log| <= PAGE ==> Complete()
    {
      if |transfers| == 0 {
        outcome := ReportStep("COMPOSE_STATELESS_STEP");
        AllRecordedIsComplete(state, transfers);
        return;
      }
      Background();
      if SourceStopped !in Visible(state.log) {
        return Failed;
      }
      outcome := SnapshotVolumes(Final);
      if outcome.Done? && |state.log| <= PAGE {
        AllRecordedIsComplete(state, transfers);
      }
    }

    /** When it reports success every transfer has a recorded snapshot of this phase. */
    method SnapshotVolumes(phase: SyncPhase) returns (outcome: Outcome)
      requires Valid() && Start !in state.acts
      requires phase == Final ==> Stop in state.acts
      modifies this`state, this`trouble
      ensures Forward()
      ensures trouble == old(trouble) && old(state.helpers) == map[] ==> outcome.Done?
      ensures outcome.Done? ==> forall t :: t in transfers ==> Recorded(state.log, KeyOf(t), phase == Final)
    {
      hide Sound, Recorded;
      Background();
      var completed := SnapshotKeys(phase == Final);
      ghost var listed := state.log;
      for i := 0 to |transfers|
        invariant Forward() && (phase == Final ==> Stop in state.acts) && listed <= state.log
        invariant RecordedUpTo(state.log, transfers, i, phase == Final)
      {
        if KeyOf(transfers[i]) in completed {
          VisibleIsRecorded(listed, state.log, KeyOf(transfers[i]), phase == Final);
          continue;
        }
        ghost var before := state.log;
        outcome := SnapshotOne(phase, transfers[i]);
        if !outcome.Done? {
          return;
        }
        RecordedUpToGrows(before, state.log, transfers, i, phase == Final);
      }
      ghost var before := state.log;
      outcome := ReportStep("COMPOSE_KOPIA_PHASE_COMPLETED");
      RecordedUpToGrows(before, state.log, transfers, |transfers|, phase == Final);
    }

    /** One transfer: a snapshot of its source, then the event that records it. */
    method SnapshotOne(phase: SyncPhase, t: Transfer) returns (outcome: Outcome)
      requires Valid() && Start !in state.acts && t in transfers
      requires phase == Final ==> Stop in state.acts
      modifies this`state, this`trouble
      ensures Forward()
      ensures trouble == old(trouble) && old(state.helpers) == map[] ==> outcome.Done?
      ensures outcome.Done? ==> Recorded(state.log, KeyOf(t), phase == Final)
    {
      hide Sound;
      var id := CreateKopiaSnapshot(phase, t.source);
      if id.None? {
        return Failed;
      }
      if * {
        trouble := trouble + 1;
        return Crashed;
      }
      label taken:
      var ok := AppendEvent(Snapshot(KeyOf(t), id.value, phase == Final));
      if !ok {
        return Failed;
      }
      assert state.log[|old@taken(state.log)|] == Snapshot(KeyOf(t), id.value, phase == Final);
      assert Recorded(state.log, KeyOf(t), phase == Final);
      label recorded:
      Background();
      RecordedGrows(old@recorded(state.log), state.log, KeyOf(t), phase == Final);
      return Done;
    }

    method HandleTransfer() returns (outcome: Outcome)
      requires Valid() && Start !in state.acts
      modifies this`state, this`trouble
      ensures Forward()
      ensures trouble == old(trouble) && (transfers == [] || old(Complete())) ==> outcome.Done?
      ensures outcome.Done? ==> Complete()
    {
      if |transfers| == 0 {
        RecordedKeysAreTransferKeys(state, transfers);
        label start:
        outcome := ReportStep("COMPOSE_STATELESS_STEP");
        CompletenessIsKept(old@start(state));
        return;
      }
      Background();
      if old(Complete()) {
        CompletenessIsKept(old(state));
      }
      var snapshots := FinalSnapshots();
      CountCheckComparesKeys(state, transfers);
      if |snapshots| != |transfers| {
        return Failed;
      }
      label checked:
      outcome := ReportStep("COMPOSE_TRANSFER_READY");
      CompletenessIsKept(old@checked(state));
    }

    /** The manifests go up, and an event says so the first time. */
    method ApplyManifests() returns (outcome: Outcome)
      requires Valid() && Start !in state.acts
      modifies this`state, this`trouble
      ensures Forward()
      ensures trouble == old(trouble) ==> outcome.Done?
      ensures outcome.Done? ==> ManifestsApplied in state.log
    {
      hide Sound;
      Background();
      if * {
        trouble := trouble + 1;
        return Failed;
      }
      if * {
        trouble := trouble + 1;
        return Crashed;
      }
      if ManifestsApplied !in Visible(state.log) {
        var ok := AppendEvent(ManifestsApplied);
        if !ok {
          return Failed;
        }
        assert state.log[|state.log| - 1] == ManifestsApplied;
      }
      assert ManifestsApplied in state.log;
      label recorded:
      Background();
      assert forall e :: e in old@recorded(state.log) ==> e in state.log;
      return Done;
    }

    method HandleRestore() returns (outcome: Outcome)
      requires Valid() && Start !in state.acts
      modifies this`state, this`reportedMissing, this`trouble
      ensures Valid() && Start !in state.acts && old(state.log) <= state.log && old(state.acts) <= state.acts
      ensures old(Complete()) || transfers == [] ==> reportedMissing == old(reportedMissing)
      ensures outcome.Done? ==> forall t :: t in transfers ==> Restored(state, t)
      ensures old(trouble) <= trouble && (trouble == old(trouble) && old(state.helpers) == map[] ==> state.helpers == map[])
      ensures trouble == old(trouble) && (transfers == [] || old(Complete())) ==> outcome.Done?
      ensures outcome.Done? ==> ManifestsApplied in state.log
    {
      hide Sound, TakenFor, AllTaken, RestoredUpTo;
      outcome := ApplyManifests();
      if !outcome.Done? {
        return;
      }
      if old(Complete()) {
        CompletenessIsKept(old(state));
      }
      var snapshots := FinalSnapshots();
      RecordedSnapshotsAreTaken(state, transfers);
      ghost var known := state.log;
      outcome := RestoreAll(snapshots);
      if outcome.Done? {
        ghost var acts := state.acts;
        outcome := ReportStep("COMPOSE_RESTORED");
        AllRestored(known, acts, state, transfers, snapshots);
      }
    }

    method RestoreAll(snapshots: map<Key, nat>) returns (outcome: Outcome)
      requires Valid() && Start !in state.acts
      requires AllTaken(state.acts, transfers, snapshots)
      modifies this`state, this`reportedMissing, this`trouble
      ensures Valid() && Start !in state.acts && old(state.log) <= state.log && old(state.acts) <= state.acts
      ensures snapshots.Keys == Keys(transfers) || transfers == [] ==> reportedMissing == old(reportedMissing)
      ensures outcome.Done? ==> RestoredUpTo(state.acts, transfers, snapshots, |transfers|)
      ensures old(trouble) <= trouble && (trouble == old(trouble) && old(state.helpers) == map[] ==> state.helpers == map[])
      ensures trouble == old(trouble) && (transfers == [] || snapshots.Keys == Keys(transfers)) ==> outcome.Done?
    {
      hide Sound, RestoredUpTo, AllTaken, TakenFor;
      NothingRestored(state.acts, transfers, snapshots);
      for i := 0 to |transfers|
        invariant Forward()
        invariant AllTaken(state.acts, transfers, snapshots)
        invariant RestoredUpTo(state.acts, transfers, snapshots, i)
      {
        var t := transfers[i];
        if KeyOf(t) !in snapshots {
          reportedMissing := true;
          return Failed;
        }
        label before:
        TakenOne(state.acts, transfers, snapshots, KeyOf(t));
        var ok := RunKopiaRestoreJob(t, snapshots[KeyOf(t)]);
        AllTakenLasts(old@before(state.acts), state.acts, transfers, snapshots);
        if !ok {
          return Failed;
        }
        OneMoreRestored(old@before(state.acts), state.acts, transfers, snapshots, i);
        if * {
          trouble := trouble + 1;
          return Crashed;
        }
      }
      return Done;
    }

    /**
     Rollback ends the forward sequence; it is the only handler that starts the
     source. A completed rollback leaves the source running exactly when it was
     running before or its stop is among the events the handler can see.
     */
    method HandleRollback() returns (outcome: Outcome)
      requires Valid()
      modifies this`state, this`trouble
      ensures Valid() && old(state.log) <= state.log && old(state.acts) <= state.acts
      ensures old(trouble) <= trouble && (trouble == old(trouble) ==> outcome.Done?)
      ensures SourceStopped !in Visible(old(state.log)) ==> state.acts == old(state.acts)
      ensures SourceStopped in Visible(old(state.log)) && SourceRestarted in Visible(old(state.log)) ==> outcome.Done? && state == old(state)
      ensures state.acts == old(state.acts) || state.acts == old(state.acts) + [Start]
      ensures outcome.Done? ==>
                (SourceUp(state.acts) <==> SourceUp(old(state.acts)) || SourceStopped in Visible(old(state.log)))
    {
      var event := SourceRestarted;
      match ChooseRollback(state.log) {
        case AlreadyDone =>
          return Done;
        case Leave =>
          event := Other("COMPOSE_ROLLBACK");
        case Restart =>
          if * {
            trouble := trouble + 1;
            return Failed;
          }
          SoundAfterAct(state, transfers, Start);
          state := state.(acts := state.acts + [Start]);
          if * {
            trouble := trouble + 1;
            return Crashed;
          }
      }
      var ok := AppendEvent(event);
      return if ok then Done else Failed;
    }

    // ---------------------------------------------------------------- whole runs

    method Handle(step: StepType) returns (outcome: Outcome)
      requires Valid() && Start !in state.acts
      modifies this`state, this`reportedMissing, this`trouble
      ensures Valid() && Start !in state.acts && old(state.log) <= state.log && old(state.acts) <= state.acts
      ensures old(trouble) <= trouble && (trouble == old(trouble) && old(state.helpers) == map[] ==> state.helpers == map[])
      ensures (step == Restore ==> old(Complete()) || transfers == []) ==> reportedMissing == old(reportedMissing)
      ensures outcome.Done? ==> Reaches(step)
      ensures trouble == old(trouble) && old(state.helpers) == map[] && |state.log| <= PAGE && old(Ready(step)) ==> outcome.Done?
    {
      match step
      case Preflight => outcome := HandlePreflight();
      case PreSyncStep => outcome := HandlePreSync();
      case Quiesce => outcome := HandleQuiesce();
      case FinalBackup => outcome := HandleFinalBackup();
      case TransferStep => outcome := HandleTransfer();
      case Transform => outcome := ReportStep("COMPOSE_TRANSFORMED");
      case Restore => outcome := HandleRestore();
      case Validation => outcome := ReportStep("COMPOSE_VALIDATED");
      case AwaitCutover => outcome := Done;
    }

    ghost predicate Compatible() { transfers == [] || mode == VolumeComposeKopia }

    /** What a step leaves behind when it is done. */
    ghost predicate Reaches(step: StepType)
      reads this
    {
      match step
      case Preflight => Compatible()
      case Quiesce => transfers != [] ==> SourceStopped in state.log
      case FinalBackup => |state.log| <= PAGE ==> Complete()
      case TransferStep => Complete()
      case Restore => forall t :: t in transfers ==> Restored(state, t)
      case _ => true
    }

    /** What a step needs of the ones before it. */
    ghost predicate Ready(step: StepType)
      reads this
    {
      match step
      case Preflight => Compatible()
      case FinalBackup => Reaches(Quiesce)
      case TransferStep => transfers == [] || Complete()
      case Restore => transfers == [] || Complete()
      case _ => true
    }

    /** What one step left behind is not undone by others. */
    twostate lemma ReachedStays(step: StepType)
      requires old(Reaches(step)) && Valid() && old(state.log) <= state.log && old(state.acts) <= state.acts
      ensures Reaches(step)
    {
      hide Sound, LatestFinal, Visible, Keys, DistinctKeys;
      if step == TransferStep || (step == FinalBackup && |state.log| <= PAGE) {
        CompletenessIsKept(old(state));
      }
      assert forall e :: e in old(state.log) ==> e in state.log;
      if step == Restore {
        forall t | t in transfers
          ensures Restored(state, t)
        {
          RestoredStays(old(state), state, t);
        }
      }
    }

    /** Each step is done without trouble if the ones before it were. */
    lemma ReadyInTurn(preSync: bool, next: nat)
      requires next < |ScheduledSteps(preSync, mode)| && Compatible() && |state.log| <= PAGE
      requires forall step :: step in ScheduledSteps(preSync, mode)[..next] ==> Reaches(step)
      ensures Ready(ScheduledSteps(preSync, mode)[next])
    {
      hide ScheduledSteps;
      StepsAreInPlace(preSync, mode);
      var step := ScheduledSteps(preSync, mode)[next];
      if step == FinalBackup {
        ComesBefore(preSync, mode, next, Quiesce);
      }
      if step == TransferStep || step == Restore {
        ComesBefore(preSync, mode, next, FinalBackup);
      }
    }

    /** Nothing is restored before the transfer check, or there is nothing to restore. */
    lemma RestoresAfterTheChecks(preSync: bool, next: nat)
      requires next < |ScheduledSteps(preSync, mode)| && ScheduledSteps(preSync, mode)[next] == Restore
      requires forall step :: step in ScheduledSteps(preSync, mode)[..next] ==> Reaches(step)
      ensures Complete() || transfers == []
    {
      hide ScheduledSteps;
      RestoreComesAfterTheChecks(preSync, mode, next);
    }

    /**
     Any run: the scheduled steps in order, each attempted any number of times and
     crashing anywhere, then, if the run is cut short or the source is asked for
     again, any number of rollback attempts. Every restore it ever performs is
     justified, and none ever misses a final snapshot. A run that finishes has restored
     every transfer, and a run without trouble on a short log finishes in nine attempts.
     */
    method Execute(preSync: bool, attempts: nat, rollbacks: nat) returns (finished: bool)
      requires Valid() && Start !in state.acts && !reportedMissing
      modifies this`state, this`reportedMissing, this`trouble
      ensures Sound(state, transfers) && Justified(state.acts, transfers)
      ensures !reportedMissing
      ensures finished ==> Compatible() && forall t :: t in transfers ==> Restored(state, t)
      ensures finished && transfers != [] ==> SourceStopped in state.log
      ensures trouble == old(trouble) && old(state.helpers) == map[] && |state.log| <= 500 && Compatible() && attempts >= 9 ==> finished
    {
      hide Justified, FreshIds, TakenFor, StartedStopped, TakenStopped, LatestFinal, Visible, Keys, DistinctKeys, ScheduledSteps, Restored, Ready, Reaches;
      var steps := ScheduledSteps(preSync, mode);
      AtMostNine(preSync, mode);
      var next, used := 0, 0;
      while next < |steps| && used < attempts
        invariant Valid() && Start !in state.acts && !reportedMissing && next <= |steps| && used <= attempts
        invariant old(state.log) <= state.log && old(trouble) <= trouble
        invariant forall step :: step in steps[..next] ==> Reaches(step)
        invariant trouble == old(trouble) && old(state.helpers) == map[] ==> state.helpers == map[]
        invariant trouble == old(trouble) && old(state.helpers) == map[] && |state.log| <= PAGE && Compatible() ==> used == next
      {
        label before:
        if steps[next] == Restore {
          RestoresAfterTheChecks(preSync, next);
        }
        if Compatible() && |state.log| <= PAGE {
          ReadyInTurn(preSync, next);
        }
        var outcome := Handle(steps[next]);
        forall step | step in steps[..next]
          ensures Reaches(step)
        {
          ReachedStays@before(step);
        }
        if outcome.Done? {
          assert steps[..next + 1] == steps[..next] + [steps[next]];
          next := next + 1;
        }
        used := used + 1;
      }
      finished := next == |steps|;
      if finished {
        assert steps[..next] == steps;
        StepsAreInPlace(preSync, mode);
      }
      for i := 0 to rollbacks
        invariant Valid() && !reportedMissing && old(trouble) <= trouble
        invariant finished ==> Reaches(Preflight) && Reaches(Quiesce) && Reaches(Restore)
        invariant trouble == old(trouble) && old(state.helpers) == map[] && |state.log| <= PAGE && Compatible() && attempts >= 9 ==> finished
      {
        label before:
        var outcome := HandleRollback();
        if finished {
          ReachedStays@before(Preflight);
          ReachedStays@before(Quiesce);
          ReachedStays@before(Restore);
        }
      }
      ReachedMeans(finished);
    }

    lemma ReachedMeans(finished: bool)
      requires finished ==> Reaches(Preflight) && Reaches(Quiesce) && Reaches(Restore)
      ensures finished ==> Compatible() && (transfers != [] ==> SourceStopped in state.log) && forall t :: t in transfers ==> Restored(state, t)
    {
    }
  }

  lemma AtMostNine(preSync: bool, mode: VolumeMode)
    ensures |ScheduledSteps(preSync, mode)| <= 9
  {
  }

  lemma RestoredStays(before: State, after: State, t: Transfer)
    requires Restored(before, t) && before.acts <= after.acts && before.log <= after.log
    ensures Restored(after, t)
  {
    assert forall a :: a in before.acts ==> a in after.acts;
    assert forall e :: e in before.log ==> e in after.log;
    var id :| RestoreJob(t.claim, id) in before.acts && Snapshot(KeyOf(t), id, true) in before.log;
    assert RestoreJob(t.claim, id) in after.acts && Snapshot(KeyOf(t), id, true) in after.log;
  }

  /** Every listed snapshot was taken in the final phase, for its transfer, after the stop. */
  ghost predicate AllTaken(acts: seq<Act>, transfers: seq<Transfer>, snapshots: map<Key, nat>) {
    forall key | key in snapshots :: TakenFor(acts, transfers, key, snapshots[key])
  }

  lemma TakenOne(acts: seq<Act>, transfers: seq<Transfer>, snapshots: map<Key, nat>, key: Key)
    requires AllTaken(acts, transfers, snapshots) && key in snapshots
    ensures TakenFor(acts, transfers, key, snapshots[key])
  {
  }

  lemma AllTakenLasts(before: seq<Act>, after: seq<Act>, transfers: seq<Transfer>, snapshots: map<Key, nat>)
    requires AllTaken(before, transfers, snapshots) && before <= after
    ensures AllTaken(after, transfers, snapshots)
  {
    forall key | key in snapshots
      ensures TakenFor(after, transfers, key, snapshots[key])
    {
      TakenForLasts(before, after, transfers, key, snapshots[key]);
    }
  }

  lemma RecordedSnapshotsAreTaken(s: State, transfers: seq<Transfer>)
    requires Sound(s, transfers)
    ensures AllTaken(s.acts, transfers, LatestFinal(Visible(s.log)))
  {
    forall key | key in LatestFinal(Visible(s.log))
      ensures TakenFor(s.acts, transfers, key, LatestFinal(Visible(s.log))[key])
    {
      LatestFinalIsRecorded(Visible(s.log), key);
      assert Snapshot(key, LatestFinal(Visible(s.log))[key], true) in s.log;
    }
  }

  lemma TakenForLasts(before: seq<Act>, after: seq<Act>, transfers: seq<Transfer>, key: Key, id: nat)
    requires before <= after && TakenFor(before, transfers, key, id)
    ensures TakenFor(after, transfers, key, id)
    decreases |after|
  {
  }

  ghost predicate Recorded(log: seq<Event>, key: Key, final: bool) {
    exists id :: Snapshot(key, id, final) in log
  }

  /** Its claim was restored from a final snapshot the log records for it. */
  ghost predicate Restored(s: State, t: Transfer) {
    exists id :: RestoreJob(t.claim, id) in s.acts && Snapshot(KeyOf(t), id, true) in s.log
  }

  lemma RecordedGrows(log: seq<Event>, more: seq<Event>, key: Key, final: bool)
    requires Recorded(log, key, final) && log <= more
    ensures Recorded(more, key, final)
  {
  }

  lemma AllRecordedIsComplete(s: State, transfers: seq<Transfer>)
    requires Sound(s, transfers) && DistinctKeys(transfers)
    requires |s.log| <= PAGE || transfers == []
    requires forall t :: t in transfers ==> Recorded(s.log, KeyOf(t), true)
    ensures LatestFinal(Visible(s.log)).Keys == Keys(transfers)
  {
    RecordedKeysAreTransferKeys(s, transfers);
    forall t | t in transfers
      ensures KeyOf(t) in LatestFinal(Visible(s.log))
    {
      LatestFinalIsRecorded(Visible(s.log), KeyOf(t));
    }
  }

  ghost predicate RecordedUpTo(log: seq<Event>, transfers: seq<Transfer>, n: nat, final: bool) {
    n <= |transfers| && forall j :: 0 <= j < n ==> Recorded(log, KeyOf(transfers[j]), final)
  }

  lemma RecordedUpToGrows(log: seq<Event>, more: seq<Event>, transfers: seq<Transfer>, n: nat, final: bool)
    requires RecordedUpTo(log, transfers, n, final) && log <= more
    ensures RecordedUpTo(more, transfers, n, final)
  {
  }

  lemma VisibleIsRecorded(log: seq<Event>, more: seq<Event>, key: Key, final: bool)
    requires log <= more
    requires exists e :: e in Visible(log) && e.Snapshot? && e.final == final && e.key == key
    ensures Recorded(more, key, final)
  {
  }

  ghost predicate RestoredUpTo(acts: seq<Act>, transfers: seq<Transfer>, snapshots: map<Key, nat>, n: nat) {
    && n <= |transfers|
    && forall j :: 0 <= j < n ==> KeyOf(transfers[j]) in snapshots && RestoreJob(transfers[j].claim, snapshots[KeyOf(transfers[j])]) in acts
  }

  lemma NothingRestored(acts: seq<Act>, transfers: seq<Transfer>, snapshots: map<Key, nat>)
    ensures RestoredUpTo(acts, transfers, snapshots, 0)
  {
  }

  lemma OneMoreRestored(before: seq<Act>, after: seq<Act>, transfers: seq<Transfer>, snapshots: map<Key, nat>, i: nat)
    requires RestoredUpTo(before, transfers, snapshots, i) && before <= after && i < |transfers|
    requires KeyOf(transfers[i]) in snapshots && RestoreJob(transfers[i].claim, snapshots[KeyOf(transfers[i])]) in after
    ensures RestoredUpTo(after, transfers, snapshots, i + 1)
  {
  }

  lemma AllRestored(log: seq<Event>, acts: seq<Act>, s: State, transfers: seq<Transfer>, snapshots: map<Key, nat>)
    requires log <= s.log && acts <= s.acts && snapshots == LatestFinal(Visible(log))
    requires RestoredUpTo(acts, transfers, snapshots, |transfers|)
    ensures forall t :: t in transfers ==> Restored(s, t)
  {
    assert forall a :: a in acts ==> a in s.acts;
    assert forall e :: e in Visible(log) ==> e in s.log;
    forall t | t in transfers
      ensures Restored(s, t)
    {
      var j :| 0 <= j < |transfers| && transfers[j] == t;
      LatestFinalIsRecorded(Visible(log), KeyOf(t));
    }
  }
}
