/**
 Quiesce and rollback of Kubernetes workloads (internal/migration/velero_executor.go:359-391,
 424-441, 552-560) over scaleWorkloads (internal/adapter/kubernetes/execution.go:461-534).
 Each workload is scaled by a separate request; an attempt may stop after any of them.
 The snapshot store keeps the first count saved for a workload
 (internal/repository/postgres/migration_progress.go:113-129).
 */
module ReplicaQuiesce {
  import opened Wrappers

  datatype Kind = Deployment | StatefulSet

  type Workload = (Kind, string)

  type Replicas = map<Workload, int>

  datatype Scale = Scale(workload: Workload, replicas: int)

  /** The cluster after the given scale requests took effect, in order. */
  function Applied(cluster: Replicas, scales: seq<Scale>): Replicas {
    if scales == [] then cluster
    else
      var s := scales[|scales| - 1];
      Applied(cluster, scales[..|scales| - 1])[s.workload := s.replicas]
  }

  predicate Distinct(scales: seq<Scale>) {
    forall i, j | 0 <= i < j < |scales| :: scales[i].workload != scales[j].workload
  }

  predicate Among(scales: seq<Scale>, cluster: Replicas) {
    forall s | s in scales :: s.workload in cluster
  }

  lemma {:induction false} AppliedValue(cluster: Replicas, scales: seq<Scale>, w: Workload)
    requires Distinct(scales) && Among(scales, cluster)
    ensures Applied(cluster, scales).Keys == cluster.Keys
    ensures forall s | s in scales && s.workload == w :: Applied(cluster, scales)[w] == s.replicas
    ensures w in cluster && (forall s | s in scales :: s.workload != w) ==> Applied(cluster, scales)[w] == cluster[w]
    decreases |scales|
  {
    if scales != [] {
      var rest, last := scales[..|scales| - 1], scales[|scales| - 1];
      assert scales == rest + [last];
      AppliedValue(cluster, rest, w);
    }
  }

  // ---------------------------------------------------------------- the snapshot store

  /** The counts of a listing, with the entries already stored winning. */
  function KeepFirst(saved: Replicas, listed: Replicas): Replicas { listed + saved }

  /** A store that replaced earlier entries would do this instead. */
  function Overwrite(saved: Replicas, listed: Replicas): Replicas { saved + listed }

  function Restricted(cluster: Replicas, selected: set<Workload>): Replicas {
    map w | w in cluster && w in selected :: cluster[w]
  }

  /**
   What any mixture of partial quiesce and rollback attempts keeps: every workload
   has its original count or, if selected, zero; whatever was scaled is saved; and
   what is saved is original.
   */
  predicate Recoverable(original: Replicas, selected: set<Workload>, cluster: Replicas, saved: Replicas) {
    && cluster.Keys == original.Keys
    && (forall w | w in cluster :: cluster[w] == original[w] || (w in selected && cluster[w] == 0))
    && (forall w | w in saved :: w in selected && w in original && saved[w] == original[w])
    && (forall w | w in cluster && cluster[w] != original[w] :: w in saved)
  }

  lemma SavingKeepsRecoverable(original: Replicas, selected: set<Workload>, cluster: Replicas, saved: Replicas)
    requires Recoverable(original, selected, cluster, saved)
    ensures Recoverable(original, selected, cluster, KeepFirst(saved, Restricted(cluster, selected)))
  {
  }

  /** Requests that stop saved workloads, or restore saved counts, taken up to any point. */
  lemma ScalingKeepsRecoverable(original: Replicas, selected: set<Workload>, cluster: Replicas, saved: Replicas, scales: seq<Scale>)
    requires Recoverable(original, selected, cluster, saved)
    requires Distinct(scales)
    requires forall s | s in scales :: s.workload in saved && (s.replicas == 0 || s.replicas == saved[s.workload])
    ensures Recoverable(original, selected, Applied(cluster, scales), saved)
  {
  }

  /** Restoring every saved count brings every workload of the cluster back to its original count. */
  lemma RestoringSavedCountsRestoresAll(original: Replicas, selected: set<Workload>, cluster: Replicas, saved: Replicas, scales: seq<Scale>)
    requires Recoverable(original, selected, cluster, saved)
    requires IsListing(scales, saved)
    ensures Applied(cluster, scales) == original
  {
    var after := Applied(cluster, scales);
    forall w ensures after.Keys == cluster.Keys && (w in after ==> after[w] == original[w]) {
      AppliedValue(cluster, scales, w);
      if w in saved {
        assert Scale(w, saved[w]) in scales;
      }
    }
  }

  /** A listing of a table: one entry for each workload, with its count. */
  predicate IsListing(scales: seq<Scale>, table: Replicas) {
    && Distinct(scales)
    && (forall s | s in scales :: s.workload in table && s.replicas == table[s.workload])
    && (forall w | w in table :: Scale(w, table[w]) in scales)
  }

  /**
   Why the store must keep the first entry: after one finished quiesce, a retry that
   overwrote the saved counts would make rollback leave every selected workload at zero.
   */
  lemma OverwritingLosesEveryCount(original: Replicas, selected: set<Workload>, restore: seq<Scale>)
    requires selected <= original.Keys
    requires var stopped := map w | w in original :: if w in selected then 0 else original[w];
             var saved := Overwrite(Restricted(original, selected), Restricted(stopped, selected));
             IsListing(restore, saved)
    ensures var stopped := map w | w in original :: if w in selected then 0 else original[w];
            && Recoverable(original, selected, stopped, KeepFirst(Restricted(original, selected), Restricted(stopped, selected)))
            && forall w | w in selected :: w in Applied(stopped, restore) && Applied(stopped, restore)[w] == 0
  {
    var stopped := map w | w in original :: if w in selected then 0 else original[w];
    forall w | w in selected ensures w in Applied(stopped, restore) && Applied(stopped, restore)[w] == 0 {
      AppliedValue(stopped, restore, w);
      var saved := Overwrite(Restricted(original, selected), Restricted(stopped, selected));
      assert w in saved && saved[w] == 0;
      assert Scale(w, saved[w]) in restore;
    }
  }

  // ---------------------------------------------------------------- the handlers

  predicate NoneNegative(counts: Replicas) { forall w | w in counts :: counts[w] >= 0 }

  /** Each request is for a workload that is there, and for no negative count. */
  predicate Possible(scales: seq<Scale>, cluster: Replicas) { forall s | s in scales :: s.replicas >= 0 && s.workload in cluster }

  class Cluster {
    var replicas: Replicas
    ghost var failures: nat  // requests that failed, and attempts cut short

    method ListScalableWorkloads() returns (list: Option<seq<Scale>>)
      modifies this`failures
      ensures list.Some? ==> IsListing(list.value, replicas)
      ensures failures == old(failures) + if list.None? then 1 else 0
    {
      if * {
        failures := failures + 1;
        return None;
      }
      var scales := Enumerate(replicas);
      return Some(scales);
    }

    /** Scales one workload after another; whatever stops it, a prefix of the requests took effect. */
    method ScaleWorkloads(scales: seq<Scale>) returns (ok: bool)
      modifies this
      ensures exists k :: 0 <= k <= |scales| && Among(scales[..k], old(replicas)) && replicas == Applied(old(replicas), scales[..k])
      ensures ok ==> Among(scales, old(replicas)) && replicas == Applied(old(replicas), scales)
      ensures old(failures) <= failures && (!ok ==> old(failures) < failures || !Possible(scales, old(replicas)))
    {
      assert scales[..0] == [];
      for i := 0 to |scales|
        invariant Among(scales[..i], old(replicas)) && replicas == Applied(old(replicas), scales[..i])
        invariant replicas.Keys == old(replicas).Keys && failures == old(failures)
      {
        if scales[i].replicas < 0 || scales[i].workload !in replicas {
          return false;
        }
        if * {
          failures := failures + 1;
          return false;
        }
        assert scales[..i + 1] == scales[..i] + [scales[i]];
        assert scales[..i + 1][..i] == scales[..i];
        replicas := replicas[scales[i].workload := scales[i].replicas];
        if * {
          failures := failures + 1;
          return false;
        }
      }
      assert scales[..|scales|] == scales;
      ok := *;  // the wait for readiness may still fail
      failures := failures + if ok then 0 else 1;
    }
  }

  method Enumerate(table: Replicas) returns (scales: seq<Scale>)
    ensures IsListing(scales, table)
  {
    scales := [];
    var left := table.Keys;
    while left != {}
      invariant left <= table.Keys && Distinct(scales)
      invariant forall s | s in scales :: s.workload in table && s.workload !in left && s.replicas == table[s.workload]
      invariant forall w | w in table && w !in left :: Scale(w, table[w]) in scales
    {
      var w :| w in left;
      scales := scales + [Scale(w, table[w])];
      left := left - {w};
    }
  }

  /** What the selection loop has gathered from the part of the listing it has seen. */
  ghost predicate Collected(seen: seq<Scale>, selected: set<Workload>, snapshots: Replicas, stopped: seq<Scale>) {
    && Distinct(stopped)
    && (forall s | s in stopped :: s.replicas == 0)
    && (forall w :: w in snapshots <==> Scale(w, 0) in stopped)
    && (forall w | w in snapshots :: w in selected && Scale(w, snapshots[w]) in seen)
    && (forall s | s in seen && s.workload in selected :: s.workload in snapshots)
  }

  lemma CollectOne(seen: seq<Scale>, selected: set<Workload>, snapshots: Replicas, stopped: seq<Scale>, next: Scale)
    requires Collected(seen, selected, snapshots, stopped)
    requires Distinct(seen + [next]) && next.workload in selected
    ensures Collected(seen + [next], selected, snapshots[next.workload := next.replicas], stopped + [Scale(next.workload, 0)])
  {
    var all := seen + [next];
    forall j | 0 <= j < |seen| ensures seen[j].workload != next.workload {
      assert all[j] == seen[j] && all[|seen|] == next;
    }
    assert next.workload !in snapshots;
    assert forall w :: w in snapshots[next.workload := next.replicas] <==> Scale(w, 0) in stopped + [Scale(next.workload, 0)];
  }

  lemma SkipOne(seen: seq<Scale>, selected: set<Workload>, snapshots: Replicas, stopped: seq<Scale>, next: Scale)
    requires Collected(seen, selected, snapshots, stopped) && next.workload !in selected
    ensures Collected(seen + [next], selected, snapshots, stopped)
  {
  }

  lemma CollectedNone(selected: set<Workload>)
    ensures Collected([], selected, map[], [])
  {
  }

  lemma CollectedAll(listed: seq<Scale>, cluster: Replicas, selected: set<Workload>, snapshots: Replicas, stopped: seq<Scale>)
    requires IsListing(listed, cluster) && Collected(listed, selected, snapshots, stopped)
    ensures snapshots == Restricted(cluster, selected)
    ensures Distinct(stopped)
    ensures forall s | s in stopped :: s.workload in snapshots && s.replicas == 0
    ensures forall w | w in snapshots :: Scale(w, 0) in stopped
  {
  }

  class VeleroRun {
    const source: Cluster
    const hasVolumes: bool
    const manual: Option<set<Workload>>  // the hand-picked workloads, if resources were selected by hand
    var saved: Replicas
    ghost const original: Replicas

    constructor (source: Cluster, hasVolumes: bool, manual: Option<set<Workload>>)
      ensures this.source == source && this.hasVolumes == hasVolumes && this.manual == manual && Valid()
    {
      this.source, this.hasVolumes, this.manual, this.original := source, hasVolumes, manual, source.replicas;
      saved := map[];
    }

    ghost function Selected(): set<Workload> {
      if manual.Some? then manual.value else original.Keys
    }

    ghost predicate Valid()
      reads this, source
    {
      Recoverable(original, Selected(), source.replicas, saved)
    }

    /** One quiesce attempt. A failure or crash may leave any prefix of the scaling done. */
    method Quiesce() returns (ok: bool)
      requires Valid()
      modifies this, source
      ensures Valid()
      ensures ok && hasVolumes ==> forall w | w in source.replicas && w in Selected() :: source.replicas[w] == 0
      ensures !hasVolumes ==> source.replicas == old(source.replicas)
      ensures !ok ==> old(source.failures) < source.failures
    {
      if !hasVolumes {
        ok := *;
        source.failures := source.failures + if ok then 0 else 1;
        return;
      }
      var listed := source.ListScalableWorkloads();
      if listed.None? {
        return false;
      }
      var snapshots, stopped := SnapshotSelected(listed.value, source.replicas);
      if * {
        source.failures := source.failures + 1;
        return false;
      }
      SavingKeepsRecoverable(original, Selected(), source.replicas, saved);
      saved := KeepFirst(saved, snapshots);
      if * {
        source.failures := source.failures + 1;
        return false;
      }
      ok := Scaled(stopped);
    }

    /** The loop over the listing: a snapshot and a request to stop for every selected workload. */
    method SnapshotSelected(workloads: seq<Scale>, ghost cluster: Replicas) returns (snapshots: Replicas, stopped: seq<Scale>)
      requires IsListing(workloads, cluster) && cluster.Keys == original.Keys
      ensures snapshots == Restricted(cluster, Selected())
      ensures Distinct(stopped)
      ensures forall s | s in stopped :: s.workload in snapshots && s.replicas == 0
      ensures forall w | w in snapshots :: Scale(w, 0) in stopped
    {
      hide Collected;
      snapshots, stopped := map[], [];
      CollectedNone(Selected());
      for i := 0 to |workloads|
        invariant Collected(workloads[..i], Selected(), snapshots, stopped)
      {
        var w := workloads[i];
        assert workloads[..i + 1] == workloads[..i] + [w];
        assert Distinct(workloads[..i + 1]);
        if manual.None? || w.workload in manual.value {
          assert w.workload in Selected() by {
            assert w in workloads;
          }
          CollectOne(workloads[..i], Selected(), snapshots, stopped, w);
          snapshots := snapshots[w.workload := w.replicas];
          stopped := stopped + [Scale(w.workload, 0)];
        } else {
          SkipOne(workloads[..i], Selected(), snapshots, stopped, w);
        }
      }
      assert workloads[..|workloads|] == workloads;
      CollectedAll(workloads, cluster, Selected(), snapshots, stopped);
    }

    /** Runs scale requests on saved workloads only, to zero or to the saved count. */
    method Scaled(scales: seq<Scale>) returns (ok: bool)
      requires Valid() && Distinct(scales)
      requires forall s | s in scales :: s.workload in saved && (s.replicas == 0 || s.replicas == saved[s.workload])
      modifies source
      ensures Valid()
      ensures ok ==> source.replicas == Applied(old(source.replicas), scales)
      ensures ok ==> forall s | s in scales :: s.workload in source.replicas && source.replicas[s.workload] == s.replicas
      ensures old(source.failures) <= source.failures && (!ok ==> old(source.failures) < source.failures || !Possible(scales, old(source.replicas)))
    {
      ghost var before := source.replicas;
      ok := source.ScaleWorkloads(scales);
      ghost var k :| 0 <= k <= |scales| && source.replicas == Applied(before, scales[..k]);
      ScalingKeepsRecoverable(original, Selected(), before, saved, scales[..k]);
      if ok {
        forall s | s in scales ensures s.workload in source.replicas && source.replicas[s.workload] == s.replicas {
          AppliedValue(before, scales, s.workload);
        }
      }
    }

    /** One rollback attempt. When it reports success, every workload has its original count again. */
    method Rollback() returns (ok: bool)
      requires Valid()
      modifies source
      ensures Valid()
      ensures ok ==> source.replicas == original
      ensures NoneNegative(original) && source.failures == old(source.failures) ==> (ok <==> saved != map[] || !hasVolumes)
    {
      if saved == map[] {
        return !hasVolumes;
      }
      var restore := Enumerate(saved);
      ghost var before := source.replicas;
      ok := Scaled(restore);
      if ok {
        RestoringSavedCountsRestoresAll(original, Selected(), before, saved, restore);
      }
    }

    /** After the target was restored, its workloads get the saved counts under the target namespace. */
    method StartTarget(target: Cluster) returns (ok: bool)
      requires Valid() && target != source
      modifies target
      ensures Valid()
      ensures ok ==> forall w | w in saved :: w in target.replicas && target.replicas[w] == original[w]
      ensures NoneNegative(original) && saved.Keys <= old(target.replicas).Keys && target.failures == old(target.failures) ==> ok
    {
      if saved == map[] {
        return true;
      }
      var start := Enumerate(saved);
      ghost var before := target.replicas;
      ok := target.ScaleWorkloads(start);
      if ok {
        forall w | w in saved ensures w in target.replicas && target.replicas[w] == original[w] {
          assert Scale(w, saved[w]) in start;
          AppliedValue(before, start, w);
        }
      }
    }

    /** Any mixture of quiesce and rollback attempts, each possibly partial, stays recoverable. */
    method AnyAttempts()
      requires Valid()
      modifies this, source
      ensures Valid()
    {
      var attempts: nat :| true;
      while attempts > 0
        invariant Valid()
      {
        var ok;
        if * {
          ok := Quiesce();
        } else {
          ok := Rollback();
        }
        attempts := attempts - 1;
      }
    }
  }
}
