/**
 Reading the whole event log page by page (allEvents, internal/migration/evidence_service.go:845-859)
 while other workers append to it, against the store's contract
 (internal/repository/postgres/migration.go:357-387).
 */
module EventPages {
  import opened Wrappers

  datatype Event = Event(id: int, message: string)

  const PAGE := 500

  /** What a caller sees of a log of which it reads one page. */
  function FirstPage<T>(log: seq<T>): seq<T> {
    if |log| <= PAGE then log else log[..PAGE]
  }

  ghost predicate Ordered(events: seq<Event>) {
    && (forall i :: 0 <= i < |events| ==> events[i].id > 0)
    && (forall i, j :: 0 <= i < j < |events| ==> events[i].id < events[j].id)
  }

  /** The events with a larger ID, in the order of the log. */
  function After(log: seq<Event>, id: int): seq<Event> {
    if log == [] then []
    else (if log[0].id > id then [log[0]] else []) + After(log[1..], id)
  }

  /** An unusable limit is replaced by 200. */
  function EffectiveLimit(limit: int): nat {
    if limit <= 0 || limit > 500 then 200 else limit
  }

  function Page(log: seq<Event>, id: int, limit: int): seq<Event> {
    var rest := After(log, id);
    if |rest| <= EffectiveLimit(limit) then rest else rest[..EffectiveLimit(limit)]
  }

  lemma {:induction false} EverythingIsAfter(log: seq<Event>, id: int)
    requires forall i :: 0 <= i < |log| ==> log[i].id > id
    ensures After(log, id) == log
  {
    if log != [] {
      EverythingIsAfter(log[1..], id);
    }
  }

  lemma {:induction false} AfterAnEvent(log: seq<Event>, k: nat, id: int)
    requires Ordered(log) && k <= |log|
    requires id == if k == 0 then 0 else log[k - 1].id
    ensures After(log, id) == log[k..]
  {
    if k == 0 {
      EverythingIsAfter(log, id);
    } else if k == 1 {
      EverythingIsAfter(log[1..], id);
    } else {
      AfterAnEvent(log[1..], k - 1, id);
    }
  }

  class EventStore {
    var log: seq<Event>
    /** What others append while we read. */
    var pending: seq<Event>
    ghost var failures: nat  // queries that failed

    ghost predicate Valid()
      reads this
    {
      Ordered(log + pending)
    }

    constructor (log: seq<Event>, pending: seq<Event>)
      requires Ordered(log + pending)
      ensures Valid() && this.log == log && this.pending == pending
    {
      this.log, this.pending := log, pending;
    }

    /** Others may append any number of events just before the query runs. */
    method ListEvents(id: int, limit: int) returns (page: Result<seq<Event>, string>)
      requires Valid()
      modifies this
      ensures Valid() && log + pending == old(log + pending) && old(log) <= log
      ensures page.Success? ==> page.value == Page(log, id, limit)
      ensures failures == old(failures) + if page.Success? then 0 else 1
    {
      var arrived :| 0 <= arrived <= |pending|;
      log, pending := log + pending[..arrived], pending[arrived..];
      assert log + pending == old(log + pending);
      var reachable: bool := *;
      page := if reachable then Success(Page(log, id, limit)) else Failure("unreachable");
      failures := failures + if reachable then 0 else 1;
    }
  }

  lemma NextPage(log: seq<Event>, values: seq<Event>, after: int)
    requires Ordered(log) && values <= log
    requires after == if values == [] then 0 else values[|values| - 1].id
    ensures var page := Page(log, after, PAGE);
            values + page <= log && |page| <= PAGE && (|page| < PAGE ==> values + page == log)
  {
    AfterAnEvent(log, |values|, after);
  }

  /** A success is a prefix of the final log that holds everything logged before the call. */
  method AllEvents(store: EventStore) returns (events: Result<seq<Event>, string>)
    requires store.Valid()
    modifies store
    ensures store.Valid() && store.log + store.pending == old(store.log + store.pending)
    ensures events.Success? ==> old(store.log) <= events.value && events.value <= store.log
    ensures events.Success? <==> store.failures == old(store.failures)
  {
    hide Page, Ordered;
    ghost var all := store.log + store.pending;
    var values: seq<Event>, after := [], 0;
    while true
      invariant store.Valid() && store.log + store.pending == all && store.failures == old(store.failures)
      invariant old(store.log) <= store.log && values <= store.log
      invariant after == if values == [] then 0 else values[|values| - 1].id
      decreases |all| - |values|
    {
      var batch := store.ListEvents(after, PAGE);
      if batch.Failure? {
        return Failure(batch.error);
      }
      LogIsOrdered(store.log, store.pending);
      NextPage(store.log, values, after);
      values := values + batch.value;
      if |batch.value| < PAGE {
        return Success(values);
      }
      after := batch.value[|batch.value| - 1].id;
    }
  }

  lemma LogIsOrdered(log: seq<Event>, pending: seq<Event>)
    requires Ordered(log + pending)
    ensures Ordered(log)
  {
    assert forall i :: 0 <= i < |log| ==> (log + pending)[i] == log[i];
  }

  /** One page from the start, as the Compose executor reads it, is the log exactly up to 500 events. */
  lemma OnePageIsTheLogIffShort(log: seq<Event>)
    requires Ordered(log)
    ensures Page(log, 0, PAGE) == FirstPage(log)
    ensures Page(log, 0, PAGE) == log <==> |log| <= PAGE
  {
    AfterAnEvent(log, 0, 0);
  }
}
