/**
 Renaming and dropping node labels in place (internal/transform/rules.go:293-312).

 rewriteLabelMap deletes from and inserts into the map it ranges over. The Go
 language specification leaves the order open and says that an entry created
 during the loop "may be produced or skipped"; an entry removed before it is
 reached is not produced. A run of the loop is therefore a list of visited keys.
 */
module NodeLabels {
  type Label = string
  type Value = string
  type Labels = map<Label, Value>

  datatype Action = Map | Drop | Other

  datatype LabelMapping = LabelMapping(source: Label, target: Label, action: Action)

  datatype Outcome = Keep | Dropped | MapTo(target: Label)

  /** What the first mapping with this source says; a key without one is kept. */
  function LabelTarget(key: Label, values: seq<LabelMapping>): Outcome {
    if values == [] then Keep
    else if values[0].source == key then
      match values[0].action
      case Map => MapTo(values[0].target)
      case Drop => Dropped
      case Other => Keep
    else LabelTarget(key, values[1..])
  }

  /** The profile validation of node labels (internal/domain/mapping/model.go:145-173). */
  ghost predicate Validated(values: seq<LabelMapping>) {
    && (forall i, j :: 0 <= i < j < |values| ==> values[i].source != values[j].source)
    && (forall i, j :: 0 <= i < j < |values| && values[i].action == Map && values[j].action == Map ==> values[i].target != values[j].target)
    && (forall i :: 0 <= i < |values| ==> values[i].action != Other)
  }

  /** Two different labels are never mapped to the same one. */
  ghost predicate DistinctTargets(values: seq<LabelMapping>) {
    forall j, k :: LabelTarget(j, values).MapTo? && LabelTarget(j, values) == LabelTarget(k, values) ==> j == k
  }

  lemma {:induction false} TargetHasAMapping(key: Label, values: seq<LabelMapping>) returns (i: nat)
    requires LabelTarget(key, values).MapTo?
    ensures i < |values| && values[i] == LabelMapping(key, LabelTarget(key, values).target, Map)
  {
    if values[0].source == key {
      i := 0;
    } else {
      i := TargetHasAMapping(key, values[1..]);
      i := i + 1;
    }
  }

  lemma ValidatedHasDistinctTargets(values: seq<LabelMapping>)
    requires Validated(values)
    ensures DistinctTargets(values)
  {
    forall j, k | LabelTarget(j, values).MapTo? && LabelTarget(j, values) == LabelTarget(k, values)
      ensures j == k
    {
      var a := TargetHasAMapping(j, values);
      var b := TargetHasAMapping(k, values);
    }
  }

  // ---------------------------------------------------------------- the loop

  /** must: entries still to be produced. may: entries created by the loop, produced or not. */
  datatype Loop = Loop(labels: Labels, must: set<Label>, may: set<Label>)

  function Start(labels: Labels): Loop { Loop(labels, labels.Keys, {}) }

  function Delete(loop: Loop, key: Label): Loop {
    Loop(loop.labels - {key}, loop.must - {key}, loop.may - {key})
  }

  /** Assigning an existing entry overwrites it; otherwise it creates one. */
  function Assign(loop: Loop, key: Label, value: Value): Loop {
    Loop(loop.labels[key := value], loop.must, if key in loop.labels then loop.may else loop.may + {key})
  }

  /** One turn of the loop for key. */
  function Visit(loop: Loop, key: Label, values: seq<LabelMapping>): Loop
    requires key in loop.labels
  {
    match LabelTarget(key, values)
    case Keep => Loop(loop.labels, loop.must - {key}, loop.may - {key})
    case Dropped => Delete(loop, key)
    case MapTo(target) => Assign(Delete(loop, key), target, loop.labels[key])
  }

  ghost predicate Legal(labels: Labels, visits: seq<Label>, values: seq<LabelMapping>)
    decreases |visits|, 0
  {
    visits == [] ||
    (var before := visits[..|visits| - 1];
     var key := visits[|visits| - 1];
     && Legal(labels, before, values)
     && key in After(labels, before, values).labels
     && (key in After(labels, before, values).must || key in After(labels, before, values).may))
  }

  ghost function After(labels: Labels, visits: seq<Label>, values: seq<LabelMapping>): Loop
    requires Legal(labels, visits, values)
    decreases |visits|, 1
  {
    if visits == [] then Start(labels)
    else Visit(After(labels, visits[..|visits| - 1], values), visits[|visits| - 1], values)
  }

  /** The loop may end here: every entry that had to be produced was. */
  ghost predicate Complete(labels: Labels, visits: seq<Label>, values: seq<LabelMapping>) {
    Legal(labels, visits, values) && After(labels, visits, values).must == {}
  }

  // ---------------------------------------------------------------- one simultaneous renaming

  ghost predicate HitBy(key: Label, done: set<Label>, values: seq<LabelMapping>) {
    exists k :: k in done && LabelTarget(k, values) == MapTo(key)
  }

  function Targets(done: set<Label>, values: seq<LabelMapping>): set<Label> {
    set k | k in done && LabelTarget(k, values).MapTo? :: LabelTarget(k, values).target
  }

  ghost predicate Stays(key: Label, labels: Labels, done: set<Label>, values: seq<LabelMapping>) {
    key in labels && (key in done ==> LabelTarget(key, values) == Keep)
  }

  ghost function ValueAt(key: Label, labels: Labels, done: set<Label>, values: seq<LabelMapping>): Value
    requires done <= labels.Keys
    requires HitBy(key, done, values) || Stays(key, labels, done, values)
  {
    if HitBy(key, done, values) then
      var k :| k in done && LabelTarget(k, values) == MapTo(key);
      labels[k]
    else labels[key]
  }

  /**
   The labels when exactly those in done are renamed, all at once: a renamed label
   replaces an unmapped one of the same name.
   */
  ghost function Renaming(labels: Labels, done: set<Label>, values: seq<LabelMapping>): Labels
    requires done <= labels.Keys
  {
    map key | key in labels.Keys + Targets(done, values) && (HitBy(key, done, values) || Stays(key, labels, done, values))
      :: ValueAt(key, labels, done, values)
  }

  ghost function Renamed(labels: Labels, values: seq<LabelMapping>): Labels {
    Renaming(labels, labels.Keys, values)
  }

  lemma RenamingDomain(labels: Labels, done: set<Label>, values: seq<LabelMapping>, key: Label)
    requires done <= labels.Keys
    ensures key in Renaming(labels, done, values) <==> HitBy(key, done, values) || Stays(key, labels, done, values)
    ensures !HitBy(key, done, values) && Stays(key, labels, done, values) ==> Renaming(labels, done, values)[key] == labels[key]
  {
  }

  lemma RenamingMoves(labels: Labels, done: set<Label>, values: seq<LabelMapping>, key: Label)
    requires done <= labels.Keys && DistinctTargets(values)
    requires key in done && LabelTarget(key, values).MapTo?
    ensures LabelTarget(key, values).target in Renaming(labels, done, values)
    ensures Renaming(labels, done, values)[LabelTarget(key, values).target] == labels[key]
  {
  }

  // ---------------------------------------------------------------- every order, if no target is a source

  /** No present label is mapped onto a different label that has a mapping of its own. */
  ghost predicate NoChain(labels: Labels, values: seq<LabelMapping>) {
    forall k :: k in labels ==> LinkFree(k, values)
  }

  ghost predicate LinkFree(key: Label, values: seq<LabelMapping>) {
    var outcome := LabelTarget(key, values);
    outcome.MapTo? && outcome.target != key ==> LabelTarget(outcome.target, values) == Keep
  }

  /** The loop has renamed exactly the labels that need no further visit. */
  ghost predicate HalfWay(labels: Labels, loop: Loop, values: seq<LabelMapping>) {
    && loop.must <= labels.Keys
    && loop.labels == Renaming(labels, labels.Keys - loop.must, values)
    && loop.must !! loop.may
    && (forall key :: key in loop.may ==> LabelTarget(key, values) in {Keep, MapTo(key)})
  }

  lemma VisitKeepsHalfWay(labels: Labels, loop: Loop, key: Label, values: seq<LabelMapping>)
    requires DistinctTargets(values) && NoChain(labels, values)
    requires HalfWay(labels, loop, values)
    requires key in loop.labels && (key in loop.must || key in loop.may)
    ensures HalfWay(labels, Visit(loop, key, values), values)
  {
    hide Renaming, DistinctTargets, NoChain;
    if key in loop.must {
      VisitRenamesOne(labels, loop, key, values);
      VisitCreatesSettledEntries(labels, loop, key, values);
    } else {
      assert Visit(loop, key, values).labels == loop.labels;
      assert Visit(loop, key, values).must == loop.must;
    }
  }

  lemma NobodyMapsOntoAnActiveLabel(labels: Labels, done: set<Label>, key: Label, values: seq<LabelMapping>)
    requires NoChain(labels, values) && done <= labels.Keys && key !in done
    requires LabelTarget(key, values) != Keep
    ensures !HitBy(key, done, values)
  {
  }

  lemma VisitCreatesSettledEntries(labels: Labels, loop: Loop, key: Label, values: seq<LabelMapping>)
    requires NoChain(labels, values) && HalfWay(labels, loop, values)
    requires key in loop.labels && key in loop.must
    ensures var next := Visit(loop, key, values);
            && next.must == loop.must - {key} && next.must !! next.may
            && forall k :: k in next.may ==> LabelTarget(k, values) in {Keep, MapTo(k)}
  {
    hide Renaming, NoChain;
    assert LinkFree(key, values) by { ChainFree(labels, key, values); }
    MustIsPresent(labels, loop, values);
  }

  lemma ChainFree(labels: Labels, key: Label, values: seq<LabelMapping>)
    requires NoChain(labels, values) && key in labels
    ensures LinkFree(key, values)
  {
  }

  /** An entry that is still due has not been touched, unless another label was mapped onto it. */
  lemma MustIsPresent(labels: Labels, loop: Loop, values: seq<LabelMapping>)
    requires HalfWay(labels, loop, values)
    ensures loop.must <= loop.labels.Keys
  {
  }

  /** Renaming one more label moves its value and nothing else. */
  lemma RenamingOneMore(labels: Labels, done: set<Label>, key: Label, values: seq<LabelMapping>, k: Label)
    requires DistinctTargets(values) && NoChain(labels, values)
    requires done <= labels.Keys && key in labels && key !in done
    ensures var before, after, outcome := Renaming(labels, done, values), Renaming(labels, done + {key}, values), LabelTarget(key, values);
            && key in before
            && (outcome == MapTo(k) ==> k in after && after[k] == before[key])
            && (outcome != MapTo(k) && outcome != Keep && k == key ==> k !in after)
            && (outcome != MapTo(k) && (k != key || outcome == Keep) ==>
                  (k in after <==> k in before) && (k in after ==> after[k] == before[k]))
  {
    hide Renaming, ValueAt, DistinctTargets, NoChain;
    RenamingDomain(labels, done, values, key);
    RenamingDomain(labels, done, values, k);
    RenamingDomain(labels, done + {key}, values, k);
    if LabelTarget(key, values) != Keep {
      NobodyMapsOntoAnActiveLabel(labels, done, key, values);
    }
    if LabelTarget(key, values) == MapTo(k) {
      RenamingMoves(labels, done + {key}, values, key);
    } else if HitBy(k, done, values) {
      var j :| j in done && LabelTarget(j, values) == MapTo(k);
      RenamingMoves(labels, done, values, j);
      RenamingMoves(labels, done + {key}, values, j);
    } else {
      assert !HitBy(k, done + {key}, values);
    }
  }

  lemma VisitRenamesOne(labels: Labels, loop: Loop, key: Label, values: seq<LabelMapping>)
    requires DistinctTargets(values) && NoChain(labels, values)
    requires HalfWay(labels, loop, values)
    requires key in loop.labels && key in loop.must
    ensures Visit(loop, key, values).labels == Renaming(labels, labels.Keys - (loop.must - {key}), values)
  {
    hide Renaming, DistinctTargets, NoChain;
    var done := labels.Keys - loop.must;
    assert labels.Keys - (loop.must - {key}) == done + {key};
    var after, renaming := Visit(loop, key, values).labels, Renaming(labels, done + {key}, values);
    forall k
      ensures k in after <==> k in renaming
      ensures k in after ==> after[k] == renaming[k]
    {
      RenamingOneMore(labels, done, key, values, k);
    }
    assert after == renaming;
  }

  lemma {:induction false} EveryPrefixIsHalfWay(labels: Labels, visits: seq<Label>, values: seq<LabelMapping>)
    requires DistinctTargets(values) && NoChain(labels, values)
    requires Legal(labels, visits, values)
    ensures HalfWay(labels, After(labels, visits, values), values)
    decreases |visits|
  {
    if visits == [] {
      StartIsHalfWay(labels, values);
    } else {
      EveryPrefixIsHalfWay(labels, visits[..|visits| - 1], values);
      VisitKeepsHalfWay(labels, After(labels, visits[..|visits| - 1], values), visits[|visits| - 1], values);
    }
  }

  lemma StartIsHalfWay(labels: Labels, values: seq<LabelMapping>)
    ensures HalfWay(labels, Start(labels), values)
  {
  }

  // ---------------------------------------------------------------- and only then

  /** Once key is gone and no entry still due maps onto it, visiting only those never brings it back. */
  lemma {:induction false} CanFinishWithout(labels: Labels, visits: seq<Label>, values: seq<LabelMapping>, key: Label)
    returns (all: seq<Label>)
    requires Legal(labels, visits, values)
    requires var loop := After(labels, visits, values);
             && loop.must <= loop.labels.Keys && key !in loop.labels
             && forall k :: k in loop.must ==> LabelTarget(k, values) != MapTo(key)
    ensures Complete(labels, all, values) && key !in After(labels, all, values).labels
    decreases |After(labels, visits, values).must|
  {
    var loop := After(labels, visits, values);
    if loop.must == {} {
      all := visits;
    } else {
      var k :| k in loop.must;
      var next := visits + [k];
      assert next[..|next| - 1] == visits;
      assert Visit(loop, k, values).must == loop.must - {k};
      all := CanFinishWithout(labels, next, values, key);
    }
  }

  lemma AChainCanLoseItsTarget(labels: Labels, values: seq<LabelMapping>, key: Label) returns (visits: seq<Label>)
    requires DistinctTargets(values)
    requires key in labels && !LinkFree(key, values)
    ensures Complete(labels, visits, values)
    ensures After(labels, visits, values).labels != Renamed(labels, values)
  {
    var target := LabelTarget(key, values).target;
    var one, two := [key], [key, target];
    assert one[..|one| - 1] == [] && two[..|two| - 1] == one;
    assert Legal(labels, [], values) && After(labels, [], values) == Start(labels);
    assert Legal(labels, one, values);
    var first := After(labels, one, values);
    assert first == Visit(Start(labels), key, values);
    assert target in first.labels && (target in first.must || target in first.may);
    assert After(labels, two, values) == Visit(first, target, values);
    visits := CanFinishWithout(labels, two, values, target);
    RenamingMoves(labels, labels.Keys, values, key);
  }

  /**
   Every legal order of the loop gives the one simultaneous renaming exactly when no
   present label is mapped onto a label that is itself a source. Profile validation
   does not ask for that, so a validated profile can give order-dependent labels.
   */
  lemma OrderDoesNotMatterIffNoChain(labels: Labels, values: seq<LabelMapping>)
    requires DistinctTargets(values)
    ensures (forall visits :: Complete(labels, visits, values) ==> After(labels, visits, values).labels == Renamed(labels, values))
            <==> NoChain(labels, values)
  {
    if NoChain(labels, values) {
      forall visits | Complete(labels, visits, values)
        ensures After(labels, visits, values).labels == Renamed(labels, values)
      {
        EveryPrefixIsHalfWay(labels, visits, values);
        assert labels.Keys - {} == labels.Keys;
      }
    } else {
      var key :| key in labels && !LinkFree(key, values);
      var visits := AChainCanLoseItsTarget(labels, values, key);
    }
  }

  /** A validated profile with a chain: the same label is renamed once or lost. */
  lemma ValidatedProfilesMayChain() returns (values: seq<LabelMapping>, labels: Labels, visits: seq<Label>)
    ensures Validated(values)
    ensures Complete(labels, visits, values) && After(labels, visits, values).labels != Renamed(labels, values)
  {
    values := [LabelMapping("disk", "tier", Map), LabelMapping("tier", "", Drop)];
    labels := map["disk" := "ssd"];
    assert "disk" != "tier";
    ValidatedHasDistinctTargets(values);
    assert LabelTarget("disk", values) == MapTo("tier");
    assert LabelTarget("tier", values) == LabelTarget("tier", values[1..]) == Dropped;
    assert !LinkFree("disk", values);
    visits := AChainCanLoseItsTarget(labels, values, "disk");
  }

  // ---------------------------------------------------------------- the loop itself

  lemma OneMoreVisit(labels: Labels, visits: seq<Label>, key: Label, values: seq<LabelMapping>)
    requires Legal(labels, visits, values)
    requires var loop := After(labels, visits, values); key in loop.labels && (key in loop.must || key in loop.may)
    ensures Legal(labels, visits + [key], values)
    ensures After(labels, visits + [key], values) == Visit(After(labels, visits, values), key, values)
  {
  }

  lemma VisitNothing(labels: Labels, values: seq<LabelMapping>)
    ensures Legal(labels, [], values) && After(labels, [], values) == Start(labels)
  {
  }

  /** A label map shared by reference, as every Go map is. */
  class LabelMap {
    var entries: Labels

    constructor (entries: Labels)
      ensures this.entries == entries
    {
      this.entries := entries;
    }

    /** The body of the loop for one entry. */
    method Turn(key: Label, must: set<Label>, may: set<Label>, values: seq<LabelMapping>) returns (must': set<Label>, may': set<Label>)
      requires key in entries
      modifies this
      ensures Loop(entries, must', may') == Visit(Loop(old(entries), must, may), key, values)
      ensures must' == must - {key}
      ensures must <= old(entries).Keys && may <= old(entries).Keys ==> must' <= entries.Keys && may' <= entries.Keys
    {
      must', may' := must - {key}, may - {key};
      match LabelTarget(key, values) {
        case Keep =>
        case Dropped => entries := entries - {key};
        case MapTo(target) =>
          var raw := entries[key];
          entries := entries - {key};
          if target !in entries {
            may' := may' + {target};
          }
          entries := entries[target := raw];
      }
    }

    /** optional bounds how many entries created by the loop it happens to produce. */
    method Rewrite(values: seq<LabelMapping>, optional: nat) returns (ghost visits: seq<Label>)
      modifies this
      ensures Complete(old(entries), visits, values)
      ensures entries == After(old(entries), visits, values).labels
      ensures DistinctTargets(values) && NoChain(old(entries), values) ==> entries == Renamed(old(entries), values)
    {
      hide Legal, After, DistinctTargets, NoChain, Renamed, Visit;
      ghost var original := entries;
      VisitNothing(original, values);
      var must, may, left := entries.Keys, {}, optional;
      visits := [];
      while must != {} || (may != {} && left > 0)
        invariant Legal(original, visits, values)
        invariant After(original, visits, values) == Loop(entries, must, may)
        invariant must <= entries.Keys && may <= entries.Keys
        decreases |must| + left
      {
        var key :| key in must + may && (key in must || left > 0);
        if key !in must {
          left := left - 1;
        }
        must, may := Turn(key, must, may, values);
        OneMoreVisit(original, visits, key, values);
        visits := visits + [key];
      }
      if DistinctTargets(values) && NoChain(original, values) {
        OrderDoesNotMatterIffNoChain(original, values);
      }
    }
  }
}
