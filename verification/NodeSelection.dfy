/**
 Rewriting where a Pod may run (internal/transform/rules.go:172-211, 313-383), and
 what that does to the nodes the Kubernetes scheduler accepts.

 An Option is a field of the manifest that may be absent: the rewrite deletes a field
 when nothing is left in it.
 */
module NodeSelection {
  import opened Wrappers
  import opened NodeLabels

  datatype Operator = In | NotIn | Exists | DoesNotExist | Gt | Lt

  datatype Requirement = Requirement(key: Label, operator: Operator, operands: seq<Value>)

  datatype Term = Term(expressions: Option<seq<Requirement>>, fields: Option<seq<Requirement>>)

  datatype Required = Required(terms: Option<seq<Term>>)

  datatype Preferred = Preferred(weight: int, preference: Term)

  datatype NodeAffinity = NodeAffinity(required: Option<Required>, preferred: Option<seq<Preferred>>)

  /** others: podAffinity and podAntiAffinity, which the rewrite does not look into. */
  datatype Affinity = Affinity(node: Option<NodeAffinity>, others: map<string, string>)

  datatype Constraint = Constraint(topologyKey: Label, rest: string)

  datatype Placement = Placement(nodeSelector: Option<Labels>, affinity: Option<Affinity>, spread: Option<seq<Constraint>>)

  // ---------------------------------------------------------------- the rewrite, as a value

  function NewKey(key: Label, values: seq<LabelMapping>): Label {
    match LabelTarget(key, values)
    case MapTo(target) => target
    case _ => key
  }

  function RewrittenRequirements(requirements: seq<Requirement>, values: seq<LabelMapping>): seq<Requirement> {
    if requirements == [] then []
    else
      var head, tail := requirements[0], RewrittenRequirements(requirements[1..], values);
      if LabelTarget(head.key, values) == Dropped then tail else [head.(key := NewKey(head.key, values))] + tail
  }

  function RewrittenConstraints(constraints: seq<Constraint>, values: seq<LabelMapping>): seq<Constraint> {
    if constraints == [] then []
    else
      var head, tail := constraints[0], RewrittenConstraints(constraints[1..], values);
      if LabelTarget(head.topologyKey, values) == Dropped then tail
      else [head.(topologyKey := NewKey(head.topologyKey, values))] + tail
  }

  /** An emptied list is deleted from its parent. */
  function Kept<T>(list: seq<T>): Option<seq<T>> {
    if list == [] then None else Some(list)
  }

  function RewrittenField(field: Option<seq<Requirement>>, values: seq<LabelMapping>): Option<seq<Requirement>> {
    if field.None? then None else Kept(RewrittenRequirements(field.value, values))
  }

  function RewrittenTerm(term: Term, values: seq<LabelMapping>): Term {
    Term(RewrittenField(term.expressions, values), RewrittenField(term.fields, values))
  }

  predicate Survives(term: Term) { term.expressions.Some? || term.fields.Some? }

  function RewrittenTerms(terms: seq<Term>, values: seq<LabelMapping>): seq<Term> {
    if terms == [] then []
    else
      var head, tail := RewrittenTerm(terms[0], values), RewrittenTerms(terms[1..], values);
      if Survives(head) then [head] + tail else tail
  }

  function RewrittenPreferred(preferred: seq<Preferred>, values: seq<LabelMapping>): seq<Preferred> {
    if preferred == [] then []
    else
      var head, tail := RewrittenTerm(preferred[0].preference, values), RewrittenPreferred(preferred[1..], values);
      if Survives(head) then [Preferred(preferred[0].weight, head)] + tail else tail
  }

  function RewrittenRequired(required: Option<Required>, values: seq<LabelMapping>): Option<Required> {
    if required.None? || required.value.terms.None? then None
    else
      var terms := RewrittenTerms(required.value.terms.value, values);
      if terms == [] then None else Some(Required(Some(terms)))
  }

  function RewrittenNodeAffinity(node: Option<NodeAffinity>, values: seq<LabelMapping>): Option<NodeAffinity> {
    if node.None? then None
    else
      var required := RewrittenRequired(node.value.required, values);
      var preferred := if node.value.preferred.None? then None else Kept(RewrittenPreferred(node.value.preferred.value, values));
      if required.None? && preferred.None? then None else Some(NodeAffinity(required, preferred))
  }

  function RewrittenAffinity(affinity: Option<Affinity>, values: seq<LabelMapping>): Option<Affinity> {
    if affinity.None? then None
    else
      var node := RewrittenNodeAffinity(affinity.value.node, values);
      if node.None? && affinity.value.others == map[] then None else Some(Affinity(node, affinity.value.others))
  }

  ghost function RewrittenSelector(selector: Option<Labels>, values: seq<LabelMapping>): Option<Labels> {
    if selector.None? || Renamed(selector.value, values) == map[] then None else Some(Renamed(selector.value, values))
  }

  ghost function RewrittenPlacement(p: Placement, values: seq<LabelMapping>): Placement {
    Placement(
      RewrittenSelector(p.nodeSelector, values),
      RewrittenAffinity(p.affinity, values),
      if p.spread.None? then None else Kept(RewrittenConstraints(p.spread.value, values)))
  }

  lemma NextRequirement(requirements: seq<Requirement>, i: nat, values: seq<LabelMapping>)
    requires i < |requirements|
    ensures var r := requirements[i];
            RewrittenRequirements(requirements[i..], values) ==
            (if LabelTarget(r.key, values) == Dropped then [] else [r.(key := NewKey(r.key, values))]) + RewrittenRequirements(requirements[i + 1..], values)
  {
  }

  lemma NextConstraint(constraints: seq<Constraint>, i: nat, values: seq<LabelMapping>)
    requires i < |constraints|
    ensures var c := constraints[i];
            RewrittenConstraints(constraints[i..], values) ==
            (if LabelTarget(c.topologyKey, values) == Dropped then [] else [c.(topologyKey := NewKey(c.topologyKey, values))]) + RewrittenConstraints(constraints[i + 1..], values)
  {
  }

  lemma NextTerm(terms: seq<Term>, i: nat, values: seq<LabelMapping>)
    requires i < |terms|
    ensures var t := RewrittenTerm(terms[i], values);
            RewrittenTerms(terms[i..], values) == (if Survives(t) then [t] else []) + RewrittenTerms(terms[i + 1..], values)
  {
  }

  lemma NextPreferred(preferred: seq<Preferred>, i: nat, values: seq<LabelMapping>)
    requires i < |preferred|
    ensures var t := RewrittenTerm(preferred[i].preference, values);
            RewrittenPreferred(preferred[i..], values) ==
            (if Survives(t) then [Preferred(preferred[i].weight, t)] else []) + RewrittenPreferred(preferred[i + 1..], values)
  {
  }

  lemma NothingToRewrite(values: seq<LabelMapping>)
    ensures RewrittenRequirements([], values) == [] && RewrittenConstraints([], values) == []
    ensures RewrittenTerms([], values) == [] && RewrittenPreferred([], values) == []
  {
  }

  // ---------------------------------------------------------------- the rewrite, in place

  /** filtered := expressions[:0]: the survivors are written over the front of the list they come from. */
  method RewriteRequirements(a: array<Requirement>, values: seq<LabelMapping>) returns (kept: nat)
    modifies a
    ensures kept <= a.Length
    ensures a[..kept] == RewrittenRequirements(old(a[..]), values)
  {
    hide RewrittenRequirements;
    kept := 0;
    NothingToRewrite(values);
    ghost var original := a[..];
    for i := 0 to a.Length
      invariant kept <= i
      invariant a[i..] == original[i..]
      invariant a[..kept] + RewrittenRequirements(original[i..], values) == RewrittenRequirements(original, values)
    {
      var expression := a[i];
      NextRequirement(original, i, values);
      match LabelTarget(expression.key, values) {
        case Dropped =>
        case MapTo(target) =>
          a[kept] := expression.(key := target);
          kept := kept + 1;
        case Keep =>
          a[kept] := expression;
          kept := kept + 1;
      }
    }
  }

  method RewriteField(field: Option<seq<Requirement>>, values: seq<LabelMapping>) returns (result: Option<seq<Requirement>>)
    ensures result == RewrittenField(field, values)
  {
    if field.None? {
      return None;
    }
    var expressions := new Requirement[|field.value|](i requires 0 <= i < |field.value| => field.value[i]);
    assert expressions[..] == field.value;
    var kept := RewriteRequirements(expressions, values);
    result := if kept == 0 then None else Some(expressions[..kept]);
  }

  method RewriteTerms(a: array<Term>, values: seq<LabelMapping>) returns (kept: nat)
    modifies a
    ensures kept <= a.Length
    ensures a[..kept] == RewrittenTerms(old(a[..]), values)
  {
    hide RewrittenTerms;
    kept := 0;
    NothingToRewrite(values);
    ghost var original := a[..];
    for i := 0 to a.Length
      invariant kept <= i
      invariant a[i..] == original[i..]
      invariant a[..kept] + RewrittenTerms(original[i..], values) == RewrittenTerms(original, values)
    {
      NextTerm(original, i, values);
      var expressions := RewriteField(a[i].expressions, values);
      var fields := RewriteField(a[i].fields, values);
      if expressions.Some? || fields.Some? {
        a[kept] := Term(expressions, fields);
        kept := kept + 1;
      }
    }
  }

  method RewritePreferred(a: array<Preferred>, values: seq<LabelMapping>) returns (kept: nat)
    modifies a
    ensures kept <= a.Length
    ensures a[..kept] == RewrittenPreferred(old(a[..]), values)
  {
    hide RewrittenPreferred;
    kept := 0;
    NothingToRewrite(values);
    ghost var original := a[..];
    for i := 0 to a.Length
      invariant kept <= i
      invariant a[i..] == original[i..]
      invariant a[..kept] + RewrittenPreferred(original[i..], values) == RewrittenPreferred(original, values)
    {
      NextPreferred(original, i, values);
      var expressions := RewriteField(a[i].preference.expressions, values);
      var fields := RewriteField(a[i].preference.fields, values);
      if expressions.Some? || fields.Some? {
        a[kept] := Preferred(a[i].weight, Term(expressions, fields));
        kept := kept + 1;
      }
    }
  }

  method RewriteConstraints(a: array<Constraint>, values: seq<LabelMapping>) returns (kept: nat)
    modifies a
    ensures kept <= a.Length
    ensures a[..kept] == RewrittenConstraints(old(a[..]), values)
  {
    hide RewrittenConstraints;
    kept := 0;
    NothingToRewrite(values);
    ghost var original := a[..];
    for i := 0 to a.Length
      invariant kept <= i
      invariant a[i..] == original[i..]
      invariant a[..kept] + RewrittenConstraints(original[i..], values) == RewrittenConstraints(original, values)
    {
      var constraint := a[i];
      NextConstraint(original, i, values);
      match LabelTarget(constraint.topologyKey, values) {
        case Dropped =>
        case MapTo(target) =>
          a[kept] := constraint.(topologyKey := target);
          kept := kept + 1;
        case Keep =>
          a[kept] := constraint;
          kept := kept + 1;
      }
    }
  }

  /** One legal run of the label loop over the selector, an emptied selector being deleted. */
  ghost predicate SelectorAfter(before: Option<Labels>, visits: seq<Label>, values: seq<LabelMapping>, after: Option<Labels>) {
    if before.None? then after.None?
    else
      && Complete(before.value, visits, values)
      && var labels := After(before.value, visits, values).labels;
         after == if labels == map[] then None else Some(labels)
  }

  ghost predicate OrderIrrelevant(selector: Option<Labels>, values: seq<LabelMapping>) {
    DistinctTargets(values) && (selector.Some? ==> NoChain(selector.value, values))
  }

  /** The scheduling fields of one Pod template. */
  class PodSpec {
    var nodeSelector: Option<Labels>
    var affinity: Option<Affinity>
    var spread: Option<seq<Constraint>>

    constructor (p: Placement)
      ensures Placed() == p
    {
      nodeSelector, affinity, spread := p.nodeSelector, p.affinity, p.spread;
    }

    function Placed(): Placement
      reads this
    {
      Placement(nodeSelector, affinity, spread)
    }

    method RewriteSelector(values: seq<LabelMapping>, optional: nat) returns (ghost visits: seq<Label>)
      modifies this`nodeSelector
      ensures SelectorAfter(old(nodeSelector), visits, values, nodeSelector)
      ensures OrderIrrelevant(old(nodeSelector), values) ==> nodeSelector == RewrittenSelector(old(nodeSelector), values)
    {
      visits := [];
      if nodeSelector.Some? {
        var labels := new LabelMap(nodeSelector.value);
        visits := labels.Rewrite(values, optional);
        nodeSelector := if labels.entries == map[] then None else Some(labels.entries);
      }
    }

    method RewriteNodeAffinity(node: NodeAffinity, values: seq<LabelMapping>) returns (result: Option<NodeAffinity>)
      ensures result == RewrittenNodeAffinity(Some(node), values)
    {
      var required, preferred := None, None;
      if node.required.Some? && node.required.value.terms.Some? {
        var list := node.required.value.terms.value;
        var terms := new Term[|list|](i requires 0 <= i < |list| => list[i]);
        assert terms[..] == list;
        var kept := RewriteTerms(terms, values);
        if kept > 0 {
          required := Some(Required(Some(terms[..kept])));
        }
      }
      if node.preferred.Some? {
        var list := node.preferred.value;
        var items := new Preferred[|list|](i requires 0 <= i < |list| => list[i]);
        assert items[..] == list;
        var kept := RewritePreferred(items, values);
        if kept > 0 {
          preferred := Some(items[..kept]);
        }
      }
      result := if required.None? && preferred.None? then None else Some(NodeAffinity(required, preferred));
    }

    /** Only the node selector can depend on the order of the loop. */
    method ApplyNodeLabelMapping(values: seq<LabelMapping>, optional: nat) returns (ghost visits: seq<Label>)
      modifies this
      ensures SelectorAfter(old(nodeSelector), visits, values, nodeSelector)
      ensures Placed() == RewrittenPlacement(old(Placed()), values).(nodeSelector := nodeSelector)
      ensures LeavesTheRest(old(Placed()), Placed(), values)
      ensures OrderIrrelevant(old(nodeSelector), values) ==> Placed() == RewrittenPlacement(old(Placed()), values)
    {
      hide RewrittenConstraints, SelectorAfter, OrderIrrelevant, LeavesTheRest;
      visits := RewriteSelector(values, optional);
      if affinity.Some? {
        var node := None;
        if affinity.value.node.Some? {
          node := RewriteNodeAffinity(affinity.value.node.value, values);
        }
        affinity := if node.None? && affinity.value.others == map[] then None else Some(Affinity(node, affinity.value.others));
      }
      if spread.Some? {
        var list := spread.value;
        var constraints := new Constraint[|list|](i requires 0 <= i < |list| => list[i]);
        assert constraints[..] == list;
        var kept := RewriteConstraints(constraints, values);
        spread := if kept == 0 then None else Some(constraints[..kept]);
      }
      RewriteLeavesTheRest(old(Placed()), values, nodeSelector);
    }
  }

  // ---------------------------------------------------------------- which nodes are accepted

  datatype Node = Node(labels: Labels, fields: Labels)

  const MIN_INT64 := -0x8000_0000_0000_0000
  const MAX_INT64 := 0x7FFF_FFFF_FFFF_FFFF

  function Digits(text: string): Option<nat> {
    if text == [] then Some(0)
    else
      var prefix := Digits(text[..|text| - 1]);
      var last := text[|text| - 1];
      if prefix.Some? && '0' <= last <= '9' then Some(10 * prefix.value + (last as int - '0' as int)) else None
  }

  function ParseInt(text: string): Option<int> {
    var negative := text != [] && text[0] == '-';
    var digits := if text != [] && text[0] in {'-', '+'} then text[1..] else text;
    var parsed := Digits(digits);
    if digits == [] || parsed.None? then None
    else
      var number: int := if negative then 0 - parsed.value else parsed.value;
      if MIN_INT64 <= number <= MAX_INT64 then Some(number) else None
  }

  predicate Compares(value: Value, operator: Operator, operands: seq<Value>) {
    && |operands| == 1
    && ParseInt(value).Some? && ParseInt(operands[0]).Some?
    && (if operator == Gt then ParseInt(value).value > ParseInt(operands[0]).value else ParseInt(value).value < ParseInt(operands[0]).value)
  }

  predicate Matches(r: Requirement, labels: Labels) {
    match r.operator
    case In => r.key in labels && labels[r.key] in r.operands
    case NotIn => r.key in labels ==> labels[r.key] !in r.operands
    case Exists => r.key in labels
    case DoesNotExist => r.key !in labels
    case _ => r.key in labels && Compares(labels[r.key], r.operator, r.operands)
  }

  function Listed<T>(field: Option<seq<T>>): seq<T> { if field.None? then [] else field.value }

  predicate Live(term: Term) { Listed(term.expressions) != [] || Listed(term.fields) != [] }

  /** Expressions are ANDed; an empty term accepts no node. */
  predicate TermMatches(term: Term, node: Node) {
    && Live(term)
    && (forall r :: r in Listed(term.expressions) ==> Matches(r, node.labels))
    && (forall r :: r in Listed(term.fields) ==> Matches(r, node.fields))
  }

  predicate SelectorMatches(selector: Option<Labels>, labels: Labels) {
    selector.Some? ==> forall k :: k in selector.value ==> k in labels && labels[k] == selector.value[k]
  }

  function RequiredOf(p: Placement): Option<Required> {
    if p.affinity.None? || p.affinity.value.node.None? then None else p.affinity.value.node.value.required
  }

  function TermsOf(p: Placement): seq<Term> {
    if RequiredOf(p).None? then [] else Listed(RequiredOf(p).value.terms)
  }

  /** Terms are ORed; a requirement without terms accepts no node. */
  predicate RequiredMatches(p: Placement, node: Node) {
    RequiredOf(p).None? || exists t :: t in TermsOf(p) && TermMatches(t, node)
  }

  predicate Satisfies(p: Placement, node: Node) {
    SelectorMatches(p.nodeSelector, node.labels) && RequiredMatches(p, node)
  }

  // ---------------------------------------------------------------- renaming the cluster with the Pod

  ghost function RenamedNode(node: Node, values: seq<LabelMapping>): Node {
    Node(Renamed(node.labels, values), node.fields)
  }

  /** k is a label of the node, of the selector, or of a required term. */
  ghost predicate InPlay(k: Label, p: Placement, node: Node) {
    || k in node.labels
    || (p.nodeSelector.Some? && k in p.nodeSelector.value)
    || exists t, r :: t in TermsOf(p) && r in Listed(t.expressions) && r.key == k
  }

  predicate Lives(k: Label, values: seq<LabelMapping>) { LabelTarget(k, values) != Dropped }

  ghost predicate InjectiveOn(values: seq<LabelMapping>, p: Placement, node: Node) {
    forall j, k | InPlay(j, p, node) && InPlay(k, p, node) && Lives(j, values) && Lives(k, values)
      :: NewKey(j, values) == NewKey(k, values) ==> j == k
  }

  ghost predicate NothingDropped(values: seq<LabelMapping>, p: Placement, node: Node) {
    forall k :: InPlay(k, p, node) ==> Lives(k, values)
  }

  /** Kubernetes only knows the field metadata.name; no mapping may name it. */
  ghost predicate FieldsUnmapped(values: seq<LabelMapping>, p: Placement) {
    forall t, r :: t in TermsOf(p) && r in Listed(t.fields) ==> LabelTarget(r.key, values) == Keep
  }

  /** The renamed node carries a label exactly if the node carried the one it comes from. */
  lemma RenamedLabel(p: Placement, node: Node, values: seq<LabelMapping>, k: Label)
    requires InjectiveOn(values, p, node) && InPlay(k, p, node) && Lives(k, values)
    ensures var labels, key := Renamed(node.labels, values), NewKey(k, values);
            && (key in labels <==> k in node.labels)
            && (k in node.labels ==> labels[key] == node.labels[k])
  {
    RenamedEntry(node.labels, values, k, p, node);
  }

  lemma RenamedEntry(labels: Labels, values: seq<LabelMapping>, k: Label, p: Placement, node: Node)
    requires InjectiveOn(values, p, node) && InPlay(k, p, node) && Lives(k, values)
    requires forall j :: j in labels ==> InPlay(j, p, node)
    ensures var renamed, key := Renamed(labels, values), NewKey(k, values);
            && (key in renamed <==> k in labels)
            && (k in labels ==> renamed[key] == labels[k])
  {
    hide InPlay;
    var key := NewKey(k, values);
    RenamingDomain(labels, labels.Keys, values, key);
    forall j | j in labels && LabelTarget(j, values) == MapTo(key)
      ensures j == k
    {
      assert NewKey(j, values) == NewKey(k, values);
    }
    if Stays(key, labels, labels.Keys, values) {
      assert NewKey(key, values) == NewKey(k, values);
    }
    if k in labels && LabelTarget(k, values).MapTo? {
      assert HitBy(key, labels.Keys, values);
      assert key in Targets(labels.Keys, values);
    }
  }

  lemma RequirementSame(p: Placement, node: Node, values: seq<LabelMapping>, r: Requirement)
    requires InjectiveOn(values, p, node) && InPlay(r.key, p, node) && Lives(r.key, values)
    ensures Matches(r.(key := NewKey(r.key, values)), RenamedNode(node, values).labels) <==> Matches(r, node.labels)
  {
    RenamedLabel(p, node, values, r.key);
  }

  lemma SelectorEntry(p: Placement, node: Node, values: seq<LabelMapping>, k: Label)
    requires InjectiveOn(values, p, node)
    requires p.nodeSelector.Some? && k in p.nodeSelector.value && Lives(k, values)
    ensures var selector, labels, key := Renamed(p.nodeSelector.value, values), Renamed(node.labels, values), NewKey(k, values);
            && key in selector && selector[key] == p.nodeSelector.value[k]
            && (key in labels <==> k in node.labels)
            && (k in node.labels ==> labels[key] == node.labels[k])
  {
    hide InjectiveOn, Renamed;
    RenamedLabel(p, node, values, k);
    RenamedEntry(p.nodeSelector.value, values, k, p, node);
  }

  /** The selector labels that are not dropped are on the node. */
  ghost predicate LivingSelectorMatches(p: Placement, node: Node, values: seq<LabelMapping>) {
    p.nodeSelector.Some? ==>
      forall k :: k in p.nodeSelector.value && Lives(k, values) ==> k in node.labels && node.labels[k] == p.nodeSelector.value[k]
  }

  lemma SelectorAfterwards(p: Placement, node: Node, values: seq<LabelMapping>)
    requires InjectiveOn(values, p, node)
    ensures SelectorMatches(RewrittenSelector(p.nodeSelector, values), Renamed(node.labels, values)) <==> LivingSelectorMatches(p, node, values)
  {
    hide InjectiveOn, InPlay, Renaming, ValueAt;
    if p.nodeSelector.Some? {
      var selector := p.nodeSelector.value;
      forall key | key in Renamed(selector, values)
        ensures exists k :: k in selector && NewKey(k, values) == key && Lives(k, values)
      {
        RenamingDomain(selector, selector.Keys, values, key);
      }
      forall k | k in selector && Lives(k, values)
        ensures var renamed, labels, key := Renamed(selector, values), Renamed(node.labels, values), NewKey(k, values);
                && key in renamed && renamed[key] == selector[k]
                && (key in labels <==> k in node.labels)
                && (k in node.labels ==> labels[key] == node.labels[k])
      {
        SelectorEntry(p, node, values, k);
      }
    }
  }

  // ---------------------------------------------------------------- terms

  lemma {:induction false} RewrittenMember(requirements: seq<Requirement>, values: seq<LabelMapping>, out: Requirement)
    ensures out in RewrittenRequirements(requirements, values) <==>
            exists r :: r in requirements && Lives(r.key, values) && out == r.(key := NewKey(r.key, values))
  {
    if requirements != [] {
      RewrittenMember(requirements[1..], values, out);
      assert requirements == [requirements[0]] + requirements[1..];
    }
  }

  lemma {:induction false} UnmappedStay(requirements: seq<Requirement>, values: seq<LabelMapping>)
    requires forall r :: r in requirements ==> LabelTarget(r.key, values) == Keep
    ensures RewrittenRequirements(requirements, values) == requirements
  {
    if requirements != [] {
      UnmappedStay(requirements[1..], values);
    }
  }

  /** A requirement of the term survives the rewrite. */
  ghost predicate KeepsSomething(term: Term, values: seq<LabelMapping>) {
    || (exists r :: r in Listed(term.expressions) && Lives(r.key, values))
    || (exists r :: r in Listed(term.fields) && Lives(r.key, values))
  }

  lemma SurvivesIffKeepsSomething(term: Term, values: seq<LabelMapping>)
    ensures Survives(RewrittenTerm(term, values)) == Live(RewrittenTerm(term, values)) == KeepsSomething(term, values)
  {
    SurvivorExists(Listed(term.expressions), values);
    SurvivorExists(Listed(term.fields), values);
  }

  lemma {:induction false} SurvivorExists(requirements: seq<Requirement>, values: seq<LabelMapping>)
    ensures RewrittenRequirements(requirements, values) != [] <==> exists r :: r in requirements && Lives(r.key, values)
  {
    if requirements != [] {
      SurvivorExists(requirements[1..], values);
      assert requirements == [requirements[0]] + requirements[1..];
    }
  }

  lemma {:induction false} RewrittenTermMember(terms: seq<Term>, values: seq<LabelMapping>, out: Term)
    ensures out in RewrittenTerms(terms, values) <==>
            exists t :: t in terms && Survives(RewrittenTerm(t, values)) && out == RewrittenTerm(t, values)
  {
    if terms != [] {
      RewrittenTermMember(terms[1..], values, out);
      assert terms == [terms[0]] + terms[1..];
    }
  }

  /** The requirements of the term that are not dropped hold on the node. */
  ghost predicate LivingMatches(term: Term, node: Node, values: seq<LabelMapping>) {
    && (forall r :: r in Listed(term.expressions) && Lives(r.key, values) ==> Matches(r, node.labels))
    && (forall r :: r in Listed(term.fields) ==> Matches(r, node.fields))
  }

  lemma TermAfterwards(p: Placement, node: Node, values: seq<LabelMapping>, t: Term)
    requires InjectiveOn(values, p, node) && FieldsUnmapped(values, p) && t in TermsOf(p)
    ensures TermMatches(RewrittenTerm(t, values), RenamedNode(node, values)) <==> KeepsSomething(t, values) && LivingMatches(t, node, values)
  {
    hide InjectiveOn, Matches, KeepsSomething, Renamed;
    SurvivesIffKeepsSomething(t, values);
    UnmappedStay(Listed(t.fields), values);
    var expressions, after := Listed(t.expressions), RenamedNode(node, values);
    forall out
      ensures out in RewrittenRequirements(expressions, values) <==>
              exists r :: r in expressions && Lives(r.key, values) && out == r.(key := NewKey(r.key, values))
    {
      RewrittenMember(expressions, values, out);
    }
    forall r | r in expressions && Lives(r.key, values)
      ensures r.(key := NewKey(r.key, values)) in RewrittenRequirements(expressions, values)
      ensures Matches(r.(key := NewKey(r.key, values)), after.labels) <==> Matches(r, node.labels)
    {
      RequirementSame(p, node, values, r);
    }
  }

  lemma RewrittenRequirement(p: Placement, values: seq<LabelMapping>)
    ensures var q := RewrittenPlacement(p, values);
            && TermsOf(q) == RewrittenTerms(TermsOf(p), values)
            && (RequiredOf(q).None? <==> RewrittenTerms(TermsOf(p), values) == [])
  {
  }

  // ---------------------------------------------------------------- what the rewrite leaves, list by list

  ghost predicate Increasing(picked: seq<nat>, length: nat) {
    && (forall k :: 0 <= k < |picked| ==> picked[k] < length)
    && (forall j, k :: 0 <= j < k < |picked| ==> picked[j] < picked[k])
  }

  /** after holds, in order, what became of exactly those entries of before that are kept. */
  ghost predicate Sifted<T(!new)>(before: seq<T>, after: seq<T>, kept: T -> bool, becomes: (T, T) -> bool) {
    exists picked :: SiftedBy(before, after, kept, becomes, picked)
  }

  ghost predicate SiftedBy<T(!new)>(before: seq<T>, after: seq<T>, kept: T -> bool, becomes: (T, T) -> bool, picked: seq<nat>) {
    && Increasing(picked, |before|) && |picked| == |after|
    && (forall i :: 0 <= i < |before| ==> (i in picked <==> kept(before[i])))
    && (forall k :: 0 <= k < |picked| ==> becomes(before[picked[k]], after[k]))
  }

  lemma NothingSifted<T(!new)>(kept: T -> bool, becomes: (T, T) -> bool)
    ensures Sifted([], [], kept, becomes)
  {
    assert SiftedBy([], [], kept, becomes, []);
  }

  /** The same picks in a list that is one longer at the front, with or without its first entry. */
  function OneMore(picked: seq<nat>, first: bool): seq<nat> {
    (if first then [0] else []) + seq(|picked|, k requires 0 <= k < |picked| => picked[k] + 1)
  }

  lemma OneMoreAt(picked: seq<nat>, first: bool)
    ensures |OneMore(picked, first)| == |picked| + if first then 1 else 0
    ensures first ==> OneMore(picked, first)[0] == 0
    ensures forall k :: 0 <= k < |picked| ==> OneMore(picked, first)[if first then k + 1 else k] == picked[k] + 1
  {
  }

  lemma OneMoreHolds(picked: seq<nat>, first: bool, i: nat)
    ensures i in OneMore(picked, first) <==> if i == 0 then first else i - 1 in picked
  {
    hide OneMore;
    OneMoreAt(picked, first);
    var more := OneMore(picked, first);
    if i in more {
      var k :| 0 <= k < |more| && more[k] == i;
      var n := if first then k - 1 else k;
      assert n >= 0 ==> more[if first then n + 1 else n] == picked[n] + 1;
    }
    if i > 0 && i - 1 in picked {
      var k :| 0 <= k < |picked| && picked[k] == i - 1;
      assert more[if first then k + 1 else k] == i;
    }
  }

  lemma OneMoreIncreases(picked: seq<nat>, first: bool, length: nat)
    requires Increasing(picked, length)
    ensures Increasing(OneMore(picked, first), length + 1)
  {
  }

  lemma KeptAfterOneMore<T(!new)>(head: T, before: seq<T>, kept: T -> bool, picked: seq<nat>)
    requires forall i :: 0 <= i < |before| ==> (i in picked <==> kept(before[i]))
    ensures var more, list := OneMore(picked, kept(head)), [head] + before;
            forall i :: 0 <= i < |list| ==> (i in more <==> kept(list[i]))
  {
    hide OneMore;
    var more, list := OneMore(picked, kept(head)), [head] + before;
    forall i | 0 <= i < |list|
      ensures i in more <==> kept(list[i])
    {
      OneMoreHolds(picked, kept(head), i);
      if i > 0 {
        assert list[i] == before[i - 1];
      }
    }
  }

  lemma BecomesAfterOneMore<T(!new)>(head: T, before: seq<T>, out: seq<T>, after: seq<T>, first: bool, becomes: (T, T) -> bool, picked: seq<nat>)
    requires |picked| == |after| && forall k :: 0 <= k < |picked| ==> picked[k] < |before| && becomes(before[picked[k]], after[k])
    requires |out| == (if first then 1 else 0) && (first ==> becomes(head, out[0]))
    ensures var more, list, all := OneMore(picked, first), [head] + before, out + after;
            |more| == |all| && forall k :: 0 <= k < |more| ==> more[k] < |list| && becomes(list[more[k]], all[k])
  {
    var more, list, all := OneMore(picked, first), [head] + before, out + after;
    forall k | 0 <= k < |more|
      ensures more[k] < |list| && becomes(list[more[k]], all[k])
    {
      if first && k == 0 {
        assert list[0] == head && all[0] == out[0];
      } else {
        var n := if first then k - 1 else k;
        assert more[k] == picked[n] + 1 && list[more[k]] == before[picked[n]] && all[k] == after[n];
      }
    }
  }

  lemma OneMoreSifted<T(!new)>(head: T, before: seq<T>, out: seq<T>, after: seq<T>, kept: T -> bool, becomes: (T, T) -> bool)
    requires Sifted(before, after, kept, becomes)
    requires |out| == (if kept(head) then 1 else 0) && (kept(head) ==> becomes(head, out[0]))
    ensures Sifted([head] + before, out + after, kept, becomes)
  {
    hide OneMore, Increasing;
    var picked :| SiftedBy(before, after, kept, becomes, picked);
    PicksInside(picked, |before|);
    OneMoreIncreases(picked, kept(head), |before|);
    KeptAfterOneMore(head, before, kept, picked);
    BecomesAfterOneMore(head, before, out, after, kept(head), becomes, picked);
    assert SiftedBy([head] + before, out + after, kept, becomes, OneMore(picked, kept(head)));
  }

  lemma PicksInside(picked: seq<nat>, length: nat)
    requires Increasing(picked, length)
    ensures forall k :: 0 <= k < |picked| ==> picked[k] < length
  {
  }

  ghost function KeyLives(values: seq<LabelMapping>): Requirement -> bool { (r: Requirement) => Lives(r.key, values) }

  ghost function KeyChanges(values: seq<LabelMapping>): (Requirement, Requirement) -> bool {
    (r: Requirement, out: Requirement) => out == r.(key := NewKey(r.key, values))
  }

  lemma {:induction false} RequirementsAreSifted(requirements: seq<Requirement>, values: seq<LabelMapping>)
    ensures Sifted(requirements, RewrittenRequirements(requirements, values), KeyLives(values), KeyChanges(values))
  {
    hide Sifted;
    if requirements == [] {
      NothingSifted(KeyLives(values), KeyChanges(values));
    } else {
      var r := requirements[0];
      RequirementsAreSifted(requirements[1..], values);
      var out := if Lives(r.key, values) then [r.(key := NewKey(r.key, values))] else [];
      OneMoreSifted(r, requirements[1..], out, RewrittenRequirements(requirements[1..], values), KeyLives(values), KeyChanges(values));
      assert requirements == [r] + requirements[1..];
      assert out + RewrittenRequirements(requirements[1..], values) == RewrittenRequirements(requirements, values);
    }
  }

  /** A field that is there holds something. */
  predicate NoneEmpty<T>(field: Option<seq<T>>) { field.Some? ==> field.value != [] }

  ghost predicate TermBecomes(t: Term, out: Term, values: seq<LabelMapping>) {
    && NoneEmpty(out.expressions) && NoneEmpty(out.fields)
    && Sifted(Listed(t.expressions), Listed(out.expressions), KeyLives(values), KeyChanges(values))
    && Sifted(Listed(t.fields), Listed(out.fields), KeyLives(values), KeyChanges(values))
  }

  lemma TermIsSifted(t: Term, values: seq<LabelMapping>)
    ensures TermBecomes(t, RewrittenTerm(t, values), values)
  {
    RequirementsAreSifted(Listed(t.expressions), values);
    RequirementsAreSifted(Listed(t.fields), values);
  }

  ghost function TermLives(values: seq<LabelMapping>): Term -> bool { (t: Term) => KeepsSomething(t, values) }

  ghost function TermChanges(values: seq<LabelMapping>): (Term, Term) -> bool { (t: Term, out: Term) => TermBecomes(t, out, values) }

  lemma {:induction false} TermsAreSifted(terms: seq<Term>, values: seq<LabelMapping>)
    ensures Sifted(terms, RewrittenTerms(terms, values), TermLives(values), TermChanges(values))
  {
    hide TermBecomes, KeepsSomething, Sifted;
    if terms == [] {
      NothingSifted(TermLives(values), TermChanges(values));
    } else {
      var t := terms[0];
      TermsAreSifted(terms[1..], values);
      TermIsSifted(t, values);
      SurvivesIffKeepsSomething(t, values);
      var out := if KeepsSomething(t, values) then [RewrittenTerm(t, values)] else [];
      OneMoreSifted(t, terms[1..], out, RewrittenTerms(terms[1..], values), TermLives(values), TermChanges(values));
      assert terms == [t] + terms[1..];
      assert out + RewrittenTerms(terms[1..], values) == RewrittenTerms(terms, values);
    }
  }

  ghost function PreferenceLives(values: seq<LabelMapping>): Preferred -> bool { (p: Preferred) => KeepsSomething(p.preference, values) }

  /** The weight is kept. */
  ghost function PreferenceChanges(values: seq<LabelMapping>): (Preferred, Preferred) -> bool {
    (p: Preferred, out: Preferred) => out.weight == p.weight && TermBecomes(p.preference, out.preference, values)
  }

  lemma {:induction false} PreferencesAreSifted(preferred: seq<Preferred>, values: seq<LabelMapping>)
    ensures Sifted(preferred, RewrittenPreferred(preferred, values), PreferenceLives(values), PreferenceChanges(values))
  {
    hide TermBecomes, KeepsSomething, Sifted;
    if preferred == [] {
      NothingSifted(PreferenceLives(values), PreferenceChanges(values));
    } else {
      var p := preferred[0];
      PreferencesAreSifted(preferred[1..], values);
      TermIsSifted(p.preference, values);
      SurvivesIffKeepsSomething(p.preference, values);
      var out := if KeepsSomething(p.preference, values) then [Preferred(p.weight, RewrittenTerm(p.preference, values))] else [];
      OneMoreSifted(p, preferred[1..], out, RewrittenPreferred(preferred[1..], values), PreferenceLives(values), PreferenceChanges(values));
      assert preferred == [p] + preferred[1..];
      assert out + RewrittenPreferred(preferred[1..], values) == RewrittenPreferred(preferred, values);
    }
  }

  ghost function ConstraintLives(values: seq<LabelMapping>): Constraint -> bool { (c: Constraint) => Lives(c.topologyKey, values) }

  ghost function ConstraintChanges(values: seq<LabelMapping>): (Constraint, Constraint) -> bool {
    (c: Constraint, out: Constraint) => out == c.(topologyKey := NewKey(c.topologyKey, values))
  }

  lemma {:induction false} ConstraintsAreSifted(constraints: seq<Constraint>, values: seq<LabelMapping>)
    ensures Sifted(constraints, RewrittenConstraints(constraints, values), ConstraintLives(values), ConstraintChanges(values))
  {
    hide Sifted;
    if constraints == [] {
      NothingSifted(ConstraintLives(values), ConstraintChanges(values));
    } else {
      var c := constraints[0];
      ConstraintsAreSifted(constraints[1..], values);
      var out := if Lives(c.topologyKey, values) then [c.(topologyKey := NewKey(c.topologyKey, values))] else [];
      OneMoreSifted(c, constraints[1..], out, RewrittenConstraints(constraints[1..], values), ConstraintLives(values), ConstraintChanges(values));
      assert constraints == [c] + constraints[1..];
      assert out + RewrittenConstraints(constraints[1..], values) == RewrittenConstraints(constraints, values);
    }
  }

  /** podAffinity and podAntiAffinity. */
  function Others(p: Placement): map<string, string> { if p.affinity.None? then map[] else p.affinity.value.others }

  function NodeAffinityOf(p: Placement): Option<NodeAffinity> { if p.affinity.None? then None else p.affinity.value.node }

  function PreferencesOf(p: Placement): seq<Preferred> { if NodeAffinityOf(p).None? then [] else Listed(NodeAffinityOf(p).value.preferred) }

  /** No field is left empty. */
  predicate NoneLeftEmpty(p: Placement) {
    && (p.affinity.Some? ==> Others(p) != map[] || NodeAffinityOf(p).Some?)
    && (NodeAffinityOf(p).Some? ==> RequiredOf(p).Some? || NodeAffinityOf(p).value.preferred.Some?)
    && (RequiredOf(p).Some? ==> TermsOf(p) != [])
    && (NodeAffinityOf(p).Some? ==> NoneEmpty(NodeAffinityOf(p).value.preferred)) && NoneEmpty(p.spread)
  }

  /**
   What the rewrite leaves of everything but the selector: the affinity to other Pods as
   it is, and of terms, preferences with their weights, and spread constraints, in order,
   exactly those of which something is not dropped.
   */
  ghost predicate LeavesTheRest(before: Placement, after: Placement, values: seq<LabelMapping>) {
    && Others(after) == Others(before) && NoneLeftEmpty(after)
    && Sifted(TermsOf(before), TermsOf(after), TermLives(values), TermChanges(values))
    && Sifted(PreferencesOf(before), PreferencesOf(after), PreferenceLives(values), PreferenceChanges(values))
    && Sifted(Listed(before.spread), Listed(after.spread), ConstraintLives(values), ConstraintChanges(values))
  }

  lemma RewriteLeavesTheRest(p: Placement, values: seq<LabelMapping>, selector: Option<Labels>)
    ensures LeavesTheRest(p, RewrittenPlacement(p, values).(nodeSelector := selector), values)
  {
    hide Sifted, TermLives, TermChanges, PreferenceLives, PreferenceChanges, ConstraintLives, ConstraintChanges, RewrittenTerms, RewrittenPreferred, RewrittenConstraints;
    NothingToRewrite(values);
    TermsAreSifted(TermsOf(p), values);
    PreferencesAreSifted(PreferencesOf(p), values);
    ConstraintsAreSifted(Listed(p.spread), values);
  }

  // ---------------------------------------------------------------- what no mapping names

  ghost predicate Unnamed(key: Label, values: seq<LabelMapping>) { forall m :: m in values ==> m.source != key }

  lemma {:induction false} UnnamedIsKept(key: Label, values: seq<LabelMapping>)
    requires Unnamed(key, values)
    ensures LabelTarget(key, values) == Keep && Lives(key, values) && NewKey(key, values) == key
  {
    if values != [] {
      UnnamedIsKept(key, values[1..]);
    }
  }

  ghost predicate UnnamedTerm(t: Term, values: seq<LabelMapping>) {
    forall r :: r in Listed(t.expressions) + Listed(t.fields) ==> Unnamed(r.key, values)
  }

  ghost predicate UnnamedPlacement(p: Placement, values: seq<LabelMapping>) {
    && (p.nodeSelector.Some? ==> forall k :: k in p.nodeSelector.value ==> Unnamed(k, values))
    && (forall t :: t in TermsOf(p) ==> UnnamedTerm(t, values))
    && (forall x :: x in PreferencesOf(p) ==> UnnamedTerm(x.preference, values))
    && (forall c :: c in Listed(p.spread) ==> Unnamed(c.topologyKey, values))
  }

  predicate TidyTerm(t: Term) { Live(t) && NoneEmpty(t.expressions) && NoneEmpty(t.fields) }

  /** Nothing the manifest could as well leave out. */
  predicate Tidy(p: Placement) {
    && NoneLeftEmpty(p) && (p.nodeSelector.Some? ==> p.nodeSelector.value != map[])
    && (forall t :: t in TermsOf(p) ==> TidyTerm(t))
    && (forall x :: x in PreferencesOf(p) ==> TidyTerm(x.preference))
  }

  lemma UnnamedRequirementsStay(requirements: seq<Requirement>, values: seq<LabelMapping>)
    requires forall r :: r in requirements ==> Unnamed(r.key, values)
    ensures RewrittenRequirements(requirements, values) == requirements
  {
    forall r | r in requirements
      ensures LabelTarget(r.key, values) == Keep
    {
      UnnamedIsKept(r.key, values);
    }
    UnmappedStay(requirements, values);
  }

  lemma UnnamedTermStays(t: Term, values: seq<LabelMapping>)
    requires UnnamedTerm(t, values)
    ensures Survives(RewrittenTerm(t, values)) && RewrittenTerm(t, values) == t <==> TidyTerm(t)
    ensures RewrittenTerm(t, values) == Term(Kept(Listed(t.expressions)), Kept(Listed(t.fields)))
  {
    UnnamedRequirementsStay(Listed(t.expressions), values);
    UnnamedRequirementsStay(Listed(t.fields), values);
  }

  lemma {:induction false} UnnamedTermsStay(terms: seq<Term>, values: seq<LabelMapping>)
    requires forall t :: t in terms ==> UnnamedTerm(t, values) && TidyTerm(t)
    ensures RewrittenTerms(terms, values) == terms
  {
    hide UnnamedTerm, TidyTerm, RewrittenTerm, Survives;
    if terms != [] {
      UnnamedTermStays(terms[0], values);
      UnnamedTermsStay(terms[1..], values);
      assert terms == [terms[0]] + terms[1..];
    }
  }

  lemma {:induction false} UnnamedPreferencesStay(preferred: seq<Preferred>, values: seq<LabelMapping>)
    requires forall x :: x in preferred ==> UnnamedTerm(x.preference, values) && TidyTerm(x.preference)
    ensures RewrittenPreferred(preferred, values) == preferred
  {
    hide UnnamedTerm, TidyTerm, RewrittenTerm, Survives;
    if preferred != [] {
      UnnamedTermStays(preferred[0].preference, values);
      UnnamedPreferencesStay(preferred[1..], values);
      assert preferred == [preferred[0]] + preferred[1..];
    }
  }

  lemma {:induction false} UnnamedConstraintsStay(constraints: seq<Constraint>, values: seq<LabelMapping>)
    requires forall c :: c in constraints ==> Unnamed(c.topologyKey, values)
    ensures RewrittenConstraints(constraints, values) == constraints
  {
    hide Unnamed;
    if constraints != [] {
      UnnamedIsKept(constraints[0].topologyKey, values);
      UnnamedConstraintsStay(constraints[1..], values);
    }
  }

  lemma UnnamedLabelsStay(labels: Labels, values: seq<LabelMapping>)
    requires forall k :: k in labels ==> Unnamed(k, values)
    ensures Renamed(labels, values) == labels
  {
    hide Unnamed;
    forall k | k in labels
      ensures LabelTarget(k, values) == Keep
    {
      UnnamedIsKept(k, values);
    }
    forall key
      ensures key in Renamed(labels, values) <==> key in labels
      ensures key in labels ==> key in Renamed(labels, values) && Renamed(labels, values)[key] == labels[key]
    {
      RenamingDomain(labels, labels.Keys, values, key);
    }
  }

  lemma {:induction false} SurvivingTermsAreTidy(terms: seq<Term>, values: seq<LabelMapping>)
    ensures forall t :: t in RewrittenTerms(terms, values) ==> TidyTerm(t)
  {
    if terms != [] {
      SurvivingTermsAreTidy(terms[1..], values);
    }
  }

  lemma {:induction false} SurvivingPreferencesAreTidy(preferred: seq<Preferred>, values: seq<LabelMapping>)
    ensures forall x :: x in RewrittenPreferred(preferred, values) ==> TidyTerm(x.preference)
  {
    if preferred != [] {
      SurvivingPreferencesAreTidy(preferred[1..], values);
    }
  }

  lemma RewrittenListsAre(p: Placement, values: seq<LabelMapping>)
    ensures var q := RewrittenPlacement(p, values);
            && TermsOf(q) == RewrittenTerms(TermsOf(p), values)
            && PreferencesOf(q) == RewrittenPreferred(PreferencesOf(p), values)
            && Listed(q.spread) == RewrittenConstraints(Listed(p.spread), values)
  {
    hide RewrittenTerms, RewrittenPreferred, RewrittenConstraints, RewrittenSelector;
    NothingToRewrite(values);
  }

  /** Two placements that leave nothing empty and hold the same are the same. */
  lemma SamePlacement(p: Placement, q: Placement)
    requires NoneLeftEmpty(p) && NoneLeftEmpty(q)
    requires p.nodeSelector == q.nodeSelector && Others(p) == Others(q)
    requires TermsOf(p) == TermsOf(q) && PreferencesOf(p) == PreferencesOf(q) && Listed(p.spread) == Listed(q.spread)
    ensures p == q
  {
  }

  /** Whatever the profile says, a placement it names nothing of is left as it is, unless it holds something empty. */
  lemma UnnamedStaysIffTidy(p: Placement, values: seq<LabelMapping>)
    requires UnnamedPlacement(p, values)
    ensures RewrittenPlacement(p, values) == p <==> Tidy(p)
  {
    hide Unnamed, UnnamedTerm, TidyTerm, Renamed, LeavesTheRest, RewrittenTerms, RewrittenPreferred, RewrittenConstraints, RewrittenAffinity;
    var q := RewrittenPlacement(p, values);
    RewrittenListsAre(p, values);
    RestIsThere(p, values, q.nodeSelector);
    SurvivingTermsAreTidy(TermsOf(p), values);
    SurvivingPreferencesAreTidy(PreferencesOf(p), values);
    if p.nodeSelector.Some? {
      UnnamedLabelsStay(p.nodeSelector.value, values);
    }
    UnnamedConstraintsStay(Listed(p.spread), values);
    if Tidy(p) {
      UnnamedTermsStay(TermsOf(p), values);
      UnnamedPreferencesStay(PreferencesOf(p), values);
      SamePlacement(p, q);
    }
  }

  lemma RestIsThere(p: Placement, values: seq<LabelMapping>, selector: Option<Labels>)
    ensures var q := RewrittenPlacement(p, values).(nodeSelector := selector); Others(q) == Others(p) && NoneLeftEmpty(q)
  {
    hide Sifted, NoneLeftEmpty;
    RewriteLeavesTheRest(p, values, selector);
  }

  // ---------------------------------------------------------------- preferences

  /** The preferences as if they were required: what the conditions on names are about. */
  function AsRequired(p: Placement): Placement {
    var terms := seq(|PreferencesOf(p)|, i requires 0 <= i < |PreferencesOf(p)| => PreferencesOf(p)[i].preference);
    Placement(None, Some(Affinity(Some(NodeAffinity(Some(Required(Some(terms))), None)), map[])), None)
  }

  /** What the scheduler adds up for a node. */
  function Score(preferred: seq<Preferred>, node: Node): int {
    if preferred == [] then 0
    else (if TermMatches(preferred[0].preference, node) then preferred[0].weight else 0) + Score(preferred[1..], node)
  }

  /** What is left of it: preferences that keep a requirement and hold apart from what they drop. */
  ghost function LivingScore(preferred: seq<Preferred>, node: Node, values: seq<LabelMapping>): int {
    if preferred == [] then 0
    else
      var t := preferred[0].preference;
      (if KeepsSomething(t, values) && LivingMatches(t, node, values) then preferred[0].weight else 0) + LivingScore(preferred[1..], node, values)
  }

  lemma {:induction false} ScoreOf(preferred: seq<Preferred>, node: Node, after: Node, values: seq<LabelMapping>)
    requires forall x :: x in preferred ==>
               (TermMatches(RewrittenTerm(x.preference, values), after) <==> KeepsSomething(x.preference, values) && LivingMatches(x.preference, node, values))
    ensures Score(RewrittenPreferred(preferred, values), after) == LivingScore(preferred, node, values)
  {
    hide TermMatches, KeepsSomething, LivingMatches, RewrittenTerm, Survives;
    if preferred != [] {
      var x, rest := preferred[0], RewrittenPreferred(preferred[1..], values);
      ScoreOf(preferred[1..], node, after, values);
      SurvivesIffKeepsSomething(x.preference, values);
      var head := Preferred(x.weight, RewrittenTerm(x.preference, values));
      assert ([head] + rest)[1..] == rest;
    }
  }

  /** The renamed node scores, with the rewritten preferences, what is left of the score the node had. */
  lemma ScoreAfterwards(p: Placement, node: Node, values: seq<LabelMapping>)
    requires InjectiveOn(values, AsRequired(p), node) && FieldsUnmapped(values, AsRequired(p))
    ensures Score(PreferencesOf(RewrittenPlacement(p, values)), RenamedNode(node, values)) == LivingScore(PreferencesOf(p), node, values)
  {
    hide InjectiveOn, FieldsUnmapped, TermMatches, KeepsSomething, LivingMatches, RewrittenTerm, RewrittenPlacement;
    RewrittenListsAre(p, values);
    var terms := TermsOf(AsRequired(p));
    forall x | x in PreferencesOf(p)
      ensures TermMatches(RewrittenTerm(x.preference, values), RenamedNode(node, values)) <==>
              KeepsSomething(x.preference, values) && LivingMatches(x.preference, node, values)
    {
      var i :| 0 <= i < |PreferencesOf(p)| && PreferencesOf(p)[i] == x;
      assert terms[i] == x.preference;
      TermAfterwards(AsRequired(p), node, values, x.preference);
    }
    ScoreOf(PreferencesOf(p), node, RenamedNode(node, values), values);
  }

  lemma {:induction false} LivingScoreIsScore(preferred: seq<Preferred>, node: Node, values: seq<LabelMapping>)
    requires forall x, r :: x in preferred && r in Listed(x.preference.expressions) + Listed(x.preference.fields) ==> Lives(r.key, values)
    ensures LivingScore(preferred, node, values) == Score(preferred, node)
  {
    hide Matches, Lives;
    if preferred != [] {
      LivingScoreIsScore(preferred[1..], node, values);
      var t := preferred[0].preference;
      assert forall r :: r in Listed(t.expressions) || r in Listed(t.fields) ==> r in Listed(t.expressions) + Listed(t.fields);
      if Live(t) {
        assert KeepsSomething(t, values) by {
          if Listed(t.expressions) != [] {
            assert Listed(t.expressions)[0] in Listed(t.expressions);
          } else {
            assert Listed(t.fields)[0] in Listed(t.fields);
          }
        }
      }
    }
  }

  /** With labels only mapped, every node keeps its score under its new labels. */
  lemma ScoreIsKept(p: Placement, node: Node, values: seq<LabelMapping>)
    requires InjectiveOn(values, AsRequired(p), node) && FieldsUnmapped(values, AsRequired(p)) && NothingDropped(values, AsRequired(p), node)
    ensures Score(PreferencesOf(RewrittenPlacement(p, values)), RenamedNode(node, values)) == Score(PreferencesOf(p), node)
  {
    hide InjectiveOn, RewrittenPlacement, Score, LivingScore;
    ScoreAfterwards(p, node, values);
    var terms := TermsOf(AsRequired(p));
    forall x, r | x in PreferencesOf(p) && r in Listed(x.preference.expressions) + Listed(x.preference.fields)
      ensures Lives(r.key, values)
    {
      var i :| 0 <= i < |PreferencesOf(p)| && PreferencesOf(p)[i] == x;
      assert terms[i] == x.preference && terms[i] in terms;
      if r in Listed(x.preference.expressions) {
        assert InPlay(r.key, AsRequired(p), node);
      }
    }
    LivingScoreIsScore(PreferencesOf(p), node, values);
  }

  // ---------------------------------------------------------------- main results

  ghost predicate HasLiveTerm(p: Placement) { exists t :: t in TermsOf(p) && Live(t) }

  /** No term keeps a requirement, so the rewrite deletes the whole required affinity. */
  ghost predicate RequirementVanishes(p: Placement, values: seq<LabelMapping>) {
    forall t :: t in TermsOf(p) ==> !KeepsSomething(t, values)
  }

  /** Some term that keeps a requirement accepts the node, apart from what it drops. */
  ghost predicate LivingTermAccepts(p: Placement, node: Node, values: seq<LabelMapping>) {
    exists t :: t in TermsOf(p) && KeepsSomething(t, values) && LivingMatches(t, node, values)
  }

  lemma RequirementAfterwards(p: Placement, node: Node, values: seq<LabelMapping>)
    requires InjectiveOn(values, p, node) && FieldsUnmapped(values, p)
    ensures RequiredMatches(RewrittenPlacement(p, values), RenamedNode(node, values)) <==>
            RequirementVanishes(p, values) || LivingTermAccepts(p, node, values)
  {
    hide InjectiveOn, InPlay, TermMatches, Renamed, KeepsSomething, LivingMatches, FieldsUnmapped;
    RewrittenRequirement(p, values);
    var terms, after := TermsOf(p), RewrittenTerms(TermsOf(p), values);
    forall t | t in terms
      ensures KeepsSomething(t, values) <==> RewrittenTerm(t, values) in after
      ensures TermMatches(RewrittenTerm(t, values), RenamedNode(node, values)) <==> KeepsSomething(t, values) && LivingMatches(t, node, values)
    {
      SurvivesIffKeepsSomething(t, values);
      RewrittenTermMember(terms, values, RewrittenTerm(t, values));
      TermAfterwards(p, node, values, t);
    }
    forall out | out in after
      ensures exists t :: t in terms && out == RewrittenTerm(t, values)
    {
      RewrittenTermMember(terms, values, out);
    }
    if after != [] {
      assert after[0] in after;
    }
  }

  /**
   Which nodes accept the rewritten Pod under their new labels, whatever is mapped or
   dropped: those that carry what is left of the selector and satisfy what is left of
   some term, or any such node if nothing is left of the whole required affinity.
   */
  lemma AcceptedAfterwardsIff(p: Placement, node: Node, values: seq<LabelMapping>)
    requires InjectiveOn(values, p, node) && FieldsUnmapped(values, p)
    ensures Satisfies(RewrittenPlacement(p, values), RenamedNode(node, values)) <==>
            LivingSelectorMatches(p, node, values) && (RequirementVanishes(p, values) || LivingTermAccepts(p, node, values))
  {
    hide InjectiveOn, FieldsUnmapped, RequirementVanishes, LivingTermAccepts, RequiredMatches, SelectorMatches, LivingSelectorMatches;
    SelectorAfterwards(p, node, values);
    RequirementAfterwards(p, node, values);
  }

  /**
   A node that accepted the Pod still does exactly if there is no required affinity, or
   nothing is left of it, or some term that keeps a requirement accepts the node apart
   from what it drops. Otherwise dropping a term has lost the node.
   */
  lemma DroppingLosesTheNodeIff(p: Placement, node: Node, values: seq<LabelMapping>)
    requires InjectiveOn(values, p, node) && FieldsUnmapped(values, p)
    requires Satisfies(p, node)
    ensures Satisfies(RewrittenPlacement(p, values), RenamedNode(node, values)) <==>
            RequiredOf(p).None? || RequirementVanishes(p, values) || LivingTermAccepts(p, node, values)
  {
    hide InjectiveOn, FieldsUnmapped, LivingTermAccepts;
    AcceptedAfterwardsIff(p, node, values);
  }

  /** In particular, a node accepted through a term that keeps a requirement is still accepted. */
  lemma AcceptedNodesStayAccepted(p: Placement, node: Node, values: seq<LabelMapping>)
    requires InjectiveOn(values, p, node) && FieldsUnmapped(values, p)
    requires SelectorMatches(p.nodeSelector, node.labels)
    requires RequiredOf(p).None? || exists t :: t in TermsOf(p) && TermMatches(t, node) && KeepsSomething(t, values)
    ensures Satisfies(RewrittenPlacement(p, values), RenamedNode(node, values))
  {
    hide InjectiveOn, FieldsUnmapped, KeepsSomething, Matches;
    AcceptedAfterwardsIff(p, node, values);
    if t :| t in TermsOf(p) && TermMatches(t, node) && KeepsSomething(t, values) {
      assert LivingMatches(t, node, values);
    }
  }

  lemma NothingDroppedInTerm(p: Placement, node: Node, values: seq<LabelMapping>, t: Term)
    requires NothingDropped(values, p, node) && FieldsUnmapped(values, p) && t in TermsOf(p)
    ensures Live(t) == KeepsSomething(t, values)
    ensures TermMatches(t, node) <==> KeepsSomething(t, values) && LivingMatches(t, node, values)
  {
    forall r | r in Listed(t.expressions)
      ensures Lives(r.key, values)
    {
      assert InPlay(r.key, p, node);
    }
    if Listed(t.expressions) != [] {
      assert Listed(t.expressions)[0] in Listed(t.expressions);
    } else if Listed(t.fields) != [] {
      assert Listed(t.fields)[0] in Listed(t.fields);
    }
  }

  /**
   With labels only mapped, one to one on those in play, renaming Pod and node together
   changes nothing about whether the node is accepted, exactly when the Pod has no
   required affinity, or one with a non-empty term, or a selector that rejects the node.
   Otherwise the requirement, which accepts no node, is deleted and accepts every node.
   */
  lemma RenamingPreservesScheduling(p: Placement, node: Node, values: seq<LabelMapping>)
    requires InjectiveOn(values, p, node) && NothingDropped(values, p, node) && FieldsUnmapped(values, p)
    ensures (Satisfies(RewrittenPlacement(p, values), RenamedNode(node, values)) <==> Satisfies(p, node))
            <==> RequiredOf(p).None? || HasLiveTerm(p) || !SelectorMatches(p.nodeSelector, node.labels)
  {
    hide InjectiveOn, TermMatches, KeepsSomething, LivingMatches, Live, FieldsUnmapped, RewrittenPlacement;
    AcceptedAfterwardsIff(p, node, values);
    assert LivingSelectorMatches(p, node, values) <==> SelectorMatches(p.nodeSelector, node.labels) by {
      NothingDroppedInSelector(p, node, values);
    }
    forall t | t in TermsOf(p)
      ensures Live(t) == KeepsSomething(t, values)
      ensures TermMatches(t, node) <==> KeepsSomething(t, values) && LivingMatches(t, node, values)
    {
      NothingDroppedInTerm(p, node, values, t);
    }
  }

  lemma NothingDroppedInSelector(p: Placement, node: Node, values: seq<LabelMapping>)
    requires NothingDropped(values, p, node)
    ensures LivingSelectorMatches(p, node, values) <==> SelectorMatches(p.nodeSelector, node.labels)
  {
    if p.nodeSelector.Some? {
      forall k | k in p.nodeSelector.value
        ensures Lives(k, values)
      {
        assert InPlay(k, p, node);
      }
    }
  }

  /** A requirement with only empty terms accepts no node, and its rewrite every node of the selector. */
  lemma DeadRequirementVanishes(p: Placement, node: Node, values: seq<LabelMapping>)
    requires InjectiveOn(values, p, node) && NothingDropped(values, p, node)
    requires RequiredOf(p).Some? && !HasLiveTerm(p)
    ensures !Satisfies(p, node)
    ensures Satisfies(RewrittenPlacement(p, values), RenamedNode(node, values)) <==> SelectorMatches(p.nodeSelector, node.labels)
  {
    hide InjectiveOn, KeepsSomething, RewrittenPlacement;
    EmptyTermsKeepNothing(p, values);
    AcceptedAfterwardsIff(p, node, values);
    NothingDroppedInSelector(p, node, values);
  }

  lemma EmptyTermsKeepNothing(p: Placement, values: seq<LabelMapping>)
    requires !HasLiveTerm(p)
    ensures RequirementVanishes(p, values) && FieldsUnmapped(values, p)
  {
  }

  /** What PodSpec.ApplyNodeLabelMapping promises of the Pod it leaves behind. */
  ghost predicate LeftBy(p: Placement, visits: seq<Label>, values: seq<LabelMapping>, after: Placement) {
    && SelectorAfter(p.nodeSelector, visits, values, after.nodeSelector)
    && after == RewrittenPlacement(p, values).(nodeSelector := after.nodeSelector)
  }

  /** Every Pod the in-place rewrite can leave is the rewritten one exactly if the selector has no chain; the results above are then about it. */
  lemma InPlaceRewriteIsRewrittenIff(p: Placement, values: seq<LabelMapping>)
    requires DistinctTargets(values)
    ensures (forall visits, after :: LeftBy(p, visits, values, after) ==> after == RewrittenPlacement(p, values))
            <==> OrderIrrelevant(p.nodeSelector, values)
  {
    hide DistinctTargets, Renamed, NoChain;
    if p.nodeSelector.Some? {
      var labels := p.nodeSelector.value;
      OrderDoesNotMatterIffNoChain(labels, values);
      if !NoChain(labels, values) {
        var visits :| Complete(labels, visits, values) && After(labels, visits, values).labels != Renamed(labels, values);
        var left := After(labels, visits, values).labels;
        var after := RewrittenPlacement(p, values).(nodeSelector := if left == map[] then None else Some(left));
        assert LeftBy(p, visits, values, after);
      }
    }
  }

  /** With labels only mapped, the Pod the method leaves accepts the renamed node exactly as the Pod accepted the node. */
  lemma InPlaceRewritePreservesScheduling(p: Placement, node: Node, values: seq<LabelMapping>, visits: seq<Label>, after: Placement)
    requires LeftBy(p, visits, values, after) && OrderIrrelevant(p.nodeSelector, values)
    requires InjectiveOn(values, p, node) && NothingDropped(values, p, node) && FieldsUnmapped(values, p)
    ensures (Satisfies(after, RenamedNode(node, values)) <==> Satisfies(p, node))
            <==> RequiredOf(p).None? || HasLiveTerm(p) || !SelectorMatches(p.nodeSelector, node.labels)
  {
    hide Satisfies, InjectiveOn, NothingDropped, FieldsUnmapped, LeftBy;
    InPlaceRewriteIsRewrittenIff(p, values);
    RenamingPreservesScheduling(p, node, values);
  }

  lemma GpuIsDropped()
    ensures LabelTarget("gpu", [LabelMapping("gpu", "", Drop)]) == Dropped && LabelTarget("fast", [LabelMapping("gpu", "", Drop)]) == Keep
  {
  }

  lemma OnlyFastRemains(gpu: Requirement, fast: Requirement, values: seq<LabelMapping>)
    requires LabelTarget(gpu.key, values) == Dropped && LabelTarget(fast.key, values) == Keep
    ensures RewrittenTerms([Term(Some([gpu]), None), Term(Some([fast]), None)], values) == [Term(Some([fast]), None)]
  {
    var terms := [Term(Some([gpu]), None), Term(Some([fast]), None)];
    assert [gpu][1..] == [] && [fast][1..] == [] && fast.(key := fast.key) == fast;
    NothingToRewrite(values);
    NextRequirement([gpu], 0, values);
    NextRequirement([fast], 0, values);
    assert [gpu][0..] == [gpu] && [fast][0..] == [fast];
    assert RewrittenRequirements([gpu], values) == [] && RewrittenRequirements([fast], values) == [fast];
    NextTerm(terms, 0, values);
    NextTerm(terms, 1, values);
    assert terms[0..] == terms && terms[2..] == [];
  }

  /** A dropped term can cost a Pod the nodes it matched, when another term remains. */
  lemma DroppingATermCanLoseNodes() returns (p: Placement, node: Node, values: seq<LabelMapping>)
    ensures Validated(values) && InjectiveOn(values, p, node) && FieldsUnmapped(values, p)
    ensures Satisfies(p, node) && !Satisfies(RewrittenPlacement(p, values), RenamedNode(node, values))
  {
    hide Renaming, ValueAt, Compares, LabelTarget, RewrittenTerms;
    values := [LabelMapping("gpu", "", Drop)];
    GpuIsDropped();
    var needsGpu, needsFast := Requirement("gpu", Exists, []), Requirement("fast", Exists, []);
    var gpu, fast := Term(Some([needsGpu]), None), Term(Some([needsFast]), None);
    p := Placement(None, Some(Affinity(Some(NodeAffinity(Some(Required(Some([gpu, fast]))), None)), map[])), None);
    node := Node(map["gpu" := "yes"], map[]);
    assert gpu in TermsOf(p) && TermMatches(gpu, node);
    forall k | InPlay(k, p, node)
      ensures k in {"gpu", "fast"}
    {
    }
    OnlyFastRemains(needsGpu, needsFast, values);
    RewrittenRequirement(p, values);
    RenamingDomain(node.labels, node.labels.Keys, values, "fast");
    assert needsFast in Listed(fast.expressions);
  }

  // ---------------------------------------------------------------- rewriting twice

  /** No label at all is mapped onto a different label that has a mapping of its own. */
  ghost predicate Unchained(values: seq<LabelMapping>) { forall k :: LinkFree(k, values) }

  predicate Stable(k: Label, values: seq<LabelMapping>) { LabelTarget(k, values) in {Keep, MapTo(k)} }

  lemma NewKeysAreStable(k: Label, values: seq<LabelMapping>)
    requires DistinctTargets(values) && Unchained(values) && Lives(k, values)
    ensures Stable(NewKey(k, values), values)
  {
    assert LinkFree(k, values);
  }

  lemma StableLabelsStay(labels: Labels, values: seq<LabelMapping>)
    requires forall k :: k in labels ==> Stable(k, values)
    ensures Renamed(labels, values) == labels
  {
    var renamed := Renamed(labels, values);
    forall k
      ensures k in renamed <==> k in labels
      ensures k in renamed ==> renamed[k] == labels[k]
    {
      RenamingDomain(labels, labels.Keys, values, k);
      if k in labels && LabelTarget(k, values) == MapTo(k) {
        assert HitBy(k, labels.Keys, values) && k in Targets(labels.Keys, values);
      }
    }
    assert renamed == labels;
  }

  lemma RenamedIsStable(labels: Labels, values: seq<LabelMapping>)
    requires DistinctTargets(values) && Unchained(values)
    ensures Renamed(Renamed(labels, values), values) == Renamed(labels, values)
  {
    hide Renaming, ValueAt, DistinctTargets, Unchained;
    forall key | key in Renamed(labels, values)
      ensures Stable(key, values)
    {
      RenamingDomain(labels, labels.Keys, values, key);
      var k :| k in labels && NewKey(k, values) == key && Lives(k, values);
      NewKeysAreStable(k, values);
    }
    StableLabelsStay(Renamed(labels, values), values);
  }

  lemma {:induction false} RequirementsTwice(requirements: seq<Requirement>, values: seq<LabelMapping>)
    requires DistinctTargets(values) && Unchained(values)
    ensures var once := RewrittenRequirements(requirements, values); RewrittenRequirements(once, values) == once
  {
    hide DistinctTargets, Unchained;
    if requirements != [] {
      RequirementsTwice(requirements[1..], values);
      if Lives(requirements[0].key, values) {
        NewKeysAreStable(requirements[0].key, values);
      }
    }
  }

  lemma {:induction false} ConstraintsTwice(constraints: seq<Constraint>, values: seq<LabelMapping>)
    requires DistinctTargets(values) && Unchained(values)
    ensures var once := RewrittenConstraints(constraints, values); RewrittenConstraints(once, values) == once
  {
    hide DistinctTargets, Unchained;
    if constraints != [] {
      ConstraintsTwice(constraints[1..], values);
      if Lives(constraints[0].topologyKey, values) {
        NewKeysAreStable(constraints[0].topologyKey, values);
      }
    }
  }

  lemma TermTwice(term: Term, values: seq<LabelMapping>)
    requires DistinctTargets(values) && Unchained(values)
    ensures var once := RewrittenTerm(term, values); RewrittenTerm(once, values) == once
  {
    hide DistinctTargets, Unchained;
    RequirementsTwice(Listed(term.expressions), values);
    RequirementsTwice(Listed(term.fields), values);
  }

  lemma {:induction false} TermsTwice(terms: seq<Term>, values: seq<LabelMapping>)
    requires DistinctTargets(values) && Unchained(values)
    ensures var once := RewrittenTerms(terms, values); RewrittenTerms(once, values) == once
  {
    hide DistinctTargets, Unchained;
    if terms != [] {
      TermTwice(terms[0], values);
      TermsTwice(terms[1..], values);
    }
  }

  lemma {:induction false} PreferredTwice(preferred: seq<Preferred>, values: seq<LabelMapping>)
    requires DistinctTargets(values) && Unchained(values)
    ensures var once := RewrittenPreferred(preferred, values); RewrittenPreferred(once, values) == once
  {
    hide DistinctTargets, Unchained;
    if preferred != [] {
      TermTwice(preferred[0].preference, values);
      PreferredTwice(preferred[1..], values);
    }
  }

  /** Without chains the rewrite of a Pod's scheduling fields is a fixpoint. */
  lemma PlacementTwice(p: Placement, values: seq<LabelMapping>)
    requires DistinctTargets(values) && Unchained(values)
    ensures var once := RewrittenPlacement(p, values); RewrittenPlacement(once, values) == once
  {
    hide DistinctTargets, Unchained, Renamed, RewrittenTerms, RewrittenPreferred, RewrittenConstraints;
    if p.nodeSelector.Some? {
      RenamedIsStable(p.nodeSelector.value, values);
    }
    if p.spread.Some? {
      ConstraintsTwice(p.spread.value, values);
    }
    TermsTwice(TermsOf(p), values);
    if p.affinity.Some? && p.affinity.value.node.Some? && p.affinity.value.node.value.preferred.Some? {
      PreferredTwice(p.affinity.value.node.value.preferred.value, values);
    }
  }
}
