/**
 Registry prefixes of images (internal/transform/rules.go:263-271) and the profile
 validation that guards them (internal/domain/mapping/model.go:112-130).
 */
module ImagePrefixes {
  datatype KeyValue = KeyValue(source: string, target: string)

  /** strings.TrimSuffix(text, "/"): at most one slash goes. */
  function TrimSlash(text: string): string {
    if text != [] && text[|text| - 1] == '/' then text[..|text| - 1] else text
  }

  /** prefix is text, or a leading part of it that ends before a slash. */
  predicate PathPrefix(prefix: string, text: string) {
    prefix <= text && (|prefix| == |text| || text[|prefix|] == '/')
  }

  function Source(rule: KeyValue): string { TrimSlash(rule.source) }

  function Target(rule: KeyValue): string { TrimSlash(rule.target) }

  /** The first rule whose source is a path prefix of the image replaces that prefix. */
  function RewritePrefix(image: string, rules: seq<KeyValue>): string {
    if rules == [] then image
    else if PathPrefix(Source(rules[0]), image) then Target(rules[0]) + image[|Source(rules[0])|..]
    else RewritePrefix(image, rules[1..])
  }

  predicate Overlap(a: string, b: string) { PathPrefix(a, b) || PathPrefix(b, a) }

  ghost predicate Disjoint(rules: seq<KeyValue>) {
    forall i, j :: 0 <= i < j < |rules| ==> !Overlap(Source(rules[i]), Source(rules[j]))
  }

  /** An image the rewrite produces may only meet a rule that changes nothing. */
  ghost predicate Settled(rules: seq<KeyValue>) {
    forall i, j :: 0 <= i < |rules| && 0 <= j < |rules| && Overlap(Source(rules[j]), Target(rules[i])) ==> Source(rules[j]) == Target(rules[j])
  }

  lemma PrefixesOfOneTextOverlap(a: string, b: string, text: string)
    requires PathPrefix(a, text) && PathPrefix(b, text)
    ensures Overlap(a, b)
  {
  }

  lemma {:induction false} UsesTheOnlyRule(image: string, rules: seq<KeyValue>, i: nat)
    requires Disjoint(rules) && i < |rules| && PathPrefix(Source(rules[i]), image)
    ensures RewritePrefix(image, rules) == Target(rules[i]) + image[|Source(rules[i])|..]
  {
    if i > 0 {
      if PathPrefix(Source(rules[0]), image) {
        PrefixesOfOneTextOverlap(Source(rules[0]), Source(rules[i]), image);
        assert false;
      }
      UsesTheOnlyRule(image, rules[1..], i - 1);
    }
  }

  lemma {:induction false} UnmatchedIsUnchanged(image: string, rules: seq<KeyValue>)
    requires forall i :: 0 <= i < |rules| ==> !PathPrefix(Source(rules[i]), image)
    ensures RewritePrefix(image, rules) == image
  {
    if rules != [] {
      UnmatchedIsUnchanged(image, rules[1..]);
    }
  }

  lemma IdentityRule(image: string, rules: seq<KeyValue>, j: nat)
    requires Disjoint(rules) && j < |rules| && PathPrefix(Source(rules[j]), image)
    ensures RewritePrefix(image, rules) == image <==> Source(rules[j]) == Target(rules[j])
  {
    var source, target := Source(rules[j]), Target(rules[j]);
    UsesTheOnlyRule(image, rules, j);
    assert image == source + image[|source|..];
    if target + image[|source|..] == image {
      assert |target| == |source|;
      assert target == (target + image[|source|..])[..|target|] == image[..|source|] == source;
    }
  }

  /** Any rule met by target + rest overlaps the target, because rest is empty or starts with a slash. */
  lemma RuleMetByTheResult(source: string, target: string, rest: string)
    requires PathPrefix(source, target + rest) && (rest == [] || rest[0] == '/')
    ensures Overlap(source, target)
  {
  }

  lemma SettledImage(image: string, rules: seq<KeyValue>)
    requires Disjoint(rules) && Settled(rules)
    ensures RewritePrefix(RewritePrefix(image, rules), rules) == RewritePrefix(image, rules)
  {
    if i :| 0 <= i < |rules| && PathPrefix(Source(rules[i]), image) {
      UsesTheOnlyRule(image, rules, i);
      var rest := image[|Source(rules[i])|..];
      var result := Target(rules[i]) + rest;
      if j :| 0 <= j < |rules| && PathPrefix(Source(rules[j]), result) {
        RuleMetByTheResult(Source(rules[j]), Target(rules[i]), rest);
        IdentityRule(result, rules, j);
      } else {
        UnmatchedIsUnchanged(result, rules);
      }
    } else {
      UnmatchedIsUnchanged(image, rules);
    }
  }

  /** Rules i and j meet: this image is rewritten by i to something j rewrites again. */
  lemma UnsettledImage(rules: seq<KeyValue>, i: nat, j: nat) returns (image: string)
    requires Disjoint(rules) && i < |rules| && j < |rules|
    requires Overlap(Source(rules[j]), Target(rules[i])) && Source(rules[j]) != Target(rules[j])
    ensures RewritePrefix(RewritePrefix(image, rules), rules) != RewritePrefix(image, rules)
  {
    var source, target := Source(rules[j]), Target(rules[i]);
    var rest := if PathPrefix(source, target) then [] else source[|target|..];
    image := Source(rules[i]) + rest;
    assert PathPrefix(Source(rules[i]), image);
    UsesTheOnlyRule(image, rules, i);
    assert image[|Source(rules[i])|..] == rest;
    assert PathPrefix(source, target + rest) by {
      if rest != [] {
        assert target + rest == source;
      }
    }
    IdentityRule(target + rest, rules, j);
  }

  /** For non-overlapping sources, rewriting twice is rewriting once on every image exactly when the rules are settled. */
  lemma RewritingTwiceIsOnceIffSettled(rules: seq<KeyValue>)
    requires Disjoint(rules)
    ensures (forall image :: RewritePrefix(RewritePrefix(image, rules), rules) == RewritePrefix(image, rules)) <==> Settled(rules)
  {
    if Settled(rules) {
      forall image
        ensures RewritePrefix(RewritePrefix(image, rules), rules) == RewritePrefix(image, rules)
      {
        SettledImage(image, rules);
      }
    } else {
      var i, j :| 0 <= i < |rules| && 0 <= j < |rules| && Overlap(Source(rules[j]), Target(rules[i])) && Source(rules[j]) != Target(rules[j]);
      var image := UnsettledImage(rules, i, j);
    }
  }
}
