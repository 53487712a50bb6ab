/**
 How large a restored claim is requested (internal/migration/compose_executor.go:485-505)
 and why repeated applies never shrink it (internal/adapter/kubernetes/apply.go:64-123).
 Sizes are bytes in a signed 64-bit integer that wraps around.
 */
module PvcSizing {
  import opened Wrappers

  const GI := 0x4000_0000
  const TWO_63 := 0x8000_0000_0000_0000
  const TWO_64 := 0x1_0000_0000_0000_0000

  predicate IsInt64(x: int) { -TWO_63 <= x < TWO_63 }

  function Wrap(x: int): (r: int)
    ensures IsInt64(r) && (r - x) % TWO_64 == 0
    ensures IsInt64(x) ==> r == x
  {
    (x + TWO_63) % TWO_64 - TWO_63
  }

  /** Go's integer division truncates toward zero. */
  function Quotient(x: int, d: nat): int
    requires d > 0
  {
    if x >= 0 then x / d else -((-x) / d)
  }

  /** Whole GiB, at least two. */
  function NeededGi(size: int): int {
    var needed := Quotient(Wrap(Wrap(Wrap(size + Quotient(size, 4)) + GI) - 1), GI);
    if needed < 2 then 2 else needed
  }

  /** An unreadable request counts as zero. */
  function Sized(request: Option<int>, size: int): Option<int> {
    var current := if request.Some? then request.value else 0;
    if current < Wrap(NeededGi(size) * GI) then Some(NeededGi(size) * GI) else request
  }

  /** What the claim has to hold: the snapshot and a quarter more. */
  function Required(size: int): int { size + size / 4 }

  predicate Fits(size: int) { Required(size) <= TWO_63 - GI }

  /** The least number of GiB, two at least, that holds the requirement. */
  ghost predicate LeastGi(n: int, size: int) {
    n >= 2 && n * 0x4000_0000 >= size + size / 4 && forall k :: k >= 2 && k * 0x4000_0000 >= size + size / 4 ==> n <= k
  }

  lemma NeededIsLeast(size: int)
    requires 0 <= size < TWO_63 && Fits(size)
    ensures LeastGi(NeededGi(size), size) && NeededGi(size) * GI < TWO_63
  {
  }

  /** Beyond the bound the sum turns negative, and two GiB is all that is asked for. */
  lemma OverflowAsksForTwo(size: int)
    requires 0 <= size < TWO_63 && !Fits(size)
    ensures NeededGi(size) == 2
  {
  }

  /**
   The request covers the snapshot and a quarter exactly when that fits into 64 bits or
   the claim was large enough to begin with; and it is only raised as far as necessary.
   */
  lemma RequestCoversSnapshotIffItFits(request: Option<int>, size: int)
    requires 0 <= size < TWO_63
    requires request.Some? ==> 0 <= request.value < TWO_63
    ensures var sized, current := Sized(request, size), if request.Some? then request.value else 0;
            && sized.Some? && sized.value >= current
            && (sized.value >= size + size / 4 <==> size + size / 4 <= 0x7FFF_FFFF_C000_0000 || current >= size + size / 4)
            && (Fits(size) ==> (sized == request <==> request.Some? && request.value >= NeededGi(size) * GI))
            && (sized != request ==> sized == Some(NeededGi(size) * 0x4000_0000) && (Fits(size) ==> LeastGi(NeededGi(size), size)))
  {
  }

  // ---------------------------------------------------------------- applying claims

  datatype ClaimRequest = ClaimRequest(name: string, bytes: nat)

  function Max(a: nat, b: nat): nat { if a >= b then a else b }

  /** What the claims request after one overwriting apply. */
  function Applied(requests: map<string, nat>, claims: seq<ClaimRequest>): map<string, nat> {
    if claims == [] then requests
    else
      var before, last := Applied(requests, claims[..|claims| - 1]), claims[|claims| - 1];
      before[last.name := if last.name in before then Max(before[last.name], last.bytes) else last.bytes]
  }

  predicate Grows(before: map<string, nat>, after: map<string, nat>) {
    forall name :: name in before ==> name in after && before[name] <= after[name]
  }

  lemma {:induction false} AppliedGrows(requests: map<string, nat>, claims: seq<ClaimRequest>)
    ensures Grows(requests, Applied(requests, claims))
    ensures forall c :: c in claims ==> c.name in Applied(requests, claims) && Applied(requests, claims)[c.name] >= c.bytes
  {
    if claims != [] {
      AppliedGrows(requests, claims[..|claims| - 1]);
      assert claims == claims[..|claims| - 1] + [claims[|claims| - 1]];
    }
  }

  lemma NothingApplied(requests: map<string, nat>, claims: seq<ClaimRequest>)
    ensures Applied(requests, claims[..0]) == requests
  {
  }

  lemma OneMoreApplied(requests: map<string, nat>, claims: seq<ClaimRequest>, n: nat)
    requires n < |claims|
    ensures var before, claim := Applied(requests, claims[..n]), claims[n];
            Applied(requests, claims[..n + 1]) == before[claim.name := if claim.name in before then Max(before[claim.name], claim.bytes) else claim.bytes]
  {
    assert claims[..n + 1][..n] == claims[..n];
  }

  lemma {:induction false} AppliedDomain(requests: map<string, nat>, claims: seq<ClaimRequest>, name: string)
    ensures name in Applied(requests, claims) <==> name in requests || exists c :: c in claims && c.name == name
  {
    if claims != [] {
      AppliedDomain(requests, claims[..|claims| - 1], name);
      assert claims == claims[..|claims| - 1] + [claims[|claims| - 1]];
    }
  }

  /** The next claim is there already, or was listed before. */
  predicate Clashes(requests: map<string, nat>, claims: seq<ClaimRequest>, n: nat)
    requires n < |claims|
  {
    claims[n].name in requests || exists i :: 0 <= i < n && claims[i].name == claims[n].name
  }

  /** No listed claim exists, and none is listed twice. */
  ghost predicate NewClaims(requests: map<string, nat>, claims: seq<ClaimRequest>) {
    forall n :: 0 <= n < |claims| ==> !Clashes(requests, claims, n)
  }

  /** A call that gets to a claim meets an existing one exactly if that claim clashes. */
  lemma MeetsAnExistingClaimIffClash(requests: map<string, nat>, claims: seq<ClaimRequest>, n: nat)
    requires n < |claims|
    ensures claims[n].name in Applied(requests, claims[..n]) <==> Clashes(requests, claims, n)
  {
    AppliedDomain(requests, claims[..n], claims[n].name);
    forall i | 0 <= i < n
      ensures claims[i] in claims[..n]
    {
      assert claims[..n][i] == claims[i];
    }
  }

  /** Stopped by an existing claim, or by a patch that failed, before or after it took effect. */
  datatype ApplyResult = AllApplied | Refused(at: nat) | PatchFailed(at: nat)

  /** The claims of the target namespace. */
  class TargetClaims {
    var requests: map<string, nat>
    ghost var failures: nat  // patches that failed

    constructor ()
      ensures requests == map[] && failures == 0
    {
      requests, failures := map[], 0;
    }

    /** A patch succeeds, or fails, possibly after it took effect. */
    method Patch(name: string, bytes: nat) returns (ok: bool)
      modifies this
      ensures ok ==> requests == old(requests)[name := bytes]
      ensures !ok ==> requests == old(requests) || requests == old(requests)[name := bytes]
      ensures failures == old(failures) + if ok then 0 else 1
    {
      var effective: bool := *;
      ok := *;
      if ok || effective {
        requests := requests[name := bytes];
      }
      failures := failures + if ok then 0 else 1;
    }

    /**
     One ApplyManifests call, which may stop after any claim. With overwrite a larger
     request in the cluster is kept and nothing is refused. Without, it is refused at the
     first claim that exists or is listed twice, and if no patch fails at no other time.
     */
    method Apply(claims: seq<ClaimRequest>, overwrite: bool) returns (result: ApplyResult)
      modifies this
      ensures Grows(old(requests), requests)
      ensures result.AllApplied? ==> requests == Applied(old(requests), claims)
      ensures result.Refused? ==>
                && !overwrite && result.at < |claims| && requests == Applied(old(requests), claims[..result.at])
                && Clashes(old(requests), claims, result.at) && forall n :: 0 <= n < result.at ==> !Clashes(old(requests), claims, n)
      ensures result.PatchFailed? ==>
                result.at < |claims| && requests in {Applied(old(requests), claims[..result.at]), Applied(old(requests), claims[..result.at + 1])}
      ensures result.PatchFailed? <==> failures > old(failures)
      ensures !overwrite && !result.PatchFailed? ==> (result.AllApplied? <==> NewClaims(old(requests), claims))
    {
      hide Applied, Clashes;
      ghost var before := requests;
      NothingApplied(before, claims);
      for i := 0 to |claims|
        invariant requests == Applied(before, claims[..i]) && failures == old(failures)
        invariant !overwrite ==> forall n :: 0 <= n < i ==> !Clashes(before, claims, n)
      {
        OneMoreApplied(before, claims, i);
        AppliedGrows(before, claims[..i]);
        AppliedGrows(before, claims[..i + 1]);
        MeetsAnExistingClaimIffClash(before, claims, i);
        var claim := claims[i];
        if !overwrite && claim.name in requests {
          return Refused(i);
        }
        var bytes := claim.bytes;
        if overwrite && claim.name in requests && requests[claim.name] > bytes {
          bytes := requests[claim.name];
        }
        var ok := Patch(claim.name, bytes);
        if !ok {
          return PatchFailed(i);
        }
      }
      assert claims[..|claims|] == claims;
      AppliedGrows(before, claims);
      result := AllApplied;
    }

    /** Any number of calls, failed ones included, never shrink a claim. */
    method ApplyRepeatedly(attempts: seq<(seq<ClaimRequest>, bool)>) returns (succeeded: seq<bool>)
      modifies this
      ensures |succeeded| == |attempts|
      ensures Grows(old(requests), requests)
      ensures forall i, c :: 0 <= i < |attempts| && succeeded[i] && c in attempts[i].0 ==> c.name in requests && requests[c.name] >= c.bytes
    {
      succeeded := [];
      for i := 0 to |attempts|
        invariant |succeeded| == i
        invariant Grows(old(requests), requests)
        invariant forall k, c :: 0 <= k < i && succeeded[k] && c in attempts[k].0 ==> c.name in requests && requests[c.name] >= c.bytes
      {
        AppliedGrows(requests, attempts[i].0);
        var result := Apply(attempts[i].0, attempts[i].1);
        succeeded := succeeded + [result.AllApplied?];
      }
    }
  }

  /**
   A list that was new to the cluster is new to it again, so that repeating the call
   without overwrite is not refused, exactly if the stopped call had applied nothing.
   */
  lemma RepeatableIffNothingApplied(requests: map<string, nat>, claims: seq<ClaimRequest>, n: nat)
    requires NewClaims(requests, claims) && n <= |claims|
    ensures NewClaims(Applied(requests, claims[..n]), claims) <==> n == 0
  {
    if n == 0 {
      assert claims[..n] == [];
    } else {
      AppliedDomain(requests, claims[..n], claims[0].name);
      assert claims[..n][0] == claims[0];
      assert Clashes(Applied(requests, claims[..n]), claims, 0);
    }
  }
}
