/** Choosing an unused name for a downloaded file. */
module TempNames {
  import opened Text

  /** The k-th name that is tried; number zero is the server's own name. */
  function Candidate(stem: string, suffix: string, k: nat): string {
    if k == 0 then stem + suffix else stem + "_" + Decimal(k) + suffix
  }

  lemma CandidatesDiffer(stem: string, suffix: string, j: nat, k: nat)
    requires j < k
    ensures Candidate(stem, suffix, j) != Candidate(stem, suffix, k)
  {
    var b := Candidate(stem, suffix, k);
    var middle := "_" + Decimal(k);
    assert b == stem + middle + suffix;
    if j == 0 {
      assert |b| > |stem + suffix|;
    } else if Candidate(stem, suffix, j) == b {
      var other := "_" + Decimal(j);
      assert b == stem + other + suffix;
      assert |middle| == |other|;
      assert b[|stem| + 1..|stem| + |middle|] == Decimal(k);
      assert b[|stem| + 1..|stem| + |other|] == Decimal(j);
      DecimalInjective(j, k);
    }
  }

  /**
   * The search ends on the first candidate that is not in use, after at most one more probe
   * than there are files.
   */
  method ChooseName(existing: set<string>, stem: string, suffix: string)
    returns (candidate: string, probes: nat)
    ensures 1 <= probes <= |existing| + 1
    ensures candidate == Candidate(stem, suffix, probes - 1) && candidate !in existing
    ensures forall k :: 0 <= k < probes - 1 ==> Candidate(stem, suffix, k) in existing
    ensures stem + suffix !in existing ==> candidate == stem + suffix
    ensures probes > 1 ==>
      && stem + suffix in existing && candidate == stem + "_" + Decimal(probes - 1) + suffix
      && forall k :: 1 <= k < probes - 1 ==> stem + "_" + Decimal(k) + suffix in existing
  {
    candidate := stem + suffix;
    var counter := 1;
    ghost var tried: set<string> := {};
    while candidate in existing
      invariant counter >= 1 && candidate == Candidate(stem, suffix, counter - 1)
      invariant |tried| == counter - 1 && tried <= existing
      invariant tried == set k | 0 <= k < counter - 1 :: Candidate(stem, suffix, k)
      decreases |existing| - |tried|
    {
      forall k | 0 <= k < counter - 1 ensures Candidate(stem, suffix, k) != candidate {
        CandidatesDiffer(stem, suffix, k, counter - 1);
      }
      tried := tried + {candidate};
      Within(tried, existing);
      candidate := stem + "_" + Decimal(counter) + suffix;
      counter := counter + 1;
    }
    probes := counter;
    Within(tried, existing);
    assert forall k :: 0 <= k < probes - 1 ==> Candidate(stem, suffix, k) in tried;
    assert Candidate(stem, suffix, 0) == stem + suffix;
    assert forall k :: 1 <= k < probes - 1 ==> Candidate(stem, suffix, k) == stem + "_" + Decimal(k) + suffix;
  }

  /** The pigeonhole step: a set inside a finite set is no larger. */
  lemma {:induction false} Within(a: set<string>, b: set<string>)
    requires a <= b
    ensures |a| <= |b|
  {
    if a != {} {
      var x :| x in a;
      Within(a - {x}, b - {x});
    }
  }
}
