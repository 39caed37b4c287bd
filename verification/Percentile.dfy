/** The nearest-rank percentile of the latency measurements. */
module Percentile {
  import opened Wrappers
  import opened Sorting

  datatype Failure = NoTimings | RankOutOfRange

  const LEQ: (real, real) -> bool := (x, y) => x <= y

  /** math.ceil */
  function Ceiling(x: real): int {
    if x.Floor as real == x then x.Floor else x.Floor + 1
  }

  /** The one-based position that covers a share of the values. */
  function Rank(share: real): (rank: int)
    ensures rank >= 1 && rank as real >= share
    ensures share > 0.0 ==> ((rank - 1) as real) < share
  {
    var c := Ceiling(share);
    if c < 1 then 1 else c
  }

  /** The element that covers a share of the values; the share is the percentile times their number. */
  function AtShare(values: seq<real>, share: real): Result<real, Failure> {
    if values == [] then Err(NoTimings)
    else
      var ordered := Sorted(values, LEQ);
      if Rank(share) <= |ordered| then Ok(ordered[Rank(share) - 1]) else Err(RankOutOfRange)
  }

  function NearestRank(values: seq<real>, percentile: real): Result<real, Failure> {
    AtShare(values, percentile * |values| as real)
  }

  /** How many values satisfy p. */
  ghost function Tally(values: seq<real>, p: real -> bool): nat {
    if values == [] then 0 else (if p(values[0]) then 1 else 0) + Tally(values[1..], p)
  }

  lemma {:induction false} TallyInsert(x: real, s: seq<real>, p: real -> bool)
    ensures Tally(Insert(x, s, LEQ), p) == Tally([x] + s, p)
  {
    if s != [] && !LEQ(x, s[0]) {
      TallyInsert(x, s[1..], p);
      var inserted := Insert(x, s, LEQ);
      assert inserted[1..] == Insert(x, s[1..], LEQ);
      assert ([x] + s[1..])[1..] == s[1..] && ([x] + s)[1..] == s;
    }
  }

  lemma {:induction false} TallySorted(s: seq<real>, p: real -> bool)
    ensures Tally(Sorted(s, LEQ), p) == Tally(s, p)
  {
    if s != [] {
      TallySorted(s[1..], p);
      TallyInsert(s[0], Sorted(s[1..], LEQ), p);
      assert ([s[0]] + Sorted(s[1..], LEQ))[1..] == Sorted(s[1..], LEQ);
    }
  }

  lemma {:induction false} TallyBounds(s: seq<real>, p: real -> bool, lo: nat, hi: nat)
    requires lo <= |s| && hi <= |s|
    requires forall i :: 0 <= i < lo ==> p(s[i])
    requires forall i :: hi <= i < |s| ==> !p(s[i])
    ensures lo <= Tally(s, p) <= hi
  {
    if s != [] {
      TallyBounds(s[1..], p, if lo == 0 then 0 else lo - 1, if hi == 0 then 0 else hi - 1);
    }
  }

  lemma ShareBounds(percentile: real, n: nat)
    requires n >= 1 && 0.0 < percentile <= 1.0
    ensures 0.0 < percentile * n as real <= n as real
  {
  }

  lemma SortedReals(values: seq<real>)
    ensures |Sorted(values, LEQ)| == |values|
    ensures forall i, j :: 0 <= i < j < |values| ==> Sorted(values, LEQ)[i] <= Sorted(values, LEQ)[j]
    ensures forall i :: 0 <= i < |values| ==> Sorted(values, LEQ)[i] in values
  {
    var ordered := Sorted(values, LEQ);
    SortedFacts(values, LEQ);
    forall i | 0 <= i < |values| ensures ordered[i] in values {
      assert ordered[i] in multiset(ordered);
    }
  }

  ghost predicate IsNearestRank(values: seq<real>, share: real, r: real) {
    && r in values
    && Tally(values, v => v <= r) as real >= share
    && (Tally(values, v => v < r) as real) < share
  }

  lemma RankedElement(values: seq<real>, share: real)
    requires values != [] && 0.0 < share <= |values| as real
    ensures AtShare(values, share).Ok? && IsNearestRank(values, share, AtShare(values, share).value)
  {
    var ordered, rank := Sorted(values, LEQ), Rank(share);
    SortedReals(values);
    assert rank <= |values|;
    var r := ordered[rank - 1];
    TallySorted(values, v => v <= r);
    TallySorted(values, v => v < r);
    TallyBounds(ordered, v => v <= r, rank, |values|);
    TallyBounds(ordered, v => v < r, 0, rank - 1);
  }

  /** No values, or a share of more than all of them, give no result; a share of none gives the least value. */
  lemma OutsideShares(values: seq<real>, share: real)
    ensures values == [] ==> AtShare(values, share) == Err(NoTimings)
    ensures values != [] && share > |values| as real ==> AtShare(values, share) == Err(RankOutOfRange)
    ensures values != [] && share <= 0.0 ==>
      && AtShare(values, share).Ok? && AtShare(values, share).value in values
      && forall i :: 0 <= i < |values| ==> AtShare(values, share).value <= values[i]
  {
    SortedReals(values);
    if values != [] && share <= 0.0 {
      var ordered := Sorted(values, LEQ);
      SortedFacts(values, LEQ);
      forall i | 0 <= i < |values| ensures ordered[0] <= values[i] {
        assert values[i] in multiset(ordered);
        var j :| 0 <= j < |ordered| && ordered[j] == values[i];
      }
    }
  }

  /**
   * For 0 < p <= 1 the result is one of the values, at least p * n values are not above it,
   * and fewer than p * n values are below it.
   */
  lemma NearestRankMeaning(values: seq<real>, percentile: real)
    requires values != [] && 0.0 < percentile <= 1.0
    ensures NearestRank(values, percentile).Ok?
    ensures IsNearestRank(values, percentile * |values| as real, NearestRank(values, percentile).value)
  {
    ShareBounds(percentile, |values|);
    RankedElement(values, percentile * |values| as real);
  }
}
