/** SUM and COUNT over the rows of a table. */
module Sums {

  function SumBy<T>(s: seq<T>, f: T -> int): int {
    if s == [] then 0 else SumBy(s[..|s| - 1], f) + f(s[|s| - 1])
  }

  function CountBy<T>(s: seq<T>, p: T -> bool): nat {
    if s == [] then 0 else CountBy(s[..|s| - 1], p) + if p(s[|s| - 1]) then 1 else 0
  }

  lemma {:induction false} SumAgrees<T, U>(s: seq<T>, f: T -> int, t: seq<U>, g: U -> int)
    requires |s| == |t| && forall i :: 0 <= i < |s| ==> f(s[i]) == g(t[i])
    ensures SumBy(s, f) == SumBy(t, g)
  {
    if s != [] {
      SumAgrees(s[..|s| - 1], f, t[..|t| - 1], g);
    }
  }

  lemma {:induction false} SumNonNegative<T>(s: seq<T>, f: T -> int)
    requires forall i :: 0 <= i < |s| ==> f(s[i]) >= 0
    ensures SumBy(s, f) >= 0
  {
    if s != [] {
      SumNonNegative(s[..|s| - 1], f);
    }
  }

  lemma {:induction false} SumZero<T>(s: seq<T>, f: T -> int)
    requires forall i :: 0 <= i < |s| ==> f(s[i]) == 0
    ensures SumBy(s, f) == 0
  {
    if s != [] {
      SumZero(s[..|s| - 1], f);
    }
  }

  /** Only one row contributes. */
  lemma {:induction false} SumSingle<T>(s: seq<T>, f: T -> int, i: nat)
    requires i < |s| && forall j :: 0 <= j < |s| && j != i ==> f(s[j]) == 0
    ensures SumBy(s, f) == f(s[i])
  {
    if i == |s| - 1 {
      SumZero(s[..|s| - 1], f);
    } else {
      SumSingle(s[..|s| - 1], f, i);
    }
  }

  lemma {:induction false} SumPlus<T>(s: seq<T>, f: T -> int, g: T -> int, h: T -> int)
    requires forall i :: 0 <= i < |s| ==> h(s[i]) == f(s[i]) + g(s[i])
    ensures SumBy(s, h) == SumBy(s, f) + SumBy(s, g)
  {
    if s != [] {
      SumPlus(s[..|s| - 1], f, g, h);
    }
  }

  /** The sum over ys of f(x, y), as a function of x. */
  function RowSum<T, U>(ys: seq<U>, f: (T, U) -> int): T -> int {
    x => SumBy(ys, y => f(x, y))
  }

  /** The sum over xs of f(x, y), as a function of y. */
  function ColumnSum<T, U>(xs: seq<T>, f: (T, U) -> int): U -> int {
    y => SumBy(xs, x => f(x, y))
  }

  lemma RowSumIs<T, U>(ys: seq<U>, f: (T, U) -> int, x: T, g: U -> int)
    requires forall i :: 0 <= i < |ys| ==> f(x, ys[i]) == g(ys[i])
    ensures RowSum(ys, f)(x) == SumBy(ys, g)
  {
    SumAgrees(ys, y => f(x, y), ys, g);
  }

  lemma ColumnSumIs<T, U>(xs: seq<T>, f: (T, U) -> int, y: U, g: T -> int)
    requires forall i :: 0 <= i < |xs| ==> f(xs[i], y) == g(xs[i])
    ensures ColumnSum(xs, f)(y) == SumBy(xs, g)
  {
    SumAgrees(xs, x => f(x, y), xs, g);
  }

  /** Summing a table by rows or by columns gives the same total. */
  lemma {:induction false} SumExchange<T, U>(xs: seq<T>, ys: seq<U>, f: (T, U) -> int)
    ensures SumBy(xs, RowSum(ys, f)) == SumBy(ys, ColumnSum(xs, f))
    decreases |xs|
  {
    if xs == [] {
      SumZero(ys, ColumnSum(xs, f));
    } else {
      var init, last := xs[..|xs| - 1], xs[|xs| - 1];
      SumExchange(init, ys, f);
      SumPlus(ys, ColumnSum(init, f), y => f(last, y), ColumnSum(xs, f));
    }
  }

  lemma {:induction false} CountAgrees<T, U>(s: seq<T>, p: T -> bool, t: seq<U>, q: U -> bool)
    requires |s| == |t| && forall i :: 0 <= i < |s| ==> (p(s[i]) <==> q(t[i]))
    ensures CountBy(s, p) == CountBy(t, q)
  {
    if s != [] {
      CountAgrees(s[..|s| - 1], p, t[..|t| - 1], q);
    }
  }

  lemma {:induction false} CountAtMost<T, U>(s: seq<T>, p: T -> bool, t: seq<U>, q: U -> bool)
    requires |s| == |t| && forall i :: 0 <= i < |s| ==> (p(s[i]) ==> q(t[i]))
    ensures CountBy(s, p) <= CountBy(t, q)
  {
    if s != [] {
      CountAtMost(s[..|s| - 1], p, t[..|t| - 1], q);
    }
  }

  /** A count is zero exactly when no row qualifies. */
  lemma {:induction false} CountZero<T>(s: seq<T>, p: T -> bool)
    ensures CountBy(s, p) == 0 <==> forall i :: 0 <= i < |s| ==> !p(s[i])
  {
    if s != [] {
      CountZero(s[..|s| - 1], p);
    }
  }

  /** The places of the rows that qualify. */
  function Places<T>(s: seq<T>, p: T -> bool): set<int> {
    set i | 0 <= i < |s| && p(s[i])
  }

  lemma PlacesGrow<T>(s: seq<T>, p: T -> bool)
    requires s != []
    ensures Places(s, p) == Places(s[..|s| - 1], p) + if p(s[|s| - 1]) then {|s| - 1} else {}
    ensures |s| - 1 !in Places(s[..|s| - 1], p)
  {
  }

  /** A count is the number of rows that qualify. */
  lemma {:induction false} CountIsRows<T>(s: seq<T>, p: T -> bool)
    ensures CountBy(s, p) == |Places(s, p)|
  {
    hide Places;
    if s == [] {
      NoPlaces(s, p);
    } else {
      CountIsRows(s[..|s| - 1], p);
      PlacesGrow(s, p);
    }
  }

  lemma NoPlaces<T>(s: seq<T>, p: T -> bool)
    requires s == []
    ensures Places(s, p) == {}
  {
  }

  lemma {:induction false} CountSingle<T>(s: seq<T>, p: T -> bool, i: nat)
    requires i < |s| && p(s[i]) && forall j :: 0 <= j < |s| && j != i ==> !p(s[j])
    ensures CountBy(s, p) == 1
  {
    if i == |s| - 1 {
      CountZero(s[..|s| - 1], p);
    } else {
      CountSingle(s[..|s| - 1], p, i);
    }
  }

  /** A count of one leaves room for one qualifying row. */
  lemma {:induction false} CountOneIsUnique<T>(s: seq<T>, p: T -> bool, i: nat, j: nat)
    requires i < |s| && j < |s| && p(s[i]) && p(s[j]) && CountBy(s, p) == 1
    ensures i == j
  {
    var init := s[..|s| - 1];
    CountZero(init, p);
    assert forall k :: 0 <= k < |init| ==> init[k] == s[k];
    if i < |init| && j < |init| {
      CountOneIsUnique(init, p, i, j);
    }
  }

  /** A count changes by the rows that start to qualify less those that stop. */
  lemma {:induction false} CountChanges<T>(
      s: seq<T>, p: T -> bool, t: seq<T>, q: T -> bool, gained: T -> bool, lost: T -> bool)
    requires |s| == |t|
    requires forall i :: 0 <= i < |s| ==> (gained(s[i]) <==> !p(s[i]) && q(t[i]))
    requires forall i :: 0 <= i < |s| ==> (lost(s[i]) <==> p(s[i]) && !q(t[i]))
    ensures CountBy(t, q) + CountBy(s, lost) == CountBy(s, p) + CountBy(s, gained)
  {
    if s != [] {
      CountChanges(s[..|s| - 1], p, t[..|t| - 1], q, gained, lost);
    }
  }
}
