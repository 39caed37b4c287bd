/** sorted(): a stable sort by a total order, with the facts its callers use. */
module Sorting {

  ghost predicate TotalOrder<T(!new)>(leq: (T, T) -> bool) {
    && (forall x, y :: leq(x, y) || leq(y, x))
    && (forall x, y :: leq(x, y) && leq(y, x) ==> x == y)
    && (forall x, y, z :: leq(x, y) && leq(y, z) ==> leq(x, z))
  }

  ghost predicate Ascending<T>(s: seq<T>, leq: (T, T) -> bool) {
    forall i, j :: 0 <= i < j < |s| ==> leq(s[i], s[j])
  }

  function Insert<T>(x: T, s: seq<T>, leq: (T, T) -> bool): seq<T> {
    if s == [] || leq(x, s[0]) then [x] + s else [s[0]] + Insert(x, s[1..], leq)
  }

  function Sorted<T>(s: seq<T>, leq: (T, T) -> bool): seq<T> {
    if s == [] then [] else Insert(s[0], Sorted(s[1..], leq), leq)
  }

  lemma HeadAndTail<T>(s: seq<T>)
    requires s != []
    ensures s == [s[0]] + s[1..] && multiset(s) == multiset{s[0]} + multiset(s[1..])
  {
    assert s == [s[0]] + s[1..];
  }

  lemma {:induction false} InsertKeeps<T>(x: T, s: seq<T>, leq: (T, T) -> bool)
    ensures multiset(Insert(x, s, leq)) == multiset{x} + multiset(s)
    ensures |Insert(x, s, leq)| == |s| + 1
  {
    if s != [] && !leq(x, s[0]) {
      InsertKeeps(x, s[1..], leq);
      HeadAndTail(s);
    }
  }

  lemma {:induction false} InsertFacts<T(!new)>(x: T, s: seq<T>, leq: (T, T) -> bool)
    requires TotalOrder(leq) && Ascending(s, leq)
    ensures Ascending(Insert(x, s, leq), leq)
    ensures multiset(Insert(x, s, leq)) == multiset{x} + multiset(s)
    ensures |Insert(x, s, leq)| == |s| + 1
  {
    InsertKeeps(x, s, leq);
    if s != [] && !leq(x, s[0]) {
      InsertFacts(x, s[1..], leq);
      var rest := Insert(x, s[1..], leq);
      forall j | 0 <= j < |rest| ensures leq(s[0], rest[j]) {
        assert rest[j] in multiset(rest);
        assert rest[j] == x || rest[j] in s[1..];
      }
    }
  }

  /** The result is ascending and rearranges the input. */
  lemma {:induction false} SortedFacts<T(!new)>(s: seq<T>, leq: (T, T) -> bool)
    requires TotalOrder(leq)
    ensures Ascending(Sorted(s, leq), leq)
    ensures multiset(Sorted(s, leq)) == multiset(s)
    ensures |Sorted(s, leq)| == |s|
  {
    if s != [] {
      SortedFacts(s[1..], leq);
      InsertFacts(s[0], Sorted(s[1..], leq), leq);
      HeadAndTail(s);
    }
  }

  /** The least element comes first. */
  lemma FirstIsLeast<T(!new)>(s: seq<T>, t: seq<T>, leq: (T, T) -> bool)
    requires TotalOrder(leq) && Ascending(s, leq) && s != [] && t != [] && t[0] in multiset(s)
    ensures leq(s[0], t[0])
  {
    var i :| 0 <= i < |s| && s[i] == t[0];
    assert leq(s[0], s[0]);
  }

  /** An ascending list is determined by what it contains. */
  lemma {:induction false} AscendingUnique<T(!new)>(s: seq<T>, t: seq<T>, leq: (T, T) -> bool)
    requires TotalOrder(leq) && Ascending(s, leq) && Ascending(t, leq)
    requires multiset(s) == multiset(t)
    ensures s == t
  {
    assert |s| == |multiset(s)| == |multiset(t)| == |t|;
    if s != [] {
      assert s[0] in multiset(s) && t[0] in multiset(t);
      FirstIsLeast(s, t, leq);
      FirstIsLeast(t, s, leq);
      HeadAndTail(s);
      HeadAndTail(t);
      assert multiset(s[1..]) == multiset(s) - multiset{s[0]};
      AscendingUnique(s[1..], t[1..], leq);
    }
  }

  /** Sorting forgets the order of its input. */
  lemma SortedIgnoresOrder<T(!new)>(s: seq<T>, t: seq<T>, leq: (T, T) -> bool)
    requires TotalOrder(leq) && multiset(s) == multiset(t)
    ensures Sorted(s, leq) == Sorted(t, leq)
  {
    SortedFacts(s, leq);
    SortedFacts(t, leq);
    AscendingUnique(Sorted(s, leq), Sorted(t, leq), leq);
  }
}
