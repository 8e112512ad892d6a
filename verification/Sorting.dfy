/** The library sort the program calls, and why its result does not depend on the algorithm. */
module Sorting {

  ghost predicate StrictOrder<T(!new)>(less: (T, T) -> bool) {
    && (forall a :: !less(a, a))
    && (forall a, b, c :: less(a, b) && less(b, c) ==> less(a, c))
  }

  ghost predicate Comparable<T>(less: (T, T) -> bool, s: seq<T>) {
    forall i, j :: 0 <= i < j < |s| ==> less(s[i], s[j]) || less(s[j], s[i])
  }

  ghost predicate Sorted<T>(less: (T, T) -> bool, s: seq<T>) {
    forall i, j :: 0 <= i < j < |s| ==> less(s[i], s[j])
  }

  function Insert<T>(less: (T, T) -> bool, x: T, s: seq<T>): seq<T> {
    if s == [] then [x]
    else if less(x, s[0]) then [x] + s
    else [s[0]] + Insert(less, x, s[1..])
  }

  function Sort<T>(less: (T, T) -> bool, s: seq<T>): seq<T> {
    if s == [] then [] else Insert(less, s[0], Sort(less, s[1..]))
  }

  lemma LessThanAll<T(!new)>(less: (T, T) -> bool, first: T, x: T, tail: seq<T>, rest: seq<T>)
    requires multiset(rest) == multiset(tail) + multiset{x}
    requires less(first, x) && forall j :: 0 <= j < |tail| ==> less(first, tail[j])
    ensures forall j :: 0 <= j < |rest| ==> less(first, rest[j])
  {
    forall j | 0 <= j < |rest|
      ensures less(first, rest[j])
    {
      assert rest[j] in multiset(rest);
      if rest[j] != x {
        assert rest[j] in multiset(tail);
        assert rest[j] in tail;
      }
    }
  }

  lemma OneIsSorted<T>(less: (T, T) -> bool, x: T)
    ensures Sorted(less, [x])
  {
  }

  lemma FirstIsLess<T(!new)>(less: (T, T) -> bool, x: T, s: seq<T>)
    requires StrictOrder(less) && Sorted(less, s) && s != [] && less(x, s[0])
    ensures forall j :: 0 <= j < |s| ==> less(x, s[j])
  {
    assert forall j :: 0 < j < |s| ==> less(s[0], s[j]);
  }

  lemma ConsSorted<T>(less: (T, T) -> bool, x: T, s: seq<T>)
    requires Sorted(less, s) && forall j :: 0 <= j < |s| ==> less(x, s[j])
    ensures Sorted(less, [x] + s)
  {
  }

  lemma TailSorted<T>(less: (T, T) -> bool, s: seq<T>)
    requires Sorted(less, s) && s != []
    ensures Sorted(less, s[1..])
    ensures forall j :: 0 <= j < |s| - 1 ==> less(s[0], s[1..][j])
  {
  }

  lemma {:induction false} InsertSorts<T(!new)>(less: (T, T) -> bool, x: T, s: seq<T>)
    requires StrictOrder(less) && Sorted(less, s)
    requires forall y :: y in s ==> less(x, y) || less(y, x)
    ensures Sorted(less, Insert(less, x, s))
    ensures multiset(Insert(less, x, s)) == multiset(s) + multiset{x}
  {
    hide StrictOrder, Sorted;
    if s == [] {
      OneIsSorted(less, x);
    } else if less(x, s[0]) {
      FirstIsLess(less, x, s);
      ConsSorted(less, x, s);
    } else {
      var rest := Insert(less, x, s[1..]);
      TailSorted(less, s);
      assert s == [s[0]] + s[1..];
      InsertSorts(less, x, s[1..]);
      LessThanAll(less, s[0], x, s[1..], rest);
      ConsSorted(less, s[0], rest);
    }
  }

  lemma ComparableTail<T(!new)>(less: (T, T) -> bool, s: seq<T>)
    requires Comparable(less, s) && s != []
    ensures Comparable(less, s[1..])
    ensures forall y :: y in s[1..] ==> less(s[0], y) || less(y, s[0])
  {
    forall i, j | 0 <= i < j < |s| - 1
      ensures less(s[1..][i], s[1..][j]) || less(s[1..][j], s[1..][i])
    {
      assert s[1..][i] == s[i + 1] && s[1..][j] == s[j + 1];
    }
    forall y | y in s[1..]
      ensures less(s[0], y) || less(y, s[0])
    {
      var i :| 0 <= i < |s| - 1 && s[1..][i] == y;
      assert y == s[i + 1];
    }
  }

  lemma SameSize<T>(a: seq<T>, b: seq<T>)
    requires multiset(a) == multiset(b)
    ensures |a| == |b|
  {
    assert |multiset(a)| == |a| && |multiset(b)| == |b|;
  }

  lemma {:induction false} SortSorts<T(!new)>(less: (T, T) -> bool, s: seq<T>)
    requires StrictOrder(less) && Comparable(less, s)
    ensures Sorted(less, Sort(less, s)) && multiset(Sort(less, s)) == multiset(s)
    ensures |Sort(less, s)| == |s|
  {
    if s == [] {
    } else {
      var x, rest := s[0], s[1..];
      ComparableTail(less, s);
      SortSorts(less, rest);
      forall y | y in Sort(less, rest)
        ensures less(x, y) || less(y, x)
      {
        assert y in multiset(rest);
        assert y in rest;
      }
      InsertSorts(less, x, Sort(less, rest));
      assert s == [x] + rest;
    }
    SameSize(Sort(less, s), s);
  }

  lemma TailMembers<T(!new)>(less: (T, T) -> bool, a: seq<T>, x: T)
    requires StrictOrder(less) && Sorted(less, a) && a != []
    ensures x in a[1..] <==> x in a && x != a[0]
  {
    if x in a && x != a[0] {
      var i :| 0 <= i < |a| && a[i] == x;
      assert a[1..][i - 1] == x;
    }
    if x in a[1..] {
      var i :| 0 <= i < |a[1..]| && a[1..][i] == x;
      assert a[i + 1] == x;
      assert less(a[0], a[i + 1]);
    }
  }

  /** Two strictly sorted lists of the same elements are the same list. */
  lemma {:induction false} SortedUnique<T(!new)>(less: (T, T) -> bool, a: seq<T>, b: seq<T>)
    requires StrictOrder(less) && Sorted(less, a) && Sorted(less, b)
    requires forall x :: x in a <==> x in b
    ensures a == b
  {
    assert b != [] ==> b[0] in b;
    if a == [] {
    } else {
      assert a[0] in a;
      var j :| 0 <= j < |b| && b[j] == a[0];
      assert b[0] in b;
      var i :| 0 <= i < |a| && a[i] == b[0];
      assert a[0] == b[0];
      forall x
        ensures x in a[1..] <==> x in b[1..]
      {
        TailMembers(less, a, x);
        TailMembers(less, b, x);
      }
      SortedUnique(less, a[1..], b[1..]);
      assert a == [a[0]] + a[1..] && b == [b[0]] + b[1..];
    }
  }
}
