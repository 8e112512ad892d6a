/** Subsequences: what is left of a sequence after dropping some of its elements. */
module Subsequences {

  ghost predicate Subseq<T>(a: seq<T>, b: seq<T>) {
    if a == [] then true
    else if b == [] then false
    else Subseq(a, b[..|b| - 1]) || (a[|a| - 1] == b[|b| - 1] && Subseq(a[..|a| - 1], b[..|b| - 1]))
  }

  lemma {:induction false} SubseqRefl<T>(a: seq<T>)
    ensures Subseq(a, a)
  {
    if a != [] {
      SubseqRefl(a[..|a| - 1]);
    }
  }

  lemma {:induction false} SubseqFront<T>(a: seq<T>, b: seq<T>)
    requires Subseq(a, b) && a != []
    ensures Subseq(a[..|a| - 1], b)
  {
    if Subseq(a, b[..|b| - 1]) {
      SubseqFront(a, b[..|b| - 1]);
    }
  }

  lemma {:induction false} SubseqTrans<T>(a: seq<T>, b: seq<T>, c: seq<T>)
    requires Subseq(a, b) && Subseq(b, c)
    ensures Subseq(a, c)
    decreases |b| + |c|
  {
    if a == [] {
    } else if Subseq(b, c[..|c| - 1]) {
      SubseqTrans(a, b, c[..|c| - 1]);
    } else if Subseq(a, b[..|b| - 1]) {
      SubseqTrans(a, b[..|b| - 1], c[..|c| - 1]);
    } else {
      SubseqTrans(a[..|a| - 1], b[..|b| - 1], c[..|c| - 1]);
    }
  }

  lemma SubseqExtend<T>(a: seq<T>, b: seq<T>, x: T)
    requires Subseq(a, b)
    ensures Subseq(a, b + [x]) && Subseq(a + [x], b + [x])
  {
    assert (b + [x])[..|b|] == b;
    assert (a + [x])[..|a|] == a;
  }

  lemma {:induction false} SubseqAppend<T>(a: seq<T>, b: seq<T>, c: seq<T>)
    requires Subseq(a, b)
    ensures Subseq(a, b + c) && Subseq(a + c, b + c)
  {
    if c == [] {
      assert a + c == a && b + c == b;
    } else {
      var m := |c| - 1;
      SubseqAppend(a, b, c[..m]);
      SubseqExtend(a, b + c[..m], c[m]);
      SubseqExtend(a + c[..m], b + c[..m], c[m]);
      assert a + c == (a + c[..m]) + [c[m]] && b + c == (b + c[..m]) + [c[m]];
    }
  }

  /** Each element of a subsequence comes from a place in the sequence, and the places increase. */
  lemma {:induction false} SubseqPlaces<T>(a: seq<T>, b: seq<T>) returns (places: seq<nat>)
    requires Subseq(a, b)
    ensures |places| == |a|
    ensures forall i :: 0 <= i < |a| ==> places[i] < |b| && a[i] == b[places[i]]
    ensures forall i, j :: 0 <= i < j < |a| ==> places[i] < places[j]
  {
    if a == [] {
      places := [];
    } else if Subseq(a, b[..|b| - 1]) {
      places := SubseqPlaces(a, b[..|b| - 1]);
    } else {
      var front := SubseqPlaces(a[..|a| - 1], b[..|b| - 1]);
      places := front + [|b| - 1];
    }
  }
}
