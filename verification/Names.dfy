/** Session names: the numbered candidates of `uniqueName` in hub.go. */
module Names {

  function Digit(d: nat): char
    requires d < 10
  {
    "0123456789"[d]
  }

  /** Decimal notation. */
  function Decimal(n: nat): string {
    if n < 10 then [Digit(n)] else Decimal(n / 10) + [Digit(n % 10)]
  }

  lemma {:induction false} DecimalNonEmpty(n: nat)
    ensures |Decimal(n)| >= 1 && (n >= 10 ==> |Decimal(n)| >= 2)
  {
    if n >= 10 {
      DecimalNonEmpty(n / 10);
    }
  }

  lemma {:induction false} DecimalInjective(m: nat, n: nat)
    requires Decimal(m) == Decimal(n)
    ensures m == n
  {
    var a, b := Decimal(m), Decimal(n);
    assert a[|a| - 1] == Digit(m % 10) && b[|b| - 1] == Digit(n % 10);
    assert m % 10 == n % 10;
    DecimalNonEmpty(m);
    DecimalNonEmpty(n);
    if m >= 10 && n >= 10 {
      assert a[..|a| - 1] == Decimal(m / 10) && b[..|b| - 1] == Decimal(n / 10);
      DecimalInjective(m / 10, n / 10);
    }
  }

  /** The n-th name tried: the name itself, then "name 2", "name 3", and so on. */
  function Candidate(base: string, n: nat): string {
    if n <= 1 then base else base + " " + Decimal(n)
  }

  lemma CandidatesDiffer(base: string, m: nat, n: nat)
    requires 1 <= m < n
    ensures Candidate(base, m) != Candidate(base, n)
  {
    var suffix := " " + Decimal(n);
    assert Candidate(base, n) == base + suffix;
    if m == 1 {
      assert |base + suffix| > |base|;
    } else if Candidate(base, m) == Candidate(base, n) {
      assert Candidate(base, m) == base + (" " + Decimal(m));
      assert (base + (" " + Decimal(m)))[|base| + 1..] == Decimal(m);
      assert (base + suffix)[|base| + 1..] == Decimal(n);
      DecimalInjective(m, n);
    }
  }

  /** Pigeonhole: names that include the first `n` candidates are at least `n` many. */
  lemma {:induction false} CandidatesCount(base: string, n: nat, names: set<string>)
    requires forall k :: 1 <= k <= n ==> Candidate(base, k) in names
    ensures n <= |names|
  {
    if n > 0 {
      var last := Candidate(base, n);
      forall k | 1 <= k <= n - 1
        ensures Candidate(base, k) in names - {last}
      {
        CandidatesDiffer(base, k, n);
      }
      CandidatesCount(base, n - 1, names - {last});
      assert |names - {last}| == |names| - 1;
    }
  }

  /** The first candidate from the n-th on that is not in use. */
  function FirstFree(base: string, n: nat, names: map<string, nat>): (r: string)
    requires n >= 1
    requires forall k :: 1 <= k < n ==> Candidate(base, k) in names
    ensures r !in names
    ensures exists m :: n <= m <= |names| + 1 && r == Candidate(base, m)
                        && forall k :: 1 <= k < m ==> Candidate(base, k) in names
    decreases |names| + 1 - n
  {
    CandidatesCount(base, n - 1, names.Keys);
    assert n - 1 <= |names|;
    if Candidate(base, n) in names then
      CandidatesCount(base, n, names.Keys);
      FirstFree(base, n + 1, names)
    else Candidate(base, n)
  }

  function UniqueName(base: string, names: map<string, nat>): (r: string)
    ensures r !in names
    ensures base !in names ==> r == base
  {
    FirstFree(base, 1, names)
  }

  const MAX_NAME_LEN: nat := 16

  lemma {:induction false} DecimalGrows(m: nat, n: nat)
    requires m <= n
    ensures |Decimal(m)| <= |Decimal(n)|
  {
    if m >= 10 {
      DecimalGrows(m / 10, n / 10);
    } else {
      DecimalNonEmpty(n);
    }
  }

  /** The numbered name is not checked again: it is within the limit exactly when some candidate
      within the limit is free. */
  lemma NameFitsIff(base: string, names: map<string, nat>)
    ensures |UniqueName(base, names)| <= MAX_NAME_LEN <==>
            exists n :: n >= 1 && Candidate(base, n) !in names && |Candidate(base, n)| <= MAX_NAME_LEN
  {
    var name := UniqueName(base, names);
    var m :| 1 <= m <= |names| + 1 && name == Candidate(base, m) && forall k :: 1 <= k < m ==> Candidate(base, k) in names;
    forall n | n >= 1 && Candidate(base, n) !in names && |Candidate(base, n)| <= MAX_NAME_LEN
      ensures |name| <= MAX_NAME_LEN
    {
      assert n >= m;
      DecimalGrows(m, n);
    }
  }

  /** An acceptable name of sixteen characters that is taken becomes one of eighteen. */
  lemma LongNameExample()
    ensures var base := "0123456789abcdef";
            |base| == MAX_NAME_LEN && |UniqueName(base, map[base := 1])| == 18
  {
    var base := "0123456789abcdef";
    var names := map[base := 1];
    var name := UniqueName(base, names);
    var m :| 1 <= m <= |names| + 1 && name == Candidate(base, m) && forall k :: 1 <= k < m ==> Candidate(base, k) in names;
    assert Candidate(base, 1) == base;
    assert m == 2;
    assert Decimal(2) == [Digit(2)];
  }

  /** The program's loop: it stops at the first unused candidate, within one try per name in use. */
  method FindUniqueName(base: string, names: map<string, nat>) returns (name: string)
    ensures name == UniqueName(base, names)
  {
    name := base;
    var n := 2;
    while name in names
      invariant 2 <= n <= |names| + 2 && name == Candidate(base, n - 1)
      invariant forall k :: 1 <= k < n - 1 ==> Candidate(base, k) in names
      invariant FirstFree(base, n - 1, names) == UniqueName(base, names)
      decreases |names| + 2 - n
    {
      CandidatesCount(base, n - 1, names.Keys);
      name := base + " " + Decimal(n);
      n := n + 1;
    }
  }
}
