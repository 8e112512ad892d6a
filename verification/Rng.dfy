/** The splitmix64 generator of internal/game/rng.go.

    Words are naturals below 2^64; addition and multiplication wrap. A generator started
    from `seed` is at `StateAt(seed, n)` after `n` draws, and its n-th draw is
    `Draw(seed, n)`. The class `RNG` is the running generator; what the rest of the model
    needs is proved about the two functions. */
module Rng {

  const WORDS: nat := 0x1_0000_0000_0000_0000

  type Word = w: nat | w < WORDS

  const INCREMENT: nat := 0x9E3779B97F4A7C15
  const MULTIPLIER_1: nat := 0xBF58476D1CE4E5B9
  const MULTIPLIER_2: nat := 0x94D049BB133111EB

  // The inverses of the three odd constants modulo 2^64.
  const INCREMENT_INV: nat := 0xF1DE83E19937733D

  const MULTIPLIER_1_INV: nat := 0x96DE1B173F119089
  const MULTIPLIER_2_INV: nat := 0x319642B2D24D8EC3

  // ----- bitwise exclusive or, bit by bit -----

  function Xor(a: nat, b: nat): nat {
    if a == 0 && b == 0 then 0 else 2 * Xor(a / 2, b / 2) + (a % 2 + b % 2) % 2
  }

  function Power2(k: nat): (p: nat)
    ensures p > 0
  {
    if k == 0 then 1 else 2 * Power2(k - 1)
  }

  lemma {:induction false} XorBelow(a: nat, b: nat, k: nat)
    requires a < Power2(k) && b < Power2(k)
    ensures Xor(a, b) < Power2(k)
  {
    if k > 0 {
      XorBelow(a / 2, b / 2, k - 1);
    }
  }

  lemma {:induction false} XorZero(a: nat)
    ensures Xor(a, 0) == a && Xor(0, a) == a
  {
    if a > 0 {
      XorZero(a / 2);
    }
  }

  lemma {:induction false} XorSelf(a: nat)
    ensures Xor(a, a) == 0
  {
    if a > 0 {
      XorSelf(a / 2);
    }
  }

  lemma {:induction false} XorHalf(a: nat, b: nat)
    ensures Xor(a, b) / 2 == Xor(a / 2, b / 2) && Xor(a, b) % 2 == (a % 2 + b % 2) % 2
  {
  }

  lemma BitsAssociate(x: nat, y: nat, z: nat)
    requires x < 2 && y < 2 && z < 2
    ensures ((x + y) % 2 + z) % 2 == (x + (y + z) % 2) % 2
  {
  }

  lemma {:induction false} HalvesAgree(a: nat, b: nat, c: nat)
    ensures Xor(Xor(a, b), c) / 2 == Xor(Xor(a / 2, b / 2), c / 2)
    ensures Xor(a, Xor(b, c)) / 2 == Xor(a / 2, Xor(b / 2, c / 2))
    ensures Xor(Xor(a, b), c) % 2 == Xor(a, Xor(b, c)) % 2
  {
    hide Xor;
    XorHalf(a, b);
    XorHalf(b, c);
    XorHalf(Xor(a, b), c);
    XorHalf(a, Xor(b, c));
    BitsAssociate(a % 2, b % 2, c % 2);
  }

  lemma {:induction false} XorAssociates(a: nat, b: nat, c: nat)
    ensures Xor(Xor(a, b), c) == Xor(a, Xor(b, c))
    decreases a + b + c
  {
    if a + b + c > 0 {
      var left, right := Xor(Xor(a, b), c), Xor(a, Xor(b, c));
      XorAssociates(a / 2, b / 2, c / 2);
      HalvesAgree(a, b, c);
      assert left == 2 * (left / 2) + left % 2 && right == 2 * (right / 2) + right % 2;
    }
  }

  function ShiftRight(a: nat, k: nat): nat {
    if k == 0 then a else ShiftRight(a / 2, k - 1)
  }

  lemma {:induction false} ShiftDistributes(a: nat, b: nat, k: nat)
    ensures ShiftRight(Xor(a, b), k) == Xor(ShiftRight(a, k), ShiftRight(b, k))
  {
    if k > 0 {
      XorHalf(a, b);
      ShiftDistributes(a / 2, b / 2, k - 1);
    }
  }

  lemma {:induction false} ShiftAdds(a: nat, j: nat, k: nat)
    ensures ShiftRight(ShiftRight(a, j), k) == ShiftRight(a, j + k)
  {
    if j > 0 {
      ShiftAdds(a / 2, j - 1, k);
    }
  }

  lemma MultiplyUp(d: int, e: int)
    requires d > 0 && e >= 1
    ensures d * e >= d
  {
  }

  lemma QuotientUnique(a: int, d: int, q: int, r: int)
    requires d > 0 && a == d * q + r && 0 <= r < d
    ensures a / d == q
  {
    var e := q - a / d;
    assert d * q - d * (a / d) == d * e;
    assert -d < d * e < d;
    if e >= 1 {
      MultiplyUp(d, e);
    } else if e <= -1 {
      MultiplyUp(d, -e);
    }
  }

  lemma DivideTwice(a: nat, d: nat)
    requires d > 0
    ensures (a / 2) / d == a / (2 * d)
  {
    var q, r := (a / 2) / d, (a / 2) % d;
    assert a / 2 == d * q + r;
    assert a == (2 * d) * q + (2 * r + a % 2);
    assert 2 * r + a % 2 < 2 * d;
    QuotientUnique(a, 2 * d, q, 2 * r + a % 2);
  }

  /** A right shift is the division by the power of two that the program's `>>` stands for. */
  lemma {:induction false} ShiftIsDivision(a: nat, k: nat)
    ensures ShiftRight(a, k) == a / Power2(k)
  {
    if k > 0 {
      ShiftIsDivision(a / 2, k - 1);
      DivideTwice(a, Power2(k - 1));
    }
  }

  lemma {:induction false} Power2Adds(j: nat, k: nat)
    ensures Power2(j + k) == Power2(j) * Power2(k)
  {
    if j > 0 {
      Power2Adds(j - 1, k);
      assert Power2(j + k) == 2 * Power2((j - 1) + k);
    }
  }

  lemma WordSize()
    ensures Power2(64) == WORDS
  {
    assert Power2(8) == 0x100;
    Power2Adds(8, 8);
    Power2Adds(16, 16);
    Power2Adds(32, 32);
  }

  // ----- the generator -----

  lemma {:induction false} ShiftShrinks(a: nat, k: nat)
    ensures ShiftRight(a, k) <= a
  {
    if k > 0 {
      ShiftShrinks(a / 2, k - 1);
    }
  }

  lemma XorShiftIsWord(z: Word, k: nat)
    ensures Xor(z, ShiftRight(z, k)) < WORDS
  {
    WordSize();
    ShiftShrinks(z, k);
    XorBelow(z, ShiftRight(z, k), 64);
  }

  function XorShift(z: Word, k: nat): Word {
    XorShiftIsWord(z, k);
    Xor(z, ShiftRight(z, k))
  }

  function Times(z: Word, c: nat): Word {
    (z * c) % WORDS
  }

  /** The output map: two xor-shift-multiply rounds and a final xor-shift. */
  function Mix(state: Word): Word {
    XorShift(Times(XorShift(Times(XorShift(state, 30), MULTIPLIER_1), 27), MULTIPLIER_2), 31)
  }

  function StateAt(seed: Word, n: nat): Word {
    (seed + n * INCREMENT) % WORDS
  }

  function Draw(seed: Word, n: nat): Word {
    Mix(StateAt(seed, n))
  }

  /** The top 53 bits of a word, scaled to the unit interval. */
  function UnitOf(word: Word): (r: real)
    ensures 0.0 <= r < 1.0
  {
    (word / 0x800) as real / 9007199254740992.0
  }

  function Scaled(width: real, unit: real): (r: real)
    requires 0.0 < width && 0.0 <= unit < 1.0
    ensures 0.0 <= r < width
  {
    width * unit
  }

  function RangeOf(word: Word, min: real, max: real): (r: real)
    requires min < max
    ensures min <= r < max
  {
    min + Scaled(max - min, UnitOf(word))
  }

  lemma WrapSum(x: int, y: int)
    ensures (x + y) % WORDS == (x + y % WORDS) % WORDS
  {
  }

  lemma AdvanceOne(seed: Word, n: nat)
    ensures StateAt(seed, n + 1) == (StateAt(seed, n) + INCREMENT) % WORDS
  {
    var p := n * INCREMENT;
    assert (n + 1) * INCREMENT == p + INCREMENT;
    WrapSum(INCREMENT, seed + p);
  }

  /** A running generator. `seed` and `drawn` are its history; the program keeps only `state`. */
  class RNG {
    var state: Word
    ghost const seed: Word
    ghost var drawn: nat

    ghost predicate Valid()
      reads this
    {
      state == StateAt(seed, drawn)
    }

    constructor (seed: Word)
      ensures Valid() && this.seed == seed && drawn == 0
    {
      state := seed;
      this.seed := seed;
      drawn := 0;
    }

    method Next() returns (word: Word)
      requires Valid()
      modifies this
      ensures Valid() && drawn == old(drawn) + 1
      ensures word == Draw(seed, drawn)
    {
      AdvanceOne(seed, drawn);
      state := (state + INCREMENT) % WORDS;
      drawn := drawn + 1;
      var z := state;
      z := Times(XorShift(z, 30), MULTIPLIER_1);
      z := Times(XorShift(z, 27), MULTIPLIER_2);
      word := XorShift(z, 31);
    }

    method Float() returns (r: real)
      requires Valid()
      modifies this
      ensures Valid() && drawn == old(drawn) + 1
      ensures r == UnitOf(Draw(seed, drawn)) && 0.0 <= r < 1.0
    {
      var word := Next();
      ShiftIsDivision(word, 11);
      assert Power2(11) == 0x800;
      r := ShiftRight(word, 11) as real / 9007199254740992.0;
    }

    method Range(min: real, max: real) returns (r: real)
      requires Valid() && min < max
      modifies this
      ensures Valid() && drawn == old(drawn) + 1
      ensures r == RangeOf(Draw(seed, drawn), min, max) && min <= r < max
    {
      var unit := Float();
      r := min + Scaled(max - min, unit);
    }
  }

  // ----- the output map is a bijection -----

  function Unshift(y: Word, k: nat): Word {
    WordSize();
    ShiftShrinks(y, k);
    ShiftShrinks(y, 2 * k);
    XorBelow(y, ShiftRight(y, k), 64);
    XorBelow(Xor(y, ShiftRight(y, k)), ShiftRight(y, 2 * k), 64);
    Xor(Xor(y, ShiftRight(y, k)), ShiftRight(y, 2 * k))
  }

  function Unmix(word: Word): Word {
    Unshift(Times(Unshift(Times(Unshift(word, 31), MULTIPLIER_2_INV), 27), MULTIPLIER_1_INV), 30)
  }

  lemma Telescope(x: nat, x1: nat, x2: nat)
    ensures Xor(Xor(Xor(x, x1), Xor(x1, x2)), x2) == x
  {
    XorAssociates(x, x1, Xor(x1, x2));
    XorAssociates(x1, x1, x2);
    XorSelf(x1);
    XorZero(x2);
    XorAssociates(x, x2, x2);
    XorSelf(x2);
    XorZero(x);
  }

  lemma {:induction false} ShiftClears(x: nat, k: nat)
    requires x < Power2(k)
    ensures ShiftRight(x, k) == 0
  {
    if k > 0 {
      ShiftClears(x / 2, k - 1);
    }
  }

  lemma ThreeShiftsClear(x: Word, k: nat)
    requires 64 <= 3 * k
    ensures ShiftRight(x, 3 * k) == 0
  {
    WordSize();
    ShiftAdds(x, 64, 3 * k - 64);
    ShiftClears(x, 64);
    ShiftShrinks(0, 3 * k - 64);
  }

  /** Undoing a xor-shift takes two more shifts once three of them clear the word. */
  lemma UnshiftUndoes(x: Word, k: nat)
    requires 64 <= 3 * k
    ensures Unshift(XorShift(x, k), k) == x
  {
    var x1, x2 := ShiftRight(x, k), ShiftRight(x, 2 * k);
    var y := Xor(x, x1);
    ThreeShiftsClear(x, k);
    ShiftDistributes(x, x1, k);
    ShiftDistributes(x, x1, 2 * k);
    ShiftAdds(x, k, k);
    ShiftAdds(x, k, 2 * k);
    assert ShiftRight(y, k) == Xor(x1, x2);
    XorZero(x2);
    assert ShiftRight(y, 2 * k) == x2;
    Telescope(x, x1, x2);
  }

  lemma ShiftUndoes(y: Word, k: nat)
    requires 64 <= 3 * k
    ensures XorShift(Unshift(y, k), k) == y
  {
    var y1, y2 := ShiftRight(y, k), ShiftRight(y, 2 * k);
    ThreeShiftsClear(y, k);
    ShiftDistributes(Xor(y, y1), y2, k);
    ShiftDistributes(y, y1, k);
    ShiftAdds(y, k, k);
    ShiftAdds(y, 2 * k, k);
    XorZero(Xor(y1, y2));
    assert ShiftRight(Xor(Xor(y, y1), y2), k) == Xor(y1, y2);
    XorAssociates(y, y1, y2);
    XorAssociates(y, Xor(y1, y2), Xor(y1, y2));
    XorSelf(Xor(y1, y2));
    XorZero(y);
  }

  lemma Regroup(x: int, carry: int, t: int, inverse: int)
    ensures x * (1 + carry * WORDS) - WORDS * t * inverse == x + WORDS * (x * carry - t * inverse)
  {
    assert x * (1 + carry * WORDS) == x + WORDS * (x * carry);
    assert WORDS * t * inverse == WORDS * (t * inverse);
  }

  lemma WrapUnique(x: Word, k: int)
    ensures (x + WORDS * k) % WORDS == x
  {
  }

  /** Multiplying by `c` and then by its inverse modulo 2^64 changes nothing. */
  lemma TimesInverse(x: Word, c: nat, inverse: nat, carry: nat)
    requires c * inverse == 1 + carry * WORDS
    ensures Times(Times(x, c), inverse) == x
  {
    var t, r := (x * c) / WORDS, (x * c) % WORDS;
    calc {
      r * inverse;
      (x * c - WORDS * t) * inverse;
      x * c * inverse - WORDS * t * inverse;
      { assert x * c * inverse == x * (c * inverse); }
      x * (1 + carry * WORDS) - WORDS * t * inverse;
      { Regroup(x, carry, t, inverse); }
      x + WORDS * (x * carry - t * inverse);
    }
    WrapUnique(x, x * carry - t * inverse);
  }

  lemma UnmixUndoesMix(state: Word)
    ensures Unmix(Mix(state)) == state
  {
    var a := Times(XorShift(state, 30), MULTIPLIER_1);
    var b := Times(XorShift(a, 27), MULTIPLIER_2);
    UnshiftUndoes(b, 31);
    TimesInverse(XorShift(a, 27), MULTIPLIER_2, MULTIPLIER_2_INV, 0x1CD336EDA85F1453);
    UnshiftUndoes(a, 27);
    TimesInverse(XorShift(state, 30), MULTIPLIER_1, MULTIPLIER_1_INV, 0x70C3BCA78F27F46C);
    UnshiftUndoes(state, 30);
  }

  lemma MixUndoesUnmix(word: Word)
    ensures Mix(Unmix(word)) == word
  {
    var b := Unshift(word, 31);
    var a := Unshift(Times(b, MULTIPLIER_2_INV), 27);
    ShiftUndoes(Times(a, MULTIPLIER_1_INV), 30);
    TimesInverse(a, MULTIPLIER_1_INV, MULTIPLIER_1, 0x70C3BCA78F27F46C);
    ShiftUndoes(Times(b, MULTIPLIER_2_INV), 27);
    TimesInverse(b, MULTIPLIER_2_INV, MULTIPLIER_2, 0x1CD336EDA85F1453);
    ShiftUndoes(word, 31);
  }

  // ----- the increment walks through every state -----

  /** The number of draws after which a generator at `from` is at `to`. */
  function StepsBetween(from: Word, to: Word): (n: Word) {
    Times((to - from) % WORDS, INCREMENT_INV)
  }

  lemma StepsReach(from: Word, to: Word)
    ensures StateAt(from, StepsBetween(from, to)) == to
  {
    var d: Word, n := (to - from) % WORDS, StepsBetween(from, to);
    TimesInverse(d, INCREMENT_INV, INCREMENT, 0x957BBF35006ED677);
    assert Times(n, INCREMENT) == d;
    WrapSum(from, n * INCREMENT);
    WrapSum(from, to - from);
    assert (from + d) % WORDS == to;
  }

  lemma WrapDifference(x: int, y: int)
    requires (x + y) % WORDS == x % WORDS
    ensures y % WORDS == 0
  {
  }

  /** Equal states mean a multiple of 2^64 draws in between. */
  lemma EqualStates(seed: Word, i: nat, j: nat)
    requires i <= j && j - i < WORDS && StateAt(seed, i) == StateAt(seed, j)
    ensures i == j
  {
    var d: Word := j - i;
    assert j * INCREMENT == i * INCREMENT + d * INCREMENT;
    WrapDifference(seed + i * INCREMENT, d * INCREMENT);
    assert Times(d, INCREMENT) == 0;
    TimesInverse(d, INCREMENT, INCREMENT_INV, 0x957BBF35006ED677);
  }

  /** Fewer than 2^64 consecutive draws are pairwise distinct. */
  lemma NoRepeat(seed: Word, i: nat, j: nat)
    requires i < j && j - i < WORDS
    ensures Draw(seed, i) != Draw(seed, j)
  {
    if Draw(seed, i) == Draw(seed, j) {
      UnmixUndoesMix(StateAt(seed, i));
      UnmixUndoesMix(StateAt(seed, j));
      EqualStates(seed, i, j);
    }
  }

  /** Every word is drawn exactly once in each full period of 2^64 draws. */
  lemma EveryWordOnce(seed: Word, word: Word) returns (n: Word)
    ensures Draw(seed, n) == word
    ensures forall m: Word :: Draw(seed, m) == word ==> m == n
  {
    n := StepsBetween(seed, Unmix(word));
    StepsReach(seed, Unmix(word));
    MixUndoesUnmix(word);
    forall m: Word | Draw(seed, m) == word
      ensures m == n
    {
      if m < n {
        NoRepeat(seed, m, n);
      } else if n < m {
        NoRepeat(seed, n, m);
      }
    }
  }
}
