/** The client's estimate of the server clock, after clock.go. Milliseconds as exact reals. */
module Clock {
  import opened Protocol

  const JUMP_REJECT_MS := 250.0
  const JUMPS_BEFORE_RESYNC: nat := 30

  datatype Estimate = Estimate(offset: real, have: bool, jumps: nat)

  const UNKNOWN := Estimate(0.0, false, 0)

  /** One sample of the offset: the first is taken as it is, a far one is rejected unless it is the
      thirtieth in a row, and a near one pulls the estimate a fifth of the way. */
  function Sampled(e: Estimate, o: real): Estimate {
    if !e.have then Estimate(o, true, e.jumps)
    else if Abs(o - e.offset) > JUMP_REJECT_MS then
      if e.jumps + 1 < JUMPS_BEFORE_RESYNC then e.(jumps := e.jumps + 1) else Estimate(o, true, 0)
    else Estimate(e.offset + (o - e.offset) * 0.2, true, 0)
  }

  /** Rounding to the nearest integer, halves away from zero. */
  function Round(x: real): (r: int)
    ensures if x >= 0.0 then r as real - 0.5 <= x < r as real + 0.5 else r as real - 0.5 < x <= r as real + 0.5
  {
    if x >= 0.0 then (x + 0.5).Floor else -((-x + 0.5).Floor)
  }

  class Clock {
    var offset: real
    var have: bool
    var jumps: nat

    ghost function Value(): Estimate
      reads this
    {
      Estimate(offset, have, jumps)
    }

    constructor ()
      ensures Value() == UNKNOWN
    {
      offset, have, jumps := 0.0, false, 0;
    }

    /** Folds in one server timestamp, read at local time `local`. */
    method Sample(serverNow: int, local: int)
      modifies this
      ensures Value() == Sampled(old(Value()), (serverNow - local) as real)
    {
      var o := (serverNow - local) as real;
      if !have {
        offset, have := o, true;
        return;
      }
      if Abs(o - offset) > JUMP_REJECT_MS {
        jumps := jumps + 1;
        if jumps < JUMPS_BEFORE_RESYNC {
          return;
        }
        offset, jumps := o, 0;
        return;
      }
      jumps := 0;
      offset := offset + (o - offset) * 0.2;
    }

    /** Within half a millisecond of the local clock moved by the estimate. */
    function ServerNow(local: int): (t: int)
      reads this
      ensures !have ==> t == local
      ensures have ==> offset - 0.5 <= (t - local) as real <= offset + 0.5
    {
      if !have then local else local + Round(offset)
    }
  }

  // ----- runs of samples -----

  /** The estimate after a sequence of sampled offsets. */
  function Follow(e: Estimate, samples: seq<real>): Estimate {
    if samples == [] then e else Sampled(Follow(e, samples[..|samples| - 1]), samples[|samples| - 1])
  }

  ghost predicate Ok(e: Estimate) {
    e.jumps < JUMPS_BEFORE_RESYNC
  }

  /** The reject counter never stands at thirty between samples. */
  lemma {:induction false} CounterStaysBelow(e: Estimate, samples: seq<real>)
    requires Ok(e)
    ensures Ok(Follow(e, samples))
    ensures samples != [] || e.have ==> Follow(e, samples).have
  {
    if samples != [] {
      CounterStaysBelow(e, samples[..|samples| - 1]);
    }
  }

  /** Every sample lies within `jitter` of the true offset. */
  ghost predicate Near(samples: seq<real>, truth: real, jitter: real) {
    forall i :: 0 <= i < |samples| ==> Abs(samples[i] - truth) <= jitter
  }

  function Error(e: Estimate, truth: real): real {
    Abs(e.offset - truth)
  }

  /** What is left of `x` after losing a fifth of itself `n` times. */
  function Shrunk(x: real, n: nat): real {
    if n == 0 then x else 0.8 * Shrunk(x, n - 1)
  }

  function Power(n: nat): real {
    if n == 0 then 1.0 else 0.8 * Power(n - 1)
  }

  lemma {:induction false} ShrunkIsPower(x: real, n: nat)
    ensures Shrunk(x, n) == Power(n) * x
  {
    if n > 0 {
      ShrunkIsPower(x, n - 1);
      assert 0.8 * (Power(n - 1) * x) == (0.8 * Power(n - 1)) * x;
    }
  }

  lemma {:induction false} ShrunkGrows(x: real, y: real, n: nat)
    requires x <= y
    ensures Shrunk(x, n) <= Shrunk(y, n)
    ensures 0.0 <= x ==> 0.0 <= Shrunk(x, n) <= x
    ensures x <= 0.0 ==> x <= Shrunk(x, n) <= 0.0
  {
    if n > 0 {
      ShrunkGrows(x, y, n - 1);
    }
  }

  /** A near sample keeps a fifth of the noise and four fifths of the error. */
  lemma AcceptedSample(e: Estimate, o: real, truth: real, jitter: real)
    requires e.have && Abs(o - truth) <= jitter && Abs(o - e.offset) <= JUMP_REJECT_MS
    ensures var f := Sampled(e, o);
            f.have && f.jumps == 0 && Error(f, truth) <= 0.8 * Error(e, truth) + 0.2 * jitter
  {
  }

  /** From a small error on, every sample is accepted and the error decays to the jitter. */
  lemma {:induction false} NearErrorDecays(e: Estimate, samples: seq<real>, truth: real, jitter: real)
    requires e.have && 0.0 <= jitter <= 125.0 && Error(e, truth) <= JUMP_REJECT_MS - jitter && Near(samples, truth, jitter)
    ensures var f := Follow(e, samples);
            && f.have && (samples != [] ==> f.jumps == 0)
            && Error(f, truth) <= jitter + Shrunk(Max(0.0, Error(e, truth) - jitter), |samples|)
            && Error(f, truth) <= JUMP_REJECT_MS - jitter
  {
    var x := Max(0.0, Error(e, truth) - jitter);
    if samples != [] {
      var m := |samples| - 1;
      NearErrorDecays(e, samples[..m], truth, jitter);
      var f := Follow(e, samples[..m]);
      AcceptedSample(f, samples[m], truth, jitter);
      ShrunkGrows(x, x, m + 1);
    }
  }

  /** With exact samples a small error is exactly shrunk, keeping its sign. */
  lemma {:induction false} ExactDecay(e: Estimate, truth: real, n: nat)
    requires e.have && Error(e, truth) <= JUMP_REJECT_MS
    ensures var f := Follow(e, seq(n, i => truth));
            f.have && f.offset - truth == Shrunk(e.offset - truth, n)
  {
    if n > 0 {
      var all := seq(n, i => truth);
      ExactDecay(e, truth, n - 1);
      assert all[..n - 1] == seq(n - 1, i => truth);
      ShrunkGrows(e.offset - truth, e.offset - truth, n - 1);
    }
  }

  /** With exact samples a large error stands until the thirtieth rejection, and is then gone. */
  lemma {:induction false} ExactResync(e: Estimate, truth: real, n: nat)
    requires Ok(e) && e.have && Error(e, truth) > JUMP_REJECT_MS && n <= JUMPS_BEFORE_RESYNC - e.jumps
    ensures var f := Follow(e, seq(n, i => truth));
            if n < JUMPS_BEFORE_RESYNC - e.jumps then f == e.(jumps := e.jumps + n) else f == Estimate(truth, true, 0)
  {
    if n > 0 {
      ExactResync(e, truth, n - 1);
      assert seq(n, i => truth)[..n - 1] == seq(n - 1, i => truth);
    }
  }

  /** Settled: a sample was taken and the error is one at which every sample is accepted. */
  ghost predicate Settled(e: Estimate, truth: real, jitter: real) {
    e.have && Error(e, truth) <= JUMP_REJECT_MS - jitter
  }

  lemma SampleSettles(e: Estimate, o: real, truth: real, jitter: real)
    requires Ok(e) && 0.0 <= jitter <= 25.0 && Abs(o - truth) <= jitter
    ensures var f := Sampled(e, o);
            Settled(f, truth, jitter) || (e.have && f == e.(jumps := e.jumps + 1) && !Settled(e, truth, jitter))
  {
  }

  /** Whatever the start, each sample either settles the estimate or uses up one of its rejections. */
  lemma {:induction false} SettlesInTime(e: Estimate, samples: seq<real>, truth: real, jitter: real)
    requires Ok(e) && 0.0 <= jitter <= 25.0 && Near(samples, truth, jitter)
    ensures var f := Follow(e, samples);
            samples != [] ==> Settled(f, truth, jitter) || (f == e.(jumps := e.jumps + |samples|) && f.jumps < JUMPS_BEFORE_RESYNC)
  {
    if samples != [] {
      var m := |samples| - 1;
      SettlesInTime(e, samples[..m], truth, jitter);
      CounterStaysBelow(e, samples);
      CounterStaysBelow(e, samples[..m]);
      SampleSettles(Follow(e, samples[..m]), samples[m], truth, jitter);
      assert m == 0 ==> Follow(e, samples[..m]) == e;
    }
  }

  lemma {:induction false} FollowAppend(e: Estimate, a: seq<real>, b: seq<real>)
    ensures Follow(e, a + b) == Follow(Follow(e, a), b)
  {
    if b == [] {
      assert a + b == a;
    } else {
      assert (a + b)[..|a + b| - 1] == a + b[..|b| - 1];
      FollowAppend(e, a, b[..|b| - 1]);
    }
  }

  /** From any state, with samples within 25 ms of the truth, thirty samples bring the error within
      250 ms, and each further one takes a fifth of what exceeds the jitter. */
  lemma StabilisesQuickly(e: Estimate, samples: seq<real>, truth: real, jitter: real)
    requires Ok(e) && 0.0 <= jitter <= 25.0 && Near(samples, truth, jitter) && |samples| >= JUMPS_BEFORE_RESYNC
    ensures var f := Follow(e, samples);
            f.have && Error(f, truth) <= jitter + Shrunk(JUMP_REJECT_MS, |samples| - JUMPS_BEFORE_RESYNC)
  {
    var first, rest := samples[..JUMPS_BEFORE_RESYNC], samples[JUMPS_BEFORE_RESYNC..];
    assert samples == first + rest;
    FollowAppend(e, first, rest);
    SettlesInTime(e, first, truth, jitter);
    var f := Follow(e, first);
    NearErrorDecays(f, rest, truth, jitter);
    ShrunkGrows(Max(0.0, Error(f, truth) - jitter), JUMP_REJECT_MS, |rest|);
  }

  /** One sample of any noise: it is rejected, or it takes a fifth of what exceeds the noise, or all of it. */
  lemma NoisySample(e: Estimate, o: real, truth: real, jitter: real)
    requires Ok(e) && e.have && 0.0 <= jitter && Abs(o - truth) <= jitter
    ensures var f := Sampled(e, o);
            && f.have
            && (f == e.(jumps := e.jumps + 1)
                || (f.jumps == 0 && Error(f, truth) <= jitter + 0.8 * Max(0.0, Error(e, truth) - jitter)))
  {
  }

  lemma OneMoreShrink(error: real, jitter: real, x: real, a: nat)
    requires x >= 0.0 && error <= jitter + Shrunk(x, a)
    ensures jitter + 0.8 * Max(0.0, error - jitter) <= jitter + Shrunk(x, a + 1)
  {
    ShrunkGrows(x, x, a);
  }

  lemma ShrunkNothing(x: real)
    ensures Shrunk(x, 0) == x
  {
  }

  lemma SameError(e: Estimate, f: Estimate, truth: real)
    requires e.offset == f.offset
    ensures Error(e, truth) == Error(f, truth)
  {
  }

  /** From any state and with noise of any size, what exceeds the noise loses a fifth at least once in
      thirty samples: `a` times in all, where `a` is at least a thirtieth of the samples. */
  lemma {:induction false} ShrinksInTime(e: Estimate, samples: seq<real>, truth: real, jitter: real) returns (a: nat)
    requires Ok(e) && e.have && 0.0 <= jitter && Near(samples, truth, jitter)
    ensures var f := Follow(e, samples);
            && f.have && Ok(f)
            && Error(f, truth) <= jitter + Shrunk(Max(0.0, Error(e, truth) - jitter), a)
            && JUMPS_BEFORE_RESYNC * a + f.jumps >= |samples| + e.jumps
  {
    hide Sampled, Error, Shrunk;
    if samples == [] {
      a := 0;
      ShrunkNothing(Max(0.0, Error(e, truth) - jitter));
    } else {
      var m := |samples| - 1;
      a := ShrinksInTime(e, samples[..m], truth, jitter);
      var f := Follow(e, samples[..m]);
      NoisySample(f, samples[m], truth, jitter);
      CounterStaysBelow(e, samples);
      if Follow(e, samples) != f.(jumps := f.jumps + 1) {
        OneMoreShrink(Error(f, truth), jitter, Max(0.0, Error(e, truth) - jitter), a);
        a := a + 1;
      } else {
        SameError(f, Follow(e, samples), truth);
      }
    }
  }

  lemma {:induction false} ShrunkDrops(x: real, n: nat, a: nat)
    requires 0.0 <= x && n <= a
    ensures 0.0 <= Shrunk(x, a) <= Shrunk(x, n)
  {
    ShrunkGrows(x, x, n);
    if n < a {
      ShrunkDrops(x, n, a - 1);
    }
  }

  /** From any state that has an estimate, with noise of any size, `30 * n` samples take `n` fifths of
      what exceeds the noise. */
  lemma Stabilises(e: Estimate, samples: seq<real>, truth: real, jitter: real, n: nat)
    requires Ok(e) && e.have && 0.0 <= jitter && Near(samples, truth, jitter) && |samples| >= JUMPS_BEFORE_RESYNC * n
    ensures var f := Follow(e, samples);
            f.have && Error(f, truth) <= jitter + Shrunk(Max(0.0, Error(e, truth) - jitter), n)
  {
    var a := ShrinksInTime(e, samples, truth, jitter);
    ShrunkDrops(Max(0.0, Error(e, truth) - jitter), n, a);
  }

  /** A clock that was never sampled is as near as the noise from its first sample on. */
  lemma StartsNear(e: Estimate, samples: seq<real>, truth: real, jitter: real)
    requires Ok(e) && !e.have && 0.0 <= jitter && Near(samples, truth, jitter) && samples != []
    ensures var f := Follow(e, samples);
            f.have && Error(f, truth) <= jitter
  {
    var first, rest := samples[..1], samples[1..];
    assert samples == first + rest && first[..0] == [];
    FollowAppend(e, first, rest);
    var a := ShrinksInTime(Follow(e, first), rest, truth, jitter);
    ShrunkGrows(0.0, 0.0, a);
  }

  /** Fewer than thirty far samples in a row, followed by a near one, leave no trace but that one's pull. */
  lemma {:induction false} OutliersAreIgnored(e: Estimate, samples: seq<real>)
    requires e.have && e.jumps + |samples| < JUMPS_BEFORE_RESYNC
    requires forall i :: 0 <= i < |samples| ==> Abs(samples[i] - e.offset) > JUMP_REJECT_MS
    ensures Follow(e, samples) == e.(jumps := e.jumps + |samples|)
    ensures forall o :: Abs(o - e.offset) <= JUMP_REJECT_MS ==> Sampled(Follow(e, samples), o) == Sampled(e, o)
  {
    if samples != [] {
      OutliersAreIgnored(e, samples[..|samples| - 1]);
    }
  }
}
