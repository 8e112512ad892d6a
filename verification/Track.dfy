/** The pipe track: scroll, difficulty ramp, dropping and spawning of pipes.

    `Step` is one tick of the part of world.go that no bird can influence. `At(draws, n)` is
    the track after `n` ticks, where `draws(k)` is the k-th draw of the race's generator: the
    theorems hold for every sequence of draws. The point of the module is that the incremental pipe list is
    a window onto a fixed, infinite row of pipes (`Window`). */
module Track {
  import opened Protocol

  datatype Pipe = Pipe(id: nat, x: real, gapY: real, gapH: real)

  datatype State = State(
    tick: nat,
    scroll: real,
    gap: real,
    dist: real,
    pipes: seq<Pipe>,
    draws: nat -> real,
    drawn: nat,
    nextPipeID: nat,
    lastGapY: real)

  const SPAWN_LIMIT := VIEW_MAX_W + PIPE_SPACING

  function Start(draws: nat -> real): State {
    State(0, SCROLL_SPEED, PIPE_GAP, 0.0, [], draws, 0, 0, SPAWN_Y)
  }

  function RampScroll(tick: nat, scroll: real): real {
    if IsRampTick(tick) then Min(SpedUp(scroll), RAMP_SPEED_CAP) else scroll
  }

  function RampGap(tick: nat, gap: real): real {
    if IsRampTick(tick) then Max(gap - RAMP_GAP_SHRINK, RAMP_GAP_FLOOR) else gap
  }

  function Shift(pipes: seq<Pipe>, d: real): seq<Pipe> {
    seq(|pipes|, i requires 0 <= i < |pipes| => pipes[i].(x := pipes[i].x - d))
  }

  /** The pipes that have not fully left the view on the left, in order. */
  function Keep(pipes: seq<Pipe>): seq<Pipe> {
    if pipes == [] then []
    else
      var kept := Keep(pipes[..|pipes| - 1]);
      if pipes[|pipes| - 1].x > -PIPE_WIDTH then kept + [pipes[|pipes| - 1]] else kept
  }

  function NextX(pipes: seq<Pipe>): real {
    if pipes == [] then FIRST_PIPE_X else pipes[|pipes| - 1].x + PIPE_SPACING
  }

  /** The centre of a new gap: a uniform draw, kept near the previous gap and in the playfield. */
  function NextGapY(draw: real, lastGapY: real): real {
    var near := Clamp(draw, lastGapY - MAX_GAP_DELTA, lastGapY + MAX_GAP_DELTA);
    Clamp(near, GAP_Y_MIN, GAP_Y_MAX)
  }

  function Spawn(t: State, x: real): State {
    var g := NextGapY(t.draws(t.drawn + 1), t.lastGapY);
    t.(drawn := t.drawn + 1,
       lastGapY := g,
       nextPipeID := t.nextPipeID + 1,
       pipes := t.pipes + [Pipe(t.nextPipeID + 1, x, g, t.gap)])
  }

  function Fill(t: State): State
    decreases SPAWN_LIMIT - NextX(t.pipes)
  {
    if NextX(t.pipes) >= SPAWN_LIMIT then t else Fill(Spawn(t, NextX(t.pipes)))
  }

  function Advance(t: State): State {
    var tick := t.tick + 1;
    var scroll := RampScroll(tick, t.scroll);
    t.(tick := tick,
       scroll := scroll,
       gap := RampGap(tick, t.gap),
       dist := t.dist + scroll,
       pipes := Keep(Shift(t.pipes, scroll)))
  }

  function Step(t: State): State {
    Fill(Advance(t))
  }

  function At(draws: nat -> real, n: nat): State {
    if n == 0 then Start(draws) else Step(At(draws, n - 1))
  }

  // ----- closed forms -----

  function ScrollAt(n: nat): real {
    if n == 0 then SCROLL_SPEED else RampScroll(n, ScrollAt(n - 1))
  }

  function DistAt(n: nat): real {
    if n == 0 then 0.0 else DistAt(n - 1) + ScrollAt(n)
  }

  function GapAt(n: nat): real {
    if n == 0 then PIPE_GAP else RampGap(n, GapAt(n - 1))
  }

  /** Where the left edge of pipe `id` of the infinite row is once the world has scrolled `dist`. */
  function X(id: int, dist: real): real {
    FIRST_PIPE_X + PIPE_SPACING * (id - 1) as real - (dist - SCROLL_SPEED)
  }

  /** The gap centre of pipe `id`, from the draws alone. */
  function GapCentre(draws: nat -> real, id: nat): real {
    if id == 0 then SPAWN_Y else NextGapY(draws(id), GapCentre(draws, id - 1))
  }

  lemma {:induction false} ScrollBounds(n: nat)
    ensures SCROLL_SPEED <= ScrollAt(n) <= RAMP_SPEED_CAP
  {
    if n > 0 {
      ScrollBounds(n - 1);
    }
  }

  lemma {:induction false} DistGrows(m: nat, n: nat)
    requires m <= n
    ensures DistAt(m) <= DistAt(n)
    ensures 1 <= n ==> SCROLL_SPEED <= DistAt(n)
  {
    if n > 0 {
      ScrollBounds(n);
      if m < n {
        DistGrows(m, n - 1);
      } else {
        DistGrows(0, n - 1);
      }
    }
  }

  lemma BetweenRamps(k: nat, j: nat)
    requires j < 900
    ensures IsRampTick(900 * k + j) <==> j == 0
  {
  }

  lemma OneMore(j: nat, d: real)
    ensures (j + 1) as real * d == j as real * d + d
  {
  }

  lemma TickWithoutRamp(n: nat)
    requires n >= 1 && !IsRampTick(n)
    ensures ScrollAt(n) == ScrollAt(n - 1) && DistAt(n) == DistAt(n - 1) + ScrollAt(n - 1)
  {
  }

  /** Between two ramps the world scrolls at one speed. */
  lemma {:induction false} SteadyStretch(k: nat, j: nat)
    requires j < 900
    ensures ScrollAt(900 * k + j) == ScrollAt(900 * k)
    ensures DistAt(900 * k + j) == DistAt(900 * k) + j as real * ScrollAt(900 * k)
  {
    hide ScrollAt, DistAt, IsRampTick;
    if j > 0 {
      SteadyStretch(k, j - 1);
      BetweenRamps(k, j);
      TickWithoutRamp(900 * k + j);
      OneMore(j - 1, ScrollAt(900 * k));
    }
  }

  lemma TickWithRamp(n: nat)
    requires n >= 1 && IsRampTick(n)
    ensures ScrollAt(n) == Min(SpedUp(ScrollAt(n - 1)), RAMP_SPEED_CAP) && DistAt(n) == DistAt(n - 1) + ScrollAt(n)
  {
  }

  /** Distance and speed when the next ramp sets in. */
  lemma NextRamp(k: nat)
    ensures ScrollAt(900 * (k + 1)) == Min(SpedUp(ScrollAt(900 * k)), RAMP_SPEED_CAP)
    ensures DistAt(900 * (k + 1)) == DistAt(900 * k) + 899.0 * ScrollAt(900 * k) + ScrollAt(900 * (k + 1))
  {
    hide ScrollAt, DistAt, IsRampTick, Min, SpedUp;
    SteadyStretch(k, 899);
    BetweenRamps(k + 1, 0);
    TickWithRamp(900 * k + 900);
  }

  lemma StartOfRow()
    ensures ScrollAt(0) == SCROLL_SPEED && DistAt(0) == 0.0
  {
  }

  lemma DistAtFourthRamp()
    ensures ScrollAt(3600) == 3.95073089599609375 && 12251.37 < DistAt(3600) < 12251.38
  {
    hide ScrollAt, DistAt;
    StartOfRow();
    NextRamp(0);
    NextRamp(1);
    NextRamp(2);
    NextRamp(3);
  }

  /** How far the world has scrolled on the last two ticks before a race is cut off. */
  lemma DistAtCap()
    ensures 27779.9 < DistAt(7199) < 27780.0 && DistAt(7200) == DistAt(7199) + RAMP_SPEED_CAP
    ensures ScrollAt(6300) == RAMP_SPEED_CAP
  {
    hide ScrollAt, DistAt;
    DistAtFourthRamp();
    NextRamp(4);
    NextRamp(5);
    NextRamp(6);
    NextRamp(7);
    SteadyStretch(7, 899);
    TickWithRamp(7200);
  }

  lemma GapCentreBounds(draws: nat -> real, id: nat)
    ensures GAP_Y_MIN <= GapCentre(draws, id) <= GAP_Y_MAX
    ensures Abs(GapCentre(draws, id + 1) - GapCentre(draws, id)) <= MAX_GAP_DELTA
  {
    if id > 0 {
      GapCentreBounds(draws, id - 1);
    }
  }

  /** A gap centre that the track allows after one at `last`. */
  predicate Allowed(g: real, last: real) {
    GAP_Y_MIN <= g <= GAP_Y_MAX && Abs(g - last) <= MAX_GAP_DELTA
  }

  /** Each gap centre is the allowed value nearest to its draw: the draw itself, if that is allowed. */
  lemma GapIsNearest(draws: nat -> real, id: nat, g: real)
    requires id >= 1 && GAP_Y_MIN <= draws(id) <= GAP_Y_MAX && Allowed(g, GapCentre(draws, id - 1))
    ensures Allowed(GapCentre(draws, id), GapCentre(draws, id - 1))
    ensures Abs(GapCentre(draws, id) - draws(id)) <= Abs(g - draws(id))
    ensures Allowed(draws(id), GapCentre(draws, id - 1)) ==> GapCentre(draws, id) == draws(id)
  {
    GapCentreBounds(draws, id - 1);
  }

  /** `pipes` is the stretch of the infinite row that ends with pipe `last`. */
  ghost predicate Stretch(pipes: seq<Pipe>, draws: nat -> real, dist: real, last: nat) {
    && |pipes| <= last
    && forall i :: 0 <= i < |pipes| ==>
         && pipes[i].id == last - |pipes| + 1 + i
         && pipes[i].x == X(pipes[i].id, dist)
         && pipes[i].gapY == GapCentre(draws, pipes[i].id)
         && RAMP_GAP_FLOOR <= pipes[i].gapH <= PIPE_GAP
  }

  /** What the spawn loop relies on and keeps. */
  ghost predicate Laid(t: State) {
    && Stretch(t.pipes, t.draws, t.dist, t.nextPipeID)
    && t.drawn == t.nextPipeID
    && t.lastGapY == GapCentre(t.draws, t.nextPipeID)
    && RAMP_GAP_FLOOR <= t.gap <= PIPE_GAP
    && NextX(t.pipes) == X(t.nextPipeID + 1, t.dist)
  }

  /** What holds between ticks, once the first tick has run. */
  ghost predicate Settled(t: State) {
    && Laid(t)
    && t.pipes != []
    && X(t.nextPipeID, t.dist) < SPAWN_LIMIT <= X(t.nextPipeID + 1, t.dist)
    && X(t.pipes[0].id, t.dist) > -PIPE_WIDTH
    && (t.pipes[0].id > 1 ==> X(t.pipes[0].id - 1, t.dist) <= -PIPE_WIDTH)
  }

  lemma SpawnLays(t: State)
    requires Laid(t)
    ensures Laid(Spawn(t, NextX(t.pipes)))
  {
    var s := Spawn(t, NextX(t.pipes));
    assert s.lastGapY == GapCentre(t.draws, s.nextPipeID);
    forall i | 0 <= i < |s.pipes|
      ensures s.pipes[i].id == s.nextPipeID - |s.pipes| + 1 + i
      ensures s.pipes[i].x == X(s.pipes[i].id, s.dist)
      ensures s.pipes[i].gapY == GapCentre(s.draws, s.pipes[i].id)
      ensures RAMP_GAP_FLOOR <= s.pipes[i].gapH <= PIPE_GAP
    {
      if i < |t.pipes| {
        assert s.pipes[i] == t.pipes[i];
      }
    }
  }

  lemma {:induction false} FillSettles(t: State)
    requires Laid(t)
    requires X(t.nextPipeID, t.dist) < SPAWN_LIMIT
    requires t.pipes == [] ==> t.nextPipeID == 0 && t.dist == SCROLL_SPEED
    requires t.pipes != [] ==> X(t.pipes[0].id, t.dist) > -PIPE_WIDTH
    requires t.pipes != [] && t.pipes[0].id > 1 ==> X(t.pipes[0].id - 1, t.dist) <= -PIPE_WIDTH
    ensures Settled(Fill(t))
    ensures var f := Fill(t);
            f.tick == t.tick && f.scroll == t.scroll && f.gap == t.gap && f.dist == t.dist && f.draws == t.draws
    decreases SPAWN_LIMIT - NextX(t.pipes)
  {
    if NextX(t.pipes) < SPAWN_LIMIT {
      SpawnLays(t);
      FillSettles(Spawn(t, NextX(t.pipes)));
    }
  }

  lemma KeepLast(front: seq<Pipe>, p: Pipe)
    ensures Keep(front + [p]) == if p.x > -PIPE_WIDTH then Keep(front) + [p] else Keep(front)
  {
    assert (front + [p])[..|front|] == front;
  }

  /** On a row ordered by position, dropping what has passed removes a prefix. */
  lemma {:induction false} KeepDropsPrefix(pipes: seq<Pipe>) returns (j: nat)
    requires forall a, b :: 0 <= a < b < |pipes| ==> pipes[a].x < pipes[b].x
    ensures j <= |pipes| && Keep(pipes) == pipes[j..]
    ensures forall i :: 0 <= i < |pipes| ==> (i < j <==> pipes[i].x <= -PIPE_WIDTH)
  {
    if pipes == [] {
      j := 0;
    } else {
      var front, last := pipes[..|pipes| - 1], pipes[|pipes| - 1];
      j := KeepDropsPrefix(front);
      KeepLast(front, last);
      assert pipes == front + [last];
      if last.x > -PIPE_WIDTH {
        assert pipes[j..] == front[j..] + [last];
      } else {
        assert forall a :: 0 <= a < |front| ==> front[a].x < last.x;
        assert front[j..] == [];
        j := |pipes|;
      }
    }
  }

  lemma ShiftStretches(t: State, d: real)
    requires Stretch(t.pipes, t.draws, t.dist, t.nextPipeID)
    ensures Stretch(Shift(t.pipes, d), t.draws, t.dist + d, t.nextPipeID)
  {
    var shifted := Shift(t.pipes, d);
    forall i | 0 <= i < |shifted|
      ensures shifted[i].x == X(shifted[i].id, t.dist + d)
    {
      assert t.pipes[i].x == X(t.pipes[i].id, t.dist);
    }
  }

  lemma SuffixStretches(pipes: seq<Pipe>, draws: nat -> real, dist: real, last: nat, j: nat)
    requires Stretch(pipes, draws, dist, last) && j <= |pipes|
    ensures Stretch(pipes[j..], draws, dist, last)
  {
    forall i | 0 <= i < |pipes| - j
      ensures pipes[j..][i] == pipes[j + i]
    {
    }
  }

  lemma XOrder(a: int, b: int, dist: real)
    ensures X(b, dist) - X(a, dist) == PIPE_SPACING * (b - a) as real
    ensures a < b ==> X(a, dist) + PIPE_SPACING <= X(b, dist)
  {
  }

  lemma StretchSorted(pipes: seq<Pipe>, draws: nat -> real, dist: real, last: nat)
    requires Stretch(pipes, draws, dist, last)
    ensures forall i, k :: 0 <= i < k < |pipes| ==> pipes[i].x < pipes[k].x
  {
    forall i, k | 0 <= i < k < |pipes|
      ensures pipes[i].x < pipes[k].x
    {
      XOrder(pipes[i].id, pipes[k].id, dist);
    }
  }

  lemma DropStretches(pipes: seq<Pipe>, draws: nat -> real, dist: real, last: nat)
    requires Stretch(pipes, draws, dist, last)
    requires pipes != [] && X(last, dist) > -PIPE_WIDTH
    requires pipes[0].id > 1 ==> X(pipes[0].id - 1, dist) <= -PIPE_WIDTH
    ensures var kept := Keep(pipes);
            && Stretch(kept, draws, dist, last) && kept != []
            && kept[|kept| - 1] == pipes[|pipes| - 1]
            && X(kept[0].id, dist) > -PIPE_WIDTH
            && (kept[0].id > 1 ==> X(kept[0].id - 1, dist) <= -PIPE_WIDTH)
  {
    StretchSorted(pipes, draws, dist, last);
    var j := KeepDropsPrefix(pipes);
    SuffixStretches(pipes, draws, dist, last, j);
    assert pipes[|pipes| - 1].id == last;
    assert pipes[j..][0] == pipes[j];
    if j > 0 {
      assert pipes[j - 1].id == pipes[j].id - 1;
    }
  }

  lemma ShiftMoves(id: int, dist: real, d: real)
    ensures X(id, dist + d) == X(id, dist) - d
  {
  }

  lemma ScrollSettled(t: State, d: real)
    requires Settled(t) && 0.0 < d <= RAMP_SPEED_CAP
    ensures var kept := Keep(Shift(t.pipes, d));
            && Stretch(kept, t.draws, t.dist + d, t.nextPipeID) && kept != []
            && NextX(kept) == X(t.nextPipeID + 1, t.dist + d)
            && X(kept[0].id, t.dist + d) > -PIPE_WIDTH
            && (kept[0].id > 1 ==> X(kept[0].id - 1, t.dist + d) <= -PIPE_WIDTH)
  {
    var last := t.nextPipeID;
    ShiftStretches(t, d);
    ShiftMoves(last, t.dist, d);
    ShiftMoves(last + 1, t.dist, d);
    ShiftMoves(t.pipes[0].id - 1, t.dist, d);
    XOrder(last, last + 1, t.dist);
    DropStretches(Shift(t.pipes, d), t.draws, t.dist + d, last);
  }

  lemma RampsAreBounded(tick: nat, scroll: real, gap: real)
    requires SCROLL_SPEED <= scroll <= RAMP_SPEED_CAP && RAMP_GAP_FLOOR <= gap <= PIPE_GAP
    ensures SCROLL_SPEED <= RampScroll(tick, scroll) <= RAMP_SPEED_CAP
    ensures RAMP_GAP_FLOOR <= RampGap(tick, gap) <= PIPE_GAP
  {
  }

  lemma AdvanceSettled(t: State)
    requires Settled(t) && SCROLL_SPEED <= t.scroll <= RAMP_SPEED_CAP
    ensures var a := Advance(t);
            && Laid(a) && a.pipes != []
            && X(a.nextPipeID, a.dist) < SPAWN_LIMIT
            && X(a.pipes[0].id, a.dist) > -PIPE_WIDTH
            && (a.pipes[0].id > 1 ==> X(a.pipes[0].id - 1, a.dist) <= -PIPE_WIDTH)
  {
    hide Keep, Shift, Stretch, NextX, X, RampScroll, RampGap;
    var d := RampScroll(t.tick + 1, t.scroll);
    RampsAreBounded(t.tick + 1, t.scroll, t.gap);
    ScrollSettled(t, d);
    ShiftMoves(t.nextPipeID, t.dist, d);
  }

  /** Every tick from the first on leaves a settled track, scrolled by the closed forms. */
  lemma {:induction false} Reached(draws: nat -> real, n: nat)
    ensures var t := At(draws, n);
            && t.tick == n && t.draws == draws
            && t.scroll == ScrollAt(n) && t.dist == DistAt(n)
            && (n == 0 ==> t == Start(draws))
            && (n >= 1 ==> Settled(t))
  {
    if n == 1 {
      assert Keep(Shift([], SCROLL_SPEED)) == [];
      FillSettles(Advance(Start(draws)));
      assert At(draws, 0) == Start(draws);
    } else if n > 1 {
      var t := At(draws, n - 1);
      Reached(draws, n - 1);
      ScrollBounds(n - 1);
      AdvanceSettled(t);
      FillSettles(Advance(t));
    }
  }

  /** Whether pipe `id` of the infinite row is inside the simulated window. */
  predicate InView(id: nat, dist: real) {
    id >= 1 && -PIPE_WIDTH < X(id, dist) < SPAWN_LIMIT
  }

  /** Pipe `id` comes into the window with tick `m`. */
  predicate SpawnsAt(id: nat, m: nat) {
    m >= 1 && X(id, DistAt(m)) < SPAWN_LIMIT && (m > 1 ==> SPAWN_LIMIT <= X(id, DistAt(m - 1)))
  }

  /** A pipe is as wide open as the ramp had it on the tick that brought it into the window. */
  ghost predicate GapOfItsTime(p: Pipe, n: nat) {
    exists m :: 1 <= m <= n && SpawnsAt(p.id, m) && p.gapH == GapAt(m)
  }

  /** The spawn loop appends pipes of the present gap and leaves the others alone. */
  lemma {:induction false} FillExtends(t: State)
    ensures var f := Fill(t);
            && t.pipes <= f.pipes && t.nextPipeID <= f.nextPipeID
            && forall i :: |t.pipes| <= i < |f.pipes| ==> f.pipes[i].id > t.nextPipeID && f.pipes[i].gapH == t.gap
    decreases SPAWN_LIMIT - NextX(t.pipes)
  {
    if NextX(t.pipes) < SPAWN_LIMIT {
      FillExtends(Spawn(t, NextX(t.pipes)));
    }
  }

  lemma {:induction false} KeptComesFrom(pipes: seq<Pipe>, i: nat) returns (j: nat)
    requires i < |Keep(pipes)|
    ensures j < |pipes| && Keep(pipes)[i] == pipes[j]
  {
    var m := |pipes| - 1;
    if i < |Keep(pipes[..m])| {
      j := KeptComesFrom(pipes[..m], i);
    } else {
      j := m;
    }
  }

  lemma {:induction false} FillKeepsGap(t: State)
    ensures Fill(t).gap == t.gap
    decreases SPAWN_LIMIT - NextX(t.pipes)
  {
    if NextX(t.pipes) < SPAWN_LIMIT {
      FillKeepsGap(Spawn(t, NextX(t.pipes)));
    }
  }

  lemma AdvanceGap(t: State)
    ensures Advance(t).gap == RampGap(t.tick + 1, t.gap)
  {
  }

  lemma {:induction false} GapReached(draws: nat -> real, n: nat)
    ensures At(draws, n).gap == GapAt(n)
  {
    hide Settled, Fill, RampGap;
    if n > 0 {
      GapReached(draws, n - 1);
      Reached(draws, n - 1);
      FillKeepsGap(Advance(At(draws, n - 1)));
      AdvanceGap(At(draws, n - 1));
    }
  }

  /** A pipe of one tick either stood there the tick before, or is new and as open as the ramp is now. */
  lemma PipeIsOldOrNew(t: State, i: nat)
    requires i < |Step(t).pipes|
    ensures var p := Step(t).pipes[i];
            || (exists j :: 0 <= j < |t.pipes| && t.pipes[j].id == p.id && t.pipes[j].gapH == p.gapH)
            || (p.id > t.nextPipeID && p.gapH == Advance(t).gap)
  {
    var a := Advance(t);
    FillExtends(a);
    if i < |a.pipes| {
      var shifted := Shift(t.pipes, RampScroll(t.tick + 1, t.scroll));
      var j := KeptComesFrom(shifted, i);
      assert t.pipes[j].id == shifted[j].id && t.pipes[j].gapH == shifted[j].gapH;
    }
  }

  lemma FifteenSeconds(n: nat)
    requires n > 0
    ensures n / 900 == (n - 1) / 900 + if IsRampTick(n) then 1 else 0
  {
  }

  /** Every fifteen seconds new gaps are two pixels narrower, down to 144. */
  lemma {:induction false} GapNarrows(n: nat)
    ensures GapAt(n) == Max(156.0 - 2.0 * (n / 900) as real, 144.0)
  {
    if n > 0 {
      GapNarrows(n - 1);
      FifteenSeconds(n);
    }
  }

  /** A pipe that is new with a tick comes into the window with that tick. */
  lemma NewPipeSpawns(draws: nat -> real, n: nat, id: nat)
    requires n >= 1 && id > At(draws, n - 1).nextPipeID && InView(id, DistAt(n))
    ensures SpawnsAt(id, n)
  {
    Reached(draws, n - 1);
    if n > 1 {
      XOrder(At(draws, n - 1).nextPipeID + 1, id, DistAt(n - 1));
    }
  }

  lemma ConsecutiveIds(pipes: seq<Pipe>, last: nat, k: nat)
    requires 0 < |pipes| <= last
    requires forall i :: 0 <= i < |pipes| ==> pipes[i].id == last - |pipes| + 1 + i
    ensures (exists i :: 0 <= i < |pipes| && pipes[i].id == k) <==> pipes[0].id <= k <= last
  {
    if pipes[0].id <= k <= last {
      assert pipes[k - pipes[0].id].id == k;
    }
  }

  lemma InViewBetween(first: nat, last: nat, k: nat, dist: real)
    requires 1 <= first <= last
    requires X(last, dist) < SPAWN_LIMIT <= X(last + 1, dist)
    requires X(first, dist) > -PIPE_WIDTH
    requires first > 1 ==> X(first - 1, dist) <= -PIPE_WIDTH
    ensures InView(k, dist) <==> first <= k <= last
  {
    XOrder(first, k, dist);
    XOrder(k, first - 1, dist);
    XOrder(k, last, dist);
    XOrder(last + 1, k, dist);
  }

  lemma WindowOf(t: State)
    requires Settled(t)
    ensures forall k: nat :: InView(k, t.dist) <==> exists i :: 0 <= i < |t.pipes| && t.pipes[i].id == k
    ensures |t.pipes| <= 14
  {
    var first, last := t.pipes[0].id, t.nextPipeID;
    XOrder(first, last, t.dist);
    forall k: nat
      ensures InView(k, t.dist) <==> exists i :: 0 <= i < |t.pipes| && t.pipes[i].id == k
    {
      InViewBetween(first, last, k, t.dist);
      ConsecutiveIds(t.pipes, last, k);
    }
  }

  lemma ListedInView(draws: nat -> real, n: nat, i: nat)
    requires n >= 1 && i < |At(draws, n).pipes|
    ensures InView(At(draws, n).pipes[i].id, DistAt(n))
  {
    Reached(draws, n);
    WindowOf(At(draws, n));
  }

  lemma PipeOfTick(draws: nat -> real, n: nat, i: nat)
    requires n >= 1 && i < |At(draws, n).pipes|
    ensures var t, p := At(draws, n - 1), At(draws, n).pipes[i];
            || (n > 1 && exists j :: 0 <= j < |t.pipes| && t.pipes[j].id == p.id && t.pipes[j].gapH == p.gapH)
            || (p.id > t.nextPipeID && p.gapH == Advance(t).gap)
  {
    PipeIsOldOrNew(At(draws, n - 1), i);
    assert At(draws, 0).pipes == [];
  }

  lemma {:induction false} GapsOfTheirTime(draws: nat -> real, n: nat, i: nat)
    requires n >= 1 && i < |At(draws, n).pipes|
    ensures GapOfItsTime(At(draws, n).pipes[i], n)
  {
    hide At, SpawnsAt, Settled, InView, ScrollAt, Step, Advance;
    var t, p := At(draws, n - 1), At(draws, n).pipes[i];
    PipeOfTick(draws, n, i);
    if j :| n > 1 && 0 <= j < |t.pipes| && t.pipes[j].id == p.id && t.pipes[j].gapH == p.gapH {
      GapsOfTheirTime(draws, n - 1, j);
    } else {
      ListedInView(draws, n, i);
      NewPipeSpawns(draws, n, p.id);
      Reached(draws, n - 1);
      GapReached(draws, n - 1);
      AdvanceGap(t);
    }
  }

  /** The incremental pipe list is exactly the window onto the infinite row. */
  lemma Window(draws: nat -> real, n: nat)
    requires n >= 1
    ensures var t := At(draws, n);
            && (forall k: nat :: InView(k, DistAt(n)) <==> exists i :: 0 <= i < |t.pipes| && t.pipes[i].id == k)
            && (forall i :: 0 <= i < |t.pipes| ==>
                  && t.pipes[i].id == t.pipes[0].id + i
                  && t.pipes[i].x == X(t.pipes[i].id, DistAt(n))
                  && t.pipes[i].gapY == GapCentre(draws, t.pipes[i].id)
                  && GapOfItsTime(t.pipes[i], n))
            && 0 < |t.pipes| <= 14
            && t.pipes[|t.pipes| - 1].id == t.nextPipeID
  {
    var t := At(draws, n);
    Reached(draws, n);
    WindowOf(t);
    forall i | 0 <= i < |t.pipes|
      ensures GapOfItsTime(t.pipes[i], n)
    {
      GapsOfTheirTime(draws, n, i);
    }
  }

  lemma StaysSpawned(id: nat, m: nat, n: nat)
    requires 1 <= m < n && X(id, DistAt(m)) < SPAWN_LIMIT
    ensures X(id, DistAt(n - 1)) < SPAWN_LIMIT
  {
    DistGrows(m, n - 1);
    ShiftMoves(id, DistAt(m), DistAt(n - 1) - DistAt(m));
  }

  /** The tick a pipe comes with is unique, so its gap is a function of its id. */
  lemma SpawnTickUnique(id: nat, m: nat, n: nat)
    requires SpawnsAt(id, m) && SpawnsAt(id, n)
    ensures m == n
  {
    if m < n {
      StaysSpawned(id, m, n);
    } else if n < m {
      StaysSpawned(id, n, m);
    }
  }

  lemma GapInside(y: real, h: real)
    requires GAP_Y_MIN <= y <= GAP_Y_MAX && RAMP_GAP_FLOOR <= h <= PIPE_GAP
    ensures 0.0 < y - h / 2.0 < y + h / 2.0 < GROUND_Y
  {
  }

  /** Pipes are well formed in every reachable track. */
  lemma PipesWellFormed(t: State, i: nat)
    requires Settled(t) && i < |t.pipes|
    ensures var p := t.pipes[i];
            && GAP_Y_MIN <= p.gapY <= GAP_Y_MAX
            && RAMP_GAP_FLOOR <= p.gapH <= PIPE_GAP
            && 0.0 < p.gapY - p.gapH / 2.0 < p.gapY + p.gapH / 2.0 < GROUND_Y
    ensures i > 0 ==> Abs(t.pipes[i].gapY - t.pipes[i - 1].gapY) <= MAX_GAP_DELTA
  {
    GapCentreBounds(t.draws, t.pipes[i].id);
    var y, h := t.pipes[i].gapY, t.pipes[i].gapH;
    assert 0.0 < y - h / 2.0 < y + h / 2.0 < GROUND_Y by {
      GapInside(y, h);
    }
    if i > 0 {
      assert t.pipes[i - 1].id + 1 == t.pipes[i].id;
      GapCentreBounds(t.draws, t.pipes[i - 1].id);
    }
  }
}
