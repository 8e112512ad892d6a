/** A race on a low track in which one of two birds dies on the very last tick: the dead bird, of the
    lower id, is ranked above the survivor.

    Both fall for 29 ticks and then flap in arcs: after an arc of `p` ticks a bird is `Rise(p)` lower
    than before its flap. The lengths are chosen so that the birds stay inside every gap of the track
    until tick 7147 and are then where a fall of 53 ticks ends on the ground on tick 7200. */
module LastTick {
  import opened Protocol
  import Track
  import opened Flight
  import opened WorldSpec
  import opened Race
  import Rank
  import Falling

  // ----- a low track -----

  /** Every gap is drawn between 525 and 552. */
  ghost predicate Low(draws: nat -> real) {
    forall k: nat :: 525.0 <= draws(k) <= 552.0
  }

  lemma {:induction false} CentresAreDraws(draws: nat -> real, id: nat)
    requires Low(draws) && id >= 1
    ensures Track.GapCentre(draws, id) == draws(id)
  {
    if id > 1 {
      CentresAreDraws(draws, id - 1);
    }
  }

  /** Heights at which a bird clears both pipes of every gap of a low track. */
  predicate InBand(y: real) {
    491.0 <= y <= 586.0
  }

  lemma FarAway(dx: real, dy: real)
    requires dy <= -BIRD_RADIUS || dy >= BIRD_RADIUS
    ensures dx * dx + dy * dy >= BIRD_RADIUS * BIRD_RADIUS
  {
    FarSideways(dy, dx);
  }

  lemma Clear(y: real, p: Track.Pipe)
    requires InBand(y) && 525.0 <= p.gapY <= 552.0 && RAMP_GAP_FLOOR <= p.gapH
    ensures !Hits(y, p)
  {
    FarAway(BIRD_X - Clamp(BIRD_X, p.x, p.x + PIPE_WIDTH), y - Clamp(y, 0.0, p.gapY - p.gapH / 2.0));
    FarAway(BIRD_X - Clamp(BIRD_X, p.x, p.x + PIPE_WIDTH), y - Clamp(y, p.gapY + p.gapH / 2.0, GROUND_Y));
  }

  lemma BandIsSafe(t: Track.State, y: real)
    requires t == Track.At(t.draws, t.tick) && t.tick >= 1 && Low(t.draws) && InBand(y)
    ensures !Crashes(y, t.pipes)
  {
    Track.Reached(t.draws, t.tick);
    forall i | 0 <= i < |t.pipes|
      ensures !Hits(y, t.pipes[i])
    {
      CentresAreDraws(t.draws, t.pipes[i].id);
      Clear(y, t.pipes[i]);
    }
  }

  lemma {:induction false} DistNearCap(n: nat)
    requires 7185 <= n <= 7199
    ensures Track.DistAt(n) == Track.DistAt(7199) - 4.65 * (7199 - n) as real
    decreases 7199 - n
  {
    hide Track.DistAt, Track.ScrollAt, IsRampTick;
    if n < 7199 {
      Track.DistAtCap();
      Track.SteadyStretch(7, n - 6300);
      Track.BetweenRamps(7, n + 1 - 6300);
      Track.TickWithoutRamp(n + 1);
      DistNearCap(n + 1);
    }
  }

  lemma BehindOrAhead(id: nat, dist: real)
    requires 27714.5 < dist < 27785.0
    ensures Track.X(id, dist) + PIPE_WIDTH < BIRD_X - BIRD_RADIUS || Track.X(id, dist) > BIRD_X + BIRD_RADIUS
  {
    if id <= 106 {
      Track.XOrder(id, 106, dist);
    } else {
      Track.XOrder(107, id, dist);
    }
  }

  lemma PipeStands(t: Track.State, i: nat)
    requires Track.Settled(t) && i < |t.pipes|
    ensures t.pipes[i].x == Track.X(t.pipes[i].id, t.dist)
  {
  }

  lemma OutOfWindow(y: real, p: Track.Pipe)
    requires !InXWindow(p)
    ensures !Hits(y, p)
  {
  }

  /** From tick 7185 on pipe 106 is behind the birds and pipe 107 still far ahead. */
  lemma NoPipeAtTheEnd(t: Track.State, y: real)
    requires t == Track.At(t.draws, t.tick) && 7185 <= t.tick <= 7200
    ensures Crashes(y, t.pipes) <==> OnGround(y)
  {
    hide Track.At, Track.DistAt, Track.ScrollAt, Hits, OnGround;
    Track.Reached(t.draws, t.tick);
    Track.DistAtCap();
    DistNearCap(if t.tick < 7200 then t.tick else 7199);
    forall i | 0 <= i < |t.pipes|
      ensures !Hits(y, t.pipes[i])
    {
      PipeStands(t, i);
      BehindOrAhead(t.pipes[i].id, t.dist);
      OutOfWindow(y, t.pipes[i]);
    }
  }

  // ----- one bird in an arc -----

  /** How high a bird is `k` ticks after a flap at `y0`, as long as it flaps no more. */
  function Height(y0: real, k: nat): real {
    if k <= 36 then y0 - 7.2 * k as real + 0.21 * (k * (k + 1)) as real else y0 + 20.52 + 8.0 * (k - 36) as real
  }

  function Speed(k: nat): real {
    if k <= 36 then 0.42 * k as real - 7.2 else 8.0
  }

  function Rise(p: nat): real {
    Height(0.0, p)
  }

  /** A living bird `k` ticks after its flap at `y0`. */
  ghost predicate On(w: State, id: nat, y0: real, k: nat) {
    && Reachable(w) && Low(w.track.draws) && id in w.birds
    && !w.birds[id].dead && w.birds[id].y == Height(y0, k) && w.birds[id].vy == Speed(k)
  }

  lemma ArcTick(b: Bird, y0: real, k: nat, tick: nat)
    requires k >= 1 && b.y == Height(y0, k) && b.vy == Speed(k) && Height(y0, k + 1) >= CEILING_Y
    ensures var f := Fly(b, false, tick);
            f.y == Height(y0, k + 1) && f.vy == Speed(k + 1)
  {
    Falling.Triangle(k + 1);
  }

  lemma FlapTick(b: Bird, tick: nat)
    requires InBand(b.y - 6.78)
    ensures var f := Fly(b, true, tick);
            f.y == Height(b.y, 1) && f.vy == Speed(1)
  {
  }

  /** A tick without a crash only moves a bird. */
  lemma CalmTick(w: State, flaps: set<nat>, id: nat)
    requires Reachable(w) && id in w.birds && !w.birds[id].dead
    requires !Crashes(Fly(w.birds[id], id in flaps, w.track.tick + 1).y, Step(w, flaps).track.pipes)
    ensures var s, f := Step(w, flaps), Fly(w.birds[id], id in flaps, w.track.tick + 1);
            && Reachable(s) && s.track.tick == w.track.tick + 1 && s.track.draws == w.track.draws && id in s.birds
            && !s.birds[id].dead && s.birds[id].y == f.y && s.birds[id].vy == f.vy
  {
    hide Reachable, Fly, Crashes;
    StepTrack(w, flaps);
    StepReachable(w, flaps);
    Falling.FlyLives(w.birds[id], id in flaps, w.track.tick + 1);
  }

  /** A tick with a crash kills the bird on that tick. */
  lemma DeadlyTick(w: State, flaps: set<nat>, id: nat)
    requires Reachable(w) && id in w.birds && !w.birds[id].dead
    requires Crashes(Fly(w.birds[id], id in flaps, w.track.tick + 1).y, Step(w, flaps).track.pipes)
    ensures var s := Step(w, flaps);
            s.track.tick == w.track.tick + 1 && id in s.birds && s.birds[id].dead && s.birds[id].deathTick == w.track.tick + 1
  {
    hide Reachable, Fly, Crashes;
    StepTrack(w, flaps);
    Falling.FlyLives(w.birds[id], id in flaps, w.track.tick + 1);
  }

  lemma Glides(w: State, flaps: set<nat>, id: nat, y0: real, k: nat)
    requires On(w, id, y0, k) && k >= 1 && id !in flaps
    requires InBand(Height(y0, k + 1))
             || (7184 <= w.track.tick < 7200 && CEILING_Y <= Height(y0, k + 1) && !OnGround(Height(y0, k + 1)))
    ensures On(Step(w, flaps), id, y0, k + 1) && Step(w, flaps).track.tick == w.track.tick + 1
  {
    hide Reachable, Low, Height, Speed, Fly, Crashes, OnGround;
    StepTrack(w, flaps);
    ArcTick(w.birds[id], y0, k, w.track.tick + 1);
    if InBand(Height(y0, k + 1)) {
      BandIsSafe(Step(w, flaps).track, Height(y0, k + 1));
    } else {
      NoPipeAtTheEnd(Step(w, flaps).track, Height(y0, k + 1));
    }
    CalmTick(w, flaps, id);
  }

  lemma FlapsUp(w: State, flaps: set<nat>, id: nat)
    requires Reachable(w) && Low(w.track.draws) && id in w.birds && !w.birds[id].dead && id in flaps
    requires InBand(w.birds[id].y - 6.78)
    ensures On(Step(w, flaps), id, w.birds[id].y, 1) && Step(w, flaps).track.tick == w.track.tick + 1
  {
    hide Reachable, Low, Fly, Crashes;
    StepTrack(w, flaps);
    FlapTick(w.birds[id], w.track.tick + 1);
    BandIsSafe(Step(w, flaps).track, w.birds[id].y - 6.78);
    CalmTick(w, flaps, id);
  }

  /** Arcs of these lengths, flapped at these heights, stay in the band. */
  predicate Fits(y0: real, p: nat) {
    549.2 <= y0 && (if p <= 33 then y0 <= 586.0 else p <= 35 && y0 <= 573.4)
  }

  lemma Falls(k: nat, j: nat)
    requires k + j == 33
    ensures k * (k + 1) <= 34 * k
  {
  }

  /** An arc ends no higher than its flap up to 33 ticks, and little lower up to 35. */
  lemma ArcEnds(k: nat)
    requires 1 <= k <= 35
    ensures Height(0.0, k) <= if k <= 33 then 0.0 else 12.6
  {
    if k <= 33 {
      Falls(k, 33 - k);
    }
  }

  lemma ArcInBand(y0: real, p: nat, k: nat)
    requires Fits(y0, p) && 1 <= k <= p
    ensures InBand(Height(y0, k))
  {
    var x := k as real - 16.64;
    assert x * x >= 0.0;
    assert (k * (k + 1)) as real == k as real * k as real + k as real;
    assert 0.21 * (x * x) == 0.21 * (k as real * k as real) - 6.9888 * k as real + 0.21 * 276.8896;
    ArcEnds(k);
  }

  // ----- arcs of one or more birds -----

  /** An arc: the birds of `ids` flap on its first tick, and nobody on the others. */
  function Arc(ids: set<nat>, p: nat): seq<Event> {
    if p == 0 then [] else Arc(ids, p - 1) + [Ticked(if p == 1 then ids else {})]
  }

  lemma RunOne(w: State, events: seq<Event>, flaps: set<nat>)
    ensures Run(w, events + [Ticked(flaps)]) == Step(Run(w, events), flaps)
  {
    assert (events + [Ticked(flaps)])[..|events|] == events;
  }

  lemma {:induction false} RunConcat(w: State, a: seq<Event>, b: seq<Event>)
    ensures Run(w, a + b) == Run(Run(w, a), b)
  {
    if b == [] {
      assert a + b == a;
    } else {
      assert (a + b)[..|a + b| - 1] == a + b[..|b| - 1];
      RunConcat(w, a, b[..|b| - 1]);
    }
  }

  lemma FirstHeight(y: real)
    ensures Height(y, 1) == y - 6.78
  {
  }

  lemma {:induction false} FliesArc(w: State, ids: set<nat>, p: nat, id: nat, length: nat)
    requires Reachable(w) && Low(w.track.draws) && id in w.birds && !w.birds[id].dead && id in ids
    requires 1 <= p <= length && Fits(w.birds[id].y, length)
    ensures On(Run(w, Arc(ids, p)), id, w.birds[id].y, p) && Run(w, Arc(ids, p)).track.tick == w.track.tick + p
  {
    hide Reachable, Low, Height, Step, On;
    RunOne(w, Arc(ids, p - 1), if p == 1 then ids else {});
    if p == 1 {
      assert Run(w, Arc(ids, 0)) == w;
      ArcInBand(w.birds[id].y, length, 1);
      FirstHeight(w.birds[id].y);
      FlapsUp(w, ids, id);
    } else {
      FliesArc(w, ids, p - 1, id, length);
      ArcInBand(w.birds[id].y, length, p);
      Glides(Run(w, Arc(ids, p - 1)), {}, id, w.birds[id].y, p - 1);
    }
  }

  /** Both birds alive at one height. */
  ghost predicate Level(w: State, a: nat, b: nat, y: real, tick: nat) {
    && Reachable(w) && Low(w.track.draws) && w.track.tick == tick && a in w.birds && b in w.birds
    && !w.birds[a].dead && !w.birds[b].dead && w.birds[a].y == y && w.birds[b].y == y
  }

  lemma BothFlyArc(w: State, a: nat, b: nat, p: nat, y: real, tick: nat) returns (r: State)
    requires Level(w, a, b, y, tick) && Fits(y, p) && p >= 1
    ensures r == Run(w, Arc({a, b}, p)) && Level(r, a, b, y + Rise(p), tick + p)
  {
    hide Reachable, Low, Run, Arc;
    r := Run(w, Arc({a, b}, p));
    FliesArc(w, {a, b}, p, a, p);
    FliesArc(w, {a, b}, p, b, p);
  }

  lemma Rises()
    ensures Rise(32) == -8.64 && Rise(33) == -1.98 && Rise(34) == 5.1 && Rise(35) == 12.6
  {
  }

  function Arcs(ids: set<nat>, lengths: seq<nat>): seq<Event> {
    if lengths == [] then [] else Arcs(ids, lengths[..|lengths| - 1]) + Arc(ids, lengths[|lengths| - 1])
  }

  function TotalRise(lengths: seq<nat>): real {
    if lengths == [] then 0.0 else TotalRise(lengths[..|lengths| - 1]) + Rise(lengths[|lengths| - 1])
  }

  function TotalTime(lengths: seq<nat>): nat {
    if lengths == [] then 0 else TotalTime(lengths[..|lengths| - 1]) + lengths[|lengths| - 1]
  }

  predicate AllFit(y: real, lengths: seq<nat>) {
    lengths != [] ==>
      && AllFit(y, lengths[..|lengths| - 1])
      && lengths[|lengths| - 1] >= 1
      && Fits(y + TotalRise(lengths[..|lengths| - 1]), lengths[|lengths| - 1])
  }

  lemma {:induction false} BothFlyArcs(w: State, a: nat, b: nat, lengths: seq<nat>, y: real, tick: nat)
    requires Level(w, a, b, y, tick) && AllFit(y, lengths)
    ensures Level(Run(w, Arcs({a, b}, lengths)), a, b, y + TotalRise(lengths), tick + TotalTime(lengths))
  {
    hide Level, Fits, Rise, Arc;
    if lengths == [] {
      assert Run(w, []) == w;
    } else {
      var front, p := lengths[..|lengths| - 1], lengths[|lengths| - 1];
      BothFlyArcs(w, a, b, front, y, tick);
      RunConcat(w, Arcs({a, b}, front), Arc({a, b}, p));
      var r := BothFlyArc(Run(w, Arcs({a, b}, front)), a, b, p, y + TotalRise(front), tick + TotalTime(front));
    }
  }

  /** `n` times over. */
  function Times(lengths: seq<nat>, n: nat): seq<nat> {
    if n == 0 then [] else Times(lengths, n - 1) + lengths
  }

  lemma {:induction false} AllFitAppend(y: real, first: seq<nat>, second: seq<nat>)
    requires AllFit(y, first) && AllFit(y + TotalRise(first), second)
    ensures AllFit(y, first + second)
    ensures TotalRise(first + second) == TotalRise(first) + TotalRise(second)
    ensures TotalTime(first + second) == TotalTime(first) + TotalTime(second)
  {
    hide Fits, Rise;
    if second == [] {
      assert first + second == first;
    } else {
      var m := |second| - 1;
      assert (first + second)[..|first + second| - 1] == first + second[..m];
      AllFitAppend(y, first, second[..m]);
    }
  }

  // ----- the flight plan -----

  const CLIMB: seq<nat> := [33, 33, 34, 34, 34, 34]
  const SINK: seq<nat> := [33, 33, 33, 34]
  const CRUISE: seq<nat> := [35, 32, 33, 33]

  lemma NothingFits(y: real)
    ensures AllFit(y, []) && TotalRise([]) == 0.0 && TotalTime([]) == 0
  {
  }

  lemma AddArc(y: real, front: seq<nat>, p: nat)
    requires AllFit(y, front) && p >= 1 && Fits(y + TotalRise(front), p)
    ensures AllFit(y, front + [p]) && TotalRise(front + [p]) == TotalRise(front) + Rise(p)
    ensures TotalTime(front + [p]) == TotalTime(front) + p
  {
    hide Fits, Rise;
    assert (front + [p])[..|front|] == front;
  }

  lemma FourArcs(y: real, p: nat, q: nat, r: nat, s: nat)
    requires p >= 1 && q >= 1 && r >= 1 && s >= 1
    requires Fits(y, p) && Fits(y + Rise(p), q) && Fits(y + Rise(p) + Rise(q), r)
    requires Fits(y + Rise(p) + Rise(q) + Rise(r), s)
    ensures AllFit(y, [p, q, r, s]) && TotalTime([p, q, r, s]) == p + q + r + s
    ensures TotalRise([p, q, r, s]) == Rise(p) + Rise(q) + Rise(r) + Rise(s)
  {
    hide Fits, Rise, AllFit, TotalRise, TotalTime;
    NothingFits(y);
    AddArc(y, [], p);
    AddArc(y, [] + [p], q);
    AddArc(y, [] + [p] + [q], r);
    AddArc(y, [] + [p] + [q] + [r], s);
    assert [] + [p] + [q] + [r] + [s] == [p, q, r, s];
  }

  lemma SinkFits(y: real)
    requires 555.2 <= y <= 579.3
    ensures AllFit(y, SINK) && TotalRise(SINK) == -0.84 && TotalTime(SINK) == 133
  {
    hide Rise, AllFit, TotalRise, TotalTime;
    Rises();
    FourArcs(y, 33, 33, 33, 34);
  }

  lemma CruiseFits(y: real)
    requires 549.2 <= y <= 573.4
    ensures AllFit(y, CRUISE) && TotalRise(CRUISE) == 0.0 && TotalTime(CRUISE) == 133
  {
    hide Rise, AllFit, TotalRise, TotalTime;
    Rises();
    FourArcs(y, 35, 32, 33, 33);
  }

  lemma ClimbFits()
    ensures AllFit(559.8, CLIMB) && TotalRise(CLIMB) == 16.44 && TotalTime(CLIMB) == 202
  {
    hide Rise, AllFit, TotalRise, TotalTime;
    Rises();
    var front := [33, 33, 34, 34];
    FourArcs(559.8, 33, 33, 34, 34);
    AddArc(559.8, front, 34);
    AddArc(559.8, front + [34], 34);
    assert front + [34] + [34] == CLIMB;
  }

  lemma {:induction false} SinkTimes(y: real, n: nat)
    requires 555.2 + 0.84 * n as real <= y <= 579.3
    ensures AllFit(y, Times(SINK, n)) && TotalRise(Times(SINK, n)) == -0.84 * n as real
    ensures TotalTime(Times(SINK, n)) == 133 * n
  {
    hide AllFit, TotalRise, TotalTime;
    if n == 0 {
      NothingFits(y);
    } else {
      SinkTimes(y, n - 1);
      SinkFits(y - 0.84 * (n - 1) as real);
      AllFitAppend(y, Times(SINK, n - 1), SINK);
    }
  }

  lemma {:induction false} CruiseTimes(y: real, n: nat)
    requires 549.2 <= y <= 573.4
    ensures AllFit(y, Times(CRUISE, n)) && TotalRise(Times(CRUISE, n)) == 0.0
    ensures TotalTime(Times(CRUISE, n)) == 133 * n
  {
    hide AllFit, TotalRise, TotalTime;
    if n == 0 {
      NothingFits(y);
    } else {
      CruiseTimes(y, n - 1);
      CruiseFits(y);
      AllFitAppend(y, Times(CRUISE, n - 1), CRUISE);
    }
  }

  /** 210 arcs in 7118 ticks that end 3.72 below where they began. */
  function Plan(): seq<nat> {
    CLIMB + Times(SINK, 24) + Times(CRUISE, 28)
  }

  lemma PlanFits()
    ensures AllFit(559.8, Plan()) && TotalRise(Plan()) == -3.72 && TotalTime(Plan()) == 7118
  {
    hide AllFit, TotalRise, TotalTime, Times;
    ClimbFits();
    SinkTimes(576.24, 24);
    AllFitAppend(559.8, CLIMB, Times(SINK, 24));
    CruiseTimes(556.08, 28);
    AllFitAppend(559.8, CLIMB + Times(SINK, 24), Times(CRUISE, 28));
  }

  // ----- falling onto the plan's first height -----

  const DROP: nat := 29

  function DropEvents(n: nat): seq<Event> {
    if n == 0 then [] else DropEvents(n - 1) + [Ticked({})]
  }

  /** Half a parabola, then a steady fall. */
  ghost predicate Dropped(b: Bird, n: nat) {
    && !b.dead
    && (n <= 19 ==> b.vy == 0.42 * n as real && b.y == 400.0 + 0.21 * (n * (n + 1)) as real)
    && (n >= 20 ==> b.vy == 8.0 && b.y == 479.8 + 8.0 * (n - 19) as real)
  }

  lemma Grows(n: nat, j: nat)
    requires n + j == 19
    ensures n * (n + 1) <= 380
  {
  }

  lemma DropIsHigh(n: nat)
    requires 1 <= n <= DROP
    ensures n <= 19 ==> 0.0 <= 0.21 * (n * (n + 1)) as real <= 80.0
  {
    if n <= 19 {
      Grows(n, 19 - n);
    }
  }

  lemma DropTick(b: Bird, n: nat)
    requires 1 <= n <= DROP && Dropped(b, n - 1)
    ensures var f := Fly(b, false, n);
            Dropped(b.(y := f.y, vy := f.vy), n) && !OnGround(f.y)
  {
    Falling.Triangle(n);
    DropIsHigh(n);
  }

  lemma SameDrop(b: Bird, c: Bird, n: nat)
    requires b.y == c.y && b.vy == c.vy && b.dead == c.dead && Dropped(b, n)
    ensures Dropped(c, n)
  {
  }

  lemma FirstDrop(b: Bird)
    requires b.y == SPAWN_Y && b.vy == 0.0 && !b.dead
    ensures Dropped(b, 0)
  {
  }

  lemma DropLives(b: Bird, n: nat)
    requires Dropped(b, n)
    ensures !b.dead
  {
  }

  lemma KeepsBird(w: State, flaps: set<nat>, id: nat)
    requires id in w.birds
    ensures id in Step(w, flaps).birds
  {
  }

  lemma OneDrop(w: State, id: nat, n: nat)
    requires 1 <= n <= DROP && Reachable(w) && w.track.tick == n - 1 && id in w.birds && Dropped(w.birds[id], n - 1)
    ensures var d := Step(w, {});
            && Reachable(d) && d.track.tick == n && d.track.draws == w.track.draws
            && id in d.birds && Dropped(d.birds[id], n)
  {
    hide Reachable, Dropped, OnGround, Fly, Step;
    KeepsBird(w, {}, id);
    StepReachable(w, {});
    StepTrack(w, {});
    DropLives(w.birds[id], n - 1);
    Falling.EarlyTick(w, {}, id);
    DropTick(w.birds[id], n);
    var f := Fly(w.birds[id], false, n);
    SameDrop(w.birds[id].(y := f.y, vy := f.vy), Step(w, {}).birds[id], n);
  }

  lemma {:induction false} DropsDown(w: State, id: nat, n: nat)
    requires Grid(w) && id in w.birds && n <= DROP
    ensures var d := Run(w, DropEvents(n));
            && Reachable(d) && d.track.tick == n && d.track.draws == w.track.draws
            && id in d.birds && Dropped(d.birds[id], n)
  {
    hide Reachable, Grid, Dropped, OnGround, Fly, Step;
    if n == 0 {
      assert Run(w, []) == w;
      GridReachable(w);
      Falling.GridStarts(w);
      FirstDrop(w.birds[id]);
    } else {
      DropsDown(w, id, n - 1);
      RunOne(w, DropEvents(n - 1), {});
      OneDrop(Run(w, DropEvents(n - 1)), id, n);
    }
  }

  lemma DropEnds(b: Bird)
    requires Dropped(b, DROP)
    ensures b.y == 559.8 && !b.dead
  {
  }

  // ----- the last arc -----

  /** Until tick 7184 the fall stays in the band, and until tick 7199 above the ground. */
  lemma FallIsClear(k: nat)
    requires 34 <= k <= 52
    ensures k <= 37 ==> InBand(Height(556.08, k))
    ensures k >= 38 ==> CEILING_Y <= Height(556.08, k) && !OnGround(Height(556.08, k))
  {
    if k == 34 {
    } else if k == 35 {
    } else if k == 36 {
    }
  }

  lemma FallTick(w: State, flaps: set<nat>, b: nat, k: nat)
    requires On(w, b, 556.08, k) && 33 <= k < 52 && w.track.tick == 7147 + k && b !in flaps
    ensures On(Step(w, flaps), b, 556.08, k + 1) && Step(w, flaps).track.tick == 7147 + k + 1
  {
    hide On, Step, Height, OnGround, InBand;
    FallIsClear(k + 1);
    Glides(w, flaps, b, 556.08, k);
  }

  /** While `a` flies another arc, `b` falls on from its last flap, clear of every pipe. */
  lemma {:induction false} FallsOn(w: State, a: nat, b: nat, j: nat)
    requires On(w, b, 556.08, 33) && w.track.tick == 7180 && a != b && j <= 19
    ensures On(Run(w, Arc({a}, j)), b, 556.08, 33 + j) && Run(w, Arc({a}, j)).track.tick == 7180 + j
  {
    hide On, Step;
    if j == 0 {
      assert Run(w, []) == w;
    } else {
      var flaps := if j == 1 then {a} else {};
      FallsOn(w, a, b, j - 1);
      RunOne(w, Arc({a}, j - 1), flaps);
      FallTick(Run(w, Arc({a}, j - 1)), flaps, b, 32 + j);
    }
  }

  lemma LandsAt53()
    ensures Height(556.08, 53) >= CEILING_Y && OnGround(Height(556.08, 53))
  {
  }

  /** On tick 7200 it ends on the ground. */
  lemma FallEnds(w: State, b: nat)
    requires On(w, b, 556.08, 52) && w.track.tick == 7199
    ensures var s := Step(w, {});
            s.track.tick == 7200 && b in s.birds && s.birds[b].dead && s.birds[b].deathTick == 7200
  {
    hide Reachable, Low, Height, Speed, Fly, Crashes;
    StepTrack(w, {});
    LandsAt53();
    ArcTick(w.birds[b], 556.08, 52, 7200);
    NoPipeAtTheEnd(Step(w, {}).track, Height(556.08, 53));
    DeadlyTick(w, {}, b);
  }

  /** The whole race. */
  function Events(a: nat, b: nat): seq<Event> {
    DropEvents(DROP) + Arcs({a, b}, Plan()) + Arc({a, b}, 33) + Arc({a}, 20)
  }

  lemma ReachesLastFlap(w: State, a: nat, b: nat)
    requires Grid(w) && Low(w.track.draws) && a in w.birds && b in w.birds
    ensures Level(Run(w, DropEvents(DROP) + Arcs({a, b}, Plan())), a, b, 556.08, 7147)
  {
    hide Grid, Reachable, Low, Dropped, Plan, AllFit, TotalRise, TotalTime;
    DropsDown(w, a, DROP);
    DropsDown(w, b, DROP);
    var d := Run(w, DropEvents(DROP));
    DropEnds(d.birds[a]);
    DropEnds(d.birds[b]);
    PlanFits();
    BothFlyArcs(d, a, b, Plan(), 559.8, DROP);
    RunConcat(w, DropEvents(DROP), Arcs({a, b}, Plan()));
  }

  lemma HeightAt33()
    ensures Height(556.08, 33) == 554.1
  {
  }

  lemma LastTickOfArc(w: State, a: nat)
    ensures Run(w, Arc({a}, 20)) == Step(Run(w, Arc({a}, 19)), {})
  {
    hide Step;
    RunOne(w, Arc({a}, 19), {});
  }

  lemma LastArcs(w: State, a: nat, b: nat)
    requires Level(w, a, b, 556.08, 7147) && a != b
    ensures var r := Run(Run(w, Arc({a, b}, 33)), Arc({a}, 20));
            && Reachable(r) && r.track.tick == 7200 && a in r.birds && b in r.birds
            && !r.birds[a].dead && r.birds[b].dead && r.birds[b].deathTick == 7200
  {
    hide Reachable, Low, Arc, Step, Run, Height;
    var m := Run(w, Arc({a, b}, 33));
    FliesArc(w, {a, b}, 33, a, 33);
    FliesArc(w, {a, b}, 33, b, 33);
    HeightAt33();
    FliesArc(m, {a}, 20, a, 33);
    FallsOn(m, a, b, 19);
    LastTickOfArc(m, a);
    FallEnds(Run(m, Arc({a}, 19)), b);
  }

  lemma OneOfTwo(w: State, a: nat, b: nat)
    requires Reachable(w) && a in w.birds && b in w.birds && a != b
    ensures Rank.StandsAbove(w.birds[a], w.birds[b]) || Rank.StandsAbove(w.birds[b], w.birds[a])
  {
  }

  lemma {:induction false} ArcTicks(ids: set<nat>, p: nat)
    ensures forall i :: 0 <= i < |Arc(ids, p)| ==> Arc(ids, p)[i].Ticked?
  {
    if p > 0 {
      ArcTicks(ids, p - 1);
    }
  }

  lemma {:induction false} ArcsTick(ids: set<nat>, lengths: seq<nat>)
    ensures forall i :: 0 <= i < |Arcs(ids, lengths)| ==> Arcs(ids, lengths)[i].Ticked?
  {
    if lengths != [] {
      ArcsTick(ids, lengths[..|lengths| - 1]);
      ArcTicks(ids, lengths[|lengths| - 1]);
    }
  }

  lemma {:induction false} DropTicks(n: nat)
    ensures forall i :: 0 <= i < |DropEvents(n)| ==> DropEvents(n)[i].Ticked?
  {
    if n > 0 {
      DropTicks(n - 1);
    }
  }

  lemma OnlyTicks(a: nat, b: nat)
    ensures forall i :: 0 <= i < |Events(a, b)| ==> Events(a, b)[i].Ticked?
  {
    hide DropEvents, Arcs, Arc, Plan;
    DropTicks(DROP);
    ArcsTick({a, b}, Plan());
    ArcTicks({a, b}, 33);
    ArcTicks({a}, 20);
  }

  /** From every starting grid on a low track there is a race to the tick cap, of ticks only, in which
      `a` survives, `b` of the lower id dies on the last tick, and `b` is ranked above `a`. */
  lemma SurvivorCanLose(w: State, a: nat, b: nat) returns (events: seq<Event>)
    requires Grid(w) && Low(w.track.draws) && a in w.birds && b in w.birds && b < a
    ensures forall i :: 0 <= i < |events| ==> events[i].Ticked?
    ensures var r := Run(w, events);
            && r.track.tick == MAX_RACE_TICKS && a in r.birds && b in r.birds
            && !r.birds[a].dead && r.birds[b].dead && Rank.StandsAbove(r.birds[b], r.birds[a])
  {
    hide Grid, Reachable, Low, Level, Run, Arc, Arcs, Plan, DropEvents, Rank.StandsAbove;
    events := Events(a, b);
    ReachesLastFlap(w, a, b);
    var m := Run(w, DropEvents(DROP) + Arcs({a, b}, Plan()));
    LastArcs(m, a, b);
    RunConcat(w, DropEvents(DROP) + Arcs({a, b}, Plan()), Arc({a, b}, 33));
    RunConcat(w, DropEvents(DROP) + Arcs({a, b}, Plan()) + Arc({a, b}, 33), Arc({a}, 20));
    OnlyTicks(a, b);
    Rank.SurvivorAtCap(Run(w, events), a, b);
    OneOfTwo(Run(w, events), a, b);
  }
}
