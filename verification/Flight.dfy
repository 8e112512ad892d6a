/** One bird: physics, collision and scoring of world.go, for a given pipe list. */
module Flight {
  import opened Protocol
  import opened Track

  datatype Bird = Bird(
    id: nat,
    name: string,
    pal: nat,
    acc: nat,
    y: real,
    vy: real,
    score: nat,
    dead: bool,
    deathTick: nat,
    left: bool,
    lastFlap: nat,
    nextPipeID: nat)

  function Hatch(id: nat, name: string, pal: nat, acc: nat): Bird {
    Bird(id, name, pal, acc, SPAWN_Y, 0.0, 0, false, 0, false, 0, 1)
  }

  function Kill(b: Bird, tick: nat): Bird {
    b.(dead := true, deathTick := tick)
  }

  /** A connection drop kills a live racer and marks it; the dead are left alone. */
  function Abandon(b: Bird, tick: nat): Bird {
    if b.dead then b else b.(dead := true, left := true, deathTick := tick)
  }

  /** Flap, gravity, motion, ceiling. */
  function Fly(b: Bird, flapped: bool, tick: nat): Bird {
    var f := if flapped then b.(vy := FLAP_IMPULSE, lastFlap := tick) else b;
    var vy := Min(f.vy + GRAVITY, TERMINAL_VEL);
    var y := f.y + vy;
    if y < CEILING_Y then f.(y := CEILING_Y, vy := if vy < 0.0 then 0.0 else vy)
    else f.(y := y, vy := vy)
  }

  /** The closest-point test between a circle and an axis-aligned rectangle. */
  predicate CircleRect(cx: real, cy: real, r: real, x0: real, y0: real, x1: real, y1: real) {
    var dx := cx - Clamp(cx, x0, x1);
    var dy := cy - Clamp(cy, y0, y1);
    dx * dx + dy * dy < r * r
  }

  predicate HitsTop(y: real, p: Pipe) {
    CircleRect(BIRD_X, y, BIRD_RADIUS, p.x, 0.0, p.x + PIPE_WIDTH, p.gapY - p.gapH / 2.0)
  }

  predicate HitsBottom(y: real, p: Pipe) {
    CircleRect(BIRD_X, y, BIRD_RADIUS, p.x, p.gapY + p.gapH / 2.0, p.x + PIPE_WIDTH, GROUND_Y)
  }

  /** The program skips pipes that do not overlap the bird horizontally. */
  predicate InXWindow(p: Pipe) {
    !(p.x > BIRD_X + BIRD_RADIUS || p.x + PIPE_WIDTH < BIRD_X - BIRD_RADIUS)
  }

  predicate Hits(y: real, p: Pipe) {
    InXWindow(p) && (HitsTop(y, p) || HitsBottom(y, p))
  }

  predicate OnGround(y: real) {
    y + BIRD_RADIUS >= GROUND_Y
  }

  predicate Crashes(y: real, pipes: seq<Pipe>) {
    OnGround(y) || exists i :: 0 <= i < |pipes| && Hits(y, pipes[i])
  }

  predicate HasPassed(p: Pipe) {
    p.x + PIPE_WIDTH < BIRD_X - BIRD_RADIUS
  }

  /** Scoring over the pipe list, first pipe first. */
  function ScoreAlong(b: Bird, pipes: seq<Pipe>): (r: Bird)
    ensures r == b.(score := r.score, nextPipeID := r.nextPipeID)
    ensures r.score - b.score == r.nextPipeID - b.nextPipeID >= 0
  {
    if pipes == [] then b
    else
      var before := ScoreAlong(b, pipes[..|pipes| - 1]);
      var p := pipes[|pipes| - 1];
      if p.id == before.nextPipeID && HasPassed(p)
      then before.(score := before.score + 1, nextPipeID := before.nextPipeID + 1)
      else before
  }

  function Judge(b: Bird, pipes: seq<Pipe>, tick: nat): Bird {
    if b.dead then b
    else if Crashes(b.y, pipes) then Kill(b, tick)
    else ScoreAlong(b, pipes)
  }

  /** What one tick does to one bird, given the pipes as they stand after the scroll. */
  function Tick(b: Bird, flapped: bool, tick: nat, pipes: seq<Pipe>): Bird {
    if b.dead then b else Judge(Fly(b, flapped, tick), pipes, tick)
  }

  // ----- the collision test is exact -----

  ghost predicate PointWithin(px: real, py: real, cx: real, cy: real, r: real,
                              x0: real, y0: real, x1: real, y1: real) {
    && x0 <= px <= x1 && y0 <= py <= y1
    && (cx - px) * (cx - px) + (cy - py) * (cy - py) < r * r
  }

  /** Some point of the rectangle is closer to the centre than `r`. */
  ghost predicate Overlaps(cx: real, cy: real, r: real, x0: real, y0: real, x1: real, y1: real) {
    exists px: real, py: real :: PointWithin(px, py, cx, cy, r, x0, y0, x1, y1)
  }

  lemma SquareGrows(d: real, e: real)
    requires 0.0 <= d && (d == 0.0 || d <= e)
    ensures d * d <= e * e
  {
  }

  lemma ClampIsNearest(c: real, p: real, lo: real, hi: real)
    requires lo <= p <= hi
    ensures (c - Clamp(c, lo, hi)) * (c - Clamp(c, lo, hi)) <= (c - p) * (c - p)
  {
    var d, e := c - Clamp(c, lo, hi), c - p;
    if d >= 0.0 {
      SquareGrows(d, e);
    } else {
      SquareGrows(-d, -e);
    }
  }

  lemma CircleRectExact(cx: real, cy: real, r: real, x0: real, y0: real, x1: real, y1: real)
    requires x0 <= x1 && y0 <= y1
    ensures CircleRect(cx, cy, r, x0, y0, x1, y1) <==> Overlaps(cx, cy, r, x0, y0, x1, y1)
  {
    if CircleRect(cx, cy, r, x0, y0, x1, y1) {
      assert PointWithin(Clamp(cx, x0, x1), Clamp(cy, y0, y1), cx, cy, r, x0, y0, x1, y1);
    }
    forall px, py | PointWithin(px, py, cx, cy, r, x0, y0, x1, y1)
      ensures CircleRect(cx, cy, r, x0, y0, x1, y1)
    {
      ClampIsNearest(cx, px, x0, x1);
      ClampIsNearest(cy, py, y0, y1);
    }
  }

  lemma FarSideways(dx: real, dy: real)
    requires dx <= -BIRD_RADIUS || dx >= BIRD_RADIUS
    ensures dx * dx + dy * dy >= BIRD_RADIUS * BIRD_RADIUS
  {
    SquareGrows(BIRD_RADIUS, if dx >= 0.0 then dx else -dx);
    SquareGrows(0.0, dy);
  }

  /** Outside the bird's x window no pipe can touch it, so skipping those pipes changes nothing. */
  lemma XWindowIsSafe(y: real, p: Pipe)
    ensures Hits(y, p) <==> HitsTop(y, p) || HitsBottom(y, p)
  {
    if !InXWindow(p) {
      var dx := BIRD_X - Clamp(BIRD_X, p.x, p.x + PIPE_WIDTH);
      FarSideways(dx, y - Clamp(y, 0.0, p.gapY - p.gapH / 2.0));
      FarSideways(dx, y - Clamp(y, p.gapY + p.gapH / 2.0, GROUND_Y));
    }
  }

  // ----- surviving a pipe means flying its gap -----

  /** The centre is over the pipe and the whole circle is inside its gap. */
  predicate InGap(y: real, p: Pipe) {
    && p.x <= BIRD_X <= p.x + PIPE_WIDTH
    && p.gapY - p.gapH / 2.0 <= y - BIRD_RADIUS
    && y + BIRD_RADIUS <= p.gapY + p.gapH / 2.0
  }

  lemma Product(a: real, b: real)
    requires a > 0.0 && b > 0.0
    ensures a * b > 0.0
  {
  }

  lemma SquareGrowsStrictly(d: real, e: real)
    requires 0.0 <= d < e
    ensures d * d < e * e
  {
    var a, b := e - d, e + d;
    Product(a, b);
    assert a * b == e * e - d * d;
  }

  lemma Near(dx: real, dy: real)
    requires dx == 0.0 && -BIRD_RADIUS < dy < BIRD_RADIUS
    ensures dx * dx + dy * dy < BIRD_RADIUS * BIRD_RADIUS
  {
    if dy >= 0.0 {
      SquareGrowsStrictly(dy, BIRD_RADIUS);
    } else {
      SquareGrowsStrictly(-dy, BIRD_RADIUS);
    }
  }

  lemma SurvivorInGap(y: real, p: Pipe)
    requires CEILING_Y <= y && !OnGround(y)
    requires p.x <= BIRD_X <= p.x + PIPE_WIDTH
    requires 0.0 < p.gapY - p.gapH / 2.0 < p.gapY + p.gapH / 2.0 < GROUND_Y
    requires !Hits(y, p)
    ensures InGap(y, p)
  {
    var top, bottom := p.gapY - p.gapH / 2.0, p.gapY + p.gapH / 2.0;
    if y - BIRD_RADIUS < top {
      Near(0.0, y - Clamp(y, 0.0, top));
    }
    if y + BIRD_RADIUS > bottom {
      Near(0.0, y - Clamp(y, bottom, GROUND_Y));
    }
  }

  // ----- scores are a closed form of the distance -----

  /** Pipe `id` of the infinite row lies entirely behind the bird. */
  predicate Behind(id: int, dist: real) {
    X(id, dist) + PIPE_WIDTH < BIRD_X - BIRD_RADIUS
  }

  function PassedFrom(id: nat, dist: real): (n: nat)
    requires id >= 1
    ensures n + 1 >= id
    ensures !Behind(n + 1, dist) && forall k :: id <= k <= n ==> Behind(k, dist)
    decreases dist - PIPE_SPACING * id as real
  {
    if Behind(id, dist) then PassedFrom(id + 1, dist) else id - 1
  }

  /** How many pipes of the infinite row lie behind the bird. */
  function Passed(dist: real): nat {
    PassedFrom(1, dist)
  }

  lemma PassedCounts(dist: real, k: nat)
    requires k >= 1
    ensures k <= Passed(dist) <==> Behind(k, dist)
  {
    if k > Passed(dist) {
      XOrder(Passed(dist) + 1, k, dist);
    }
  }

  lemma PassedGrows(d: real, e: real)
    requires d <= e
    ensures Passed(d) <= Passed(e)
  {
    var n := Passed(d);
    if n >= 1 {
      PassedCounts(d, n);
      ShiftMoves(n, d, e - d);
      PassedCounts(e, n);
    }
  }

  lemma PassedAtMostOneMore(d: real, e: real)
    requires d <= e <= d + RAMP_SPEED_CAP
    ensures Passed(e) <= Passed(d) + 1
  {
    var n := Passed(d) + 1;
    PassedCounts(d, n);
    ShiftMoves(n, d, e - d);
    XOrder(n, n + 1, e);
    PassedCounts(e, n + 1);
  }

  /** Scoring adds the one pipe that has just gone past, and touches nothing but the two counters. */
  lemma {:induction false} ScoreAlongPrefix(b: Bird, pipes: seq<Pipe>, first: nat)
    requires forall i :: 0 <= i < |pipes| ==> pipes[i].id == first + i
    requires forall i :: 0 <= i < |pipes| && pipes[i].id == b.nextPipeID + 1 ==> !HasPassed(pipes[i])
    ensures var gained := exists i :: 0 <= i < |pipes| && pipes[i].id == b.nextPipeID && HasPassed(pipes[i]);
            ScoreAlong(b, pipes) == if gained then b.(score := b.score + 1, nextPipeID := b.nextPipeID + 1) else b
  {
    if pipes != [] {
      var m := |pipes| - 1;
      ScoreAlongPrefix(b, pipes[..m], first);
      if exists i :: 0 <= i < m && pipes[i].id == b.nextPipeID && HasPassed(pipes[i]) {
        var i :| 0 <= i < m && pipes[i].id == b.nextPipeID && HasPassed(pipes[i]);
        assert pipes[..m][i] == pipes[i];
      }
    }
  }

  /** A living bird's counters agree with the closed form for distance `dist`. */
  predicate Tallied(b: Bird, dist: real) {
    b.score == Passed(dist) && b.nextPipeID == b.score + 1
  }

  lemma ScoreIsTally(b: Bird, t: State, before: real)
    requires Settled(t) && before <= t.dist <= before + RAMP_SPEED_CAP
    requires Tallied(b, before)
    ensures Tallied(ScoreAlong(b, t.pipes), t.dist)
    ensures ScoreAlong(b, t.pipes) == b.(score := Passed(t.dist), nextPipeID := Passed(t.dist) + 1)
  {
    var n, first := b.nextPipeID, t.pipes[0].id;
    PassedAtMostOneMore(before, t.dist);
    PassedGrows(before, t.dist);
    PassedCounts(t.dist, n);
    PassedCounts(t.dist, n + 1);
    PassedCounts(before, n);
    ShiftMoves(n, before, t.dist - before);
    WindowOf(t);
    assert Behind(n, t.dist) ==> InView(n, t.dist);
    ScoreAlongPrefix(b, t.pipes, first);
  }
}
