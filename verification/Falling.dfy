/** Forty-eight ticks of a race in which one bird flaps once and another never does: the first lives,
    the second is dead. */
module Falling {
  import opened Protocol
  import Track
  import opened Flight
  import opened WorldSpec
  import opened Race

  const FALL: nat := 48

  /** The race of `n` ticks in which `a` flaps on the first and nobody else ever. */
  function Dive(w: State, a: nat, n: nat): State {
    if n == 0 then w else Step(Dive(w, a, n - 1), if n == 1 then {a} else {})
  }

  lemma GridStarts(w: State)
    requires Grid(w)
    ensures w.track.tick == 0
    ensures forall id :: id in w.birds ==> w.birds[id].y == SPAWN_Y && w.birds[id].vy == 0.0 && !w.birds[id].dead
  {
  }

  lemma {:induction false} DiveReaches(w: State, a: nat, n: nat)
    requires Grid(w)
    ensures var d := Dive(w, a, n);
            Reachable(d) && d.track.tick == n && d.birds.Keys == w.birds.Keys && d.track.draws == w.track.draws
  {
    hide Reachable, Grid;
    if n == 0 {
      GridReachable(w);
      GridStarts(w);
    } else {
      DiveReaches(w, a, n - 1);
      StepReachable(Dive(w, a, n - 1), if n == 1 then {a} else {});
      StepTrack(Dive(w, a, n - 1), if n == 1 then {a} else {});
    }
  }

  // ----- no pipe is near yet -----

  lemma {:induction false} DistBelow(n: nat)
    ensures Track.DistAt(n) <= RAMP_SPEED_CAP * n as real
  {
    if n > 0 {
      DistBelow(n - 1);
      Track.ScrollBounds(n);
    }
  }

  lemma PipesAreFar(t: Track.State, y: real)
    requires t == Track.At(t.draws, t.tick) && 1 <= t.tick <= FALL
    ensures Crashes(y, t.pipes) <==> OnGround(y)
  {
    Track.Reached(t.draws, t.tick);
    DistBelow(t.tick);
    forall i | 0 <= i < |t.pipes|
      ensures !InXWindow(t.pipes[i])
    {
      Track.XOrder(1, t.pipes[i].id, t.dist);
    }
  }

  lemma FlyLives(b: Bird, flapped: bool, tick: nat)
    ensures Fly(b, flapped, tick).dead == b.dead
  {
  }

  /** As long as no pipe is near, a tick only moves a bird, or lands it. */
  lemma EarlyTick(w: State, flaps: set<nat>, id: nat)
    requires Reachable(w) && id in w.birds && !w.birds[id].dead && w.track.tick < FALL
    ensures var s, f := Step(w, flaps), Fly(w.birds[id], id in flaps, w.track.tick + 1);
            s.birds[id].y == f.y && s.birds[id].vy == f.vy && (s.birds[id].dead <==> OnGround(f.y))
  {
    hide Reachable, Fly, OnGround, Crashes;
    StepTrack(w, flaps);
    FlyLives(w.birds[id], id in flaps, w.track.tick + 1);
    PipesAreFar(Step(w, flaps).track, Fly(w.birds[id], id in flaps, w.track.tick + 1).y);
  }

  // ----- the two trajectories -----

  /** After a flap on the first tick: a parabola, then a steady fall. */
  ghost predicate Gliding(b: Bird, n: nat) {
    && !b.dead
    && (1 <= n <= 36 ==> b.vy == 0.42 * n as real - 7.2 && b.y == 400.0 - 7.2 * n as real + 0.21 * (n * (n + 1)) as real)
    && (n >= 36 ==> 0.0 <= b.vy <= 8.0 && 400.0 <= b.y <= 421.0 + 8.0 * (n - 36) as real)
  }

  /** Without a flap: half a parabola, then a steady fall. */
  ghost predicate Dropping(b: Bird, n: nat) {
    !b.dead ==>
    && (n <= 19 ==> b.vy == 0.42 * n as real && b.y == 400.0 + 0.21 * (n * (n + 1)) as real)
    && (n >= 19 ==> b.vy >= 7.98 && b.y >= 479.8 + 7.98 * (n - 19) as real)
  }

  lemma Triangle(n: nat)
    requires n >= 1
    ensures 0.21 * (n * (n + 1)) as real == 0.21 * ((n - 1) * n) as real + 0.42 * n as real
  {
    assert n * (n + 1) == (n - 1) * n + 2 * n;
  }

  /** The parabola stays clear of the ceiling and the ground. */
  lemma GlideIsHigh(n: nat)
    requires 1 <= n <= 36
    ensures 100.0 <= 400.0 - 7.2 * n as real + 0.21 * (n * (n + 1)) as real <= 421.0
  {
  }

  lemma GlideOn(b: Bird, n: nat)
    requires 2 <= n <= FALL && Gliding(b, n - 1)
    ensures var f := Fly(b, false, n);
            Gliding(b.(y := f.y, vy := f.vy), n) && !OnGround(f.y)
  {
    Triangle(n);
    if n <= 36 {
      GlideIsHigh(n);
    }
  }

  lemma DropOn(b: Bird, n: nat)
    requires 1 <= n <= FALL && !b.dead && Dropping(b, n - 1)
    ensures var f := Fly(b, false, n);
            Dropping(b.(y := f.y, vy := f.vy), n)
  {
    Triangle(n);
  }

  lemma GlideLives(b: Bird, n: nat)
    requires Gliding(b, n)
    ensures !b.dead
  {
  }

  lemma FirstGlide(b: Bird)
    requires b.y == SPAWN_Y && b.vy == 0.0 && !b.dead
    ensures var f := Fly(b, true, 1);
            Gliding(f, 1) && !OnGround(f.y)
  {
  }

  lemma SameFlight(b: Bird, c: Bird, n: nat)
    requires b.y == c.y && b.vy == c.vy && b.dead == c.dead
    ensures Gliding(b, n) ==> Gliding(c, n)
    ensures Dropping(b, n) ==> Dropping(c, n)
  {
  }

  lemma {:induction false} GlideThrough(w: State, a: nat, n: nat)
    requires Grid(w) && a in w.birds && 1 <= n <= FALL
    ensures a in Dive(w, a, n).birds && Gliding(Dive(w, a, n).birds[a], n)
  {
    hide Reachable, Grid, Gliding, OnGround, Fly, Step;
    var before := Dive(w, a, n - 1);
    DiveReaches(w, a, n - 1);
    DiveReaches(w, a, n);
    if n == 1 {
      GridStarts(w);
      EarlyTick(w, {a}, a);
      FirstGlide(w.birds[a]);
      SameFlight(Fly(w.birds[a], true, 1), Dive(w, a, 1).birds[a], 1);
    } else {
      GlideThrough(w, a, n - 1);
      GlideLives(before.birds[a], n - 1);
      EarlyTick(before, {}, a);
      GlideOn(before.birds[a], n);
      var f := Fly(before.birds[a], false, n);
      SameFlight(before.birds[a].(y := f.y, vy := f.vy), Dive(w, a, n).birds[a], n);
    }
  }

  lemma DeadDrops(w: State, flaps: set<nat>, id: nat, n: nat)
    requires id in w.birds
    ensures w.birds[id].dead ==> Step(w, flaps).birds[id].dead
    ensures Step(w, flaps).birds[id].dead ==> Dropping(Step(w, flaps).birds[id], n)
  {
    hide Crashes;
  }

  lemma FirstDrop(b: Bird)
    requires b.y == SPAWN_Y && b.vy == 0.0 && !b.dead
    ensures Dropping(b, 0)
  {
  }

  lemma {:induction false} DropThrough(w: State, a: nat, b: nat, n: nat)
    requires Grid(w) && b in w.birds && a != b && n <= FALL
    ensures b in Dive(w, a, n).birds && Dropping(Dive(w, a, n).birds[b], n)
  {
    hide Reachable, Grid, Dropping, OnGround, Fly, Step;
    DiveReaches(w, a, n);
    if n == 0 {
      GridStarts(w);
      FirstDrop(w.birds[b]);
    } else {
      var before := Dive(w, a, n - 1);
      DiveReaches(w, a, n - 1);
      DropThrough(w, a, b, n - 1);
      if !before.birds[b].dead {
        EarlyTick(before, if n == 1 then {a} else {}, b);
        DropOn(before.birds[b], n);
        var f := Fly(before.birds[b], false, n);
        if !Dive(w, a, n).birds[b].dead {
          SameFlight(before.birds[b].(y := f.y, vy := f.vy), Dive(w, a, n).birds[b], n);
        }
      }
      DeadDrops(before, if n == 1 then {a} else {}, b, n);
    }
  }

  lemma LivingOffGround(w: State, id: nat)
    requires Reachable(w) && id in w.birds && w.track.tick > 0
    ensures w.birds[id].dead || !OnGround(w.birds[id].y)
  {
  }

  /** After forty-eight ticks the bird that flapped flies and the one that did not is dead. */
  lemma OneLivesOneDies(w: State, a: nat, b: nat)
    requires Grid(w) && a in w.birds && b in w.birds && a != b
    ensures var d := Dive(w, a, FALL);
            && Reachable(d) && d.track.tick == FALL && d.birds.Keys == w.birds.Keys
            && !d.birds[a].dead && d.birds[b].dead
  {
    hide Grid, Dive, Reachable;
    DiveReaches(w, a, FALL);
    GlideThrough(w, a, FALL);
    DropThrough(w, a, b, FALL);
    LivingOffGround(Dive(w, a, FALL), b);
  }
}
