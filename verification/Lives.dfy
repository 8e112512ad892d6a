/** What befalls a bird over a whole race: how it falls from the ceiling, why it dies, with which score,
    and what its flags mean. Each is told by the events of the race alone. */
module Lives {
  import opened Protocol
  import Track
  import opened Flight
  import opened WorldSpec
  import opened Race
  import Rank
  import Falling

  // ----- motion -----

  /** The speed a living bird moves with on a tick. */
  function Speed(vy: real, flapped: bool): real {
    Min((if flapped then FLAP_IMPULSE else vy) + GRAVITY, TERMINAL_VEL)
  }

  /** A tick moves a living bird by its speed; only one that would come strictly above the ceiling is
      held there, at rest. */
  lemma TickMoves(w: State, flaps: set<nat>, id: nat)
    requires id in w.birds && !w.birds[id].dead
    ensures var b, s := w.birds[id], Step(w, flaps);
            var v := Speed(b.vy, id in flaps);
            && id in s.birds
            && (b.y + v >= CEILING_Y ==> s.birds[id].y == b.y + v && s.birds[id].vy == v)
            && (b.y + v < CEILING_Y && b.y >= CEILING_Y ==> s.birds[id].y == CEILING_Y && s.birds[id].vy == 0.0)
  {
    hide Crashes, Track.Step;
  }

  ghost predicate WithoutFlaps(events: seq<Event>, id: nat) {
    forall i :: 0 <= i < |events| ==> events[i].Ticked? && id !in events[i].flaps
  }

  lemma DeadStaysDead(w: State, e: Event, id: nat)
    requires id in w.birds && w.birds[id].dead
    ensures id in Apply(w, e).birds && Apply(w, e).birds[id] == w.birds[id]
  {
    hide Track.Step;
  }

  lemma FallsFurther(b: Bird, n: nat)
    requires 1 <= n <= 19
    requires b.vy == 0.42 * (n - 1) as real && b.y == 11.0 + 0.21 * ((n - 1) * n) as real
    ensures var v := Speed(b.vy, false);
            v == 0.42 * n as real && b.y + v == 11.0 + 0.21 * (n * (n + 1)) as real && b.y + v >= CEILING_Y
  {
    Falling.Triangle(n);
    assert n * (n + 1) >= 0;
  }

  /** A bird that flew against the ceiling falls from rest, whatever speed it came with: for as long as it
      lives and does not flap, up to nineteen ticks, it is where a stone dropped from there would be. */
  lemma {:induction false} FallsFromCeiling(w: State, flaps: set<nat>, id: nat, events: seq<Event>)
    requires id in w.birds && !w.birds[id].dead && w.birds[id].y >= CEILING_Y
    requires w.birds[id].y + Speed(w.birds[id].vy, id in flaps) < CEILING_Y
    requires |events| <= 19 && WithoutFlaps(events, id)
    ensures var r, n := Run(Step(w, flaps), events), |events|;
            && id in r.birds
            && (!r.birds[id].dead ==>
                  r.birds[id].vy == 0.42 * n as real && r.birds[id].y == 11.0 + 0.21 * (n * (n + 1)) as real)
  {
    hide Step, Speed;
    TickMoves(w, flaps, id);
    if events != [] {
      var n := |events|;
      var front, e := events[..n - 1], events[n - 1];
      assert forall i :: 0 <= i < n - 1 ==> front[i] == events[i];
      FallsFromCeiling(w, flaps, id, front);
      var before := Run(Step(w, flaps), front);
      if before.birds[id].dead {
        DeadStaysDead(before, e, id);
      } else {
        FallsFurther(before.birds[id], n);
        TickMoves(before, e.flaps, id);
      }
    }
  }

  // ----- death -----

  /** Some point of one of the pipe's two rectangles is nearer to the bird than its radius. */
  ghost predicate Touches(y: real, p: Track.Pipe) {
    || Overlaps(BIRD_X, y, BIRD_RADIUS, p.x, 0.0, p.x + PIPE_WIDTH, p.gapY - p.gapH / 2.0)
    || Overlaps(BIRD_X, y, BIRD_RADIUS, p.x, p.gapY + p.gapH / 2.0, p.x + PIPE_WIDTH, GROUND_Y)
  }

  lemma HitsIsTouch(y: real, p: Track.Pipe)
    requires 0.0 < p.gapY - p.gapH / 2.0 < p.gapY + p.gapH / 2.0 < GROUND_Y
    ensures Hits(y, p) <==> Touches(y, p)
  {
    hide CircleRect, Overlaps;
    CircleRectExact(BIRD_X, y, BIRD_RADIUS, p.x, 0.0, p.x + PIPE_WIDTH, p.gapY - p.gapH / 2.0);
    CircleRectExact(BIRD_X, y, BIRD_RADIUS, p.x, p.gapY + p.gapH / 2.0, p.x + PIPE_WIDTH, GROUND_Y);
    XWindowIsSafe(y, p);
  }

  lemma TickKills(b: Bird, flapped: bool, tick: nat, pipes: seq<Track.Pipe>)
    requires !b.dead
    ensures var r := Tick(b, flapped, tick, pipes);
            && (r.dead <==> Crashes(r.y, pipes))
            && (r.dead ==> r.deathTick == tick)
            && r.left == b.left
  {
    FlyStaysBelowCeiling(b, flapped, tick);
  }

  /** A tick kills a living bird exactly if it brings it onto the ground or into a pipe; it dies on that tick. */
  lemma DiesExactlyIf(w: State, flaps: set<nat>, id: nat)
    requires Reachable(w) && id in w.birds && !w.birds[id].dead
    ensures var s := Step(w, flaps);
            var b := s.birds[id];
            && (b.dead <==> b.y + BIRD_RADIUS >= GROUND_Y
                            || exists i :: 0 <= i < |s.track.pipes| && Touches(b.y, s.track.pipes[i]))
            && (b.dead ==> b.deathTick == w.track.tick + 1)
  {
    hide Hits, Touches, Tick, Track.Step, Track.At;
    var s := Step(w, flaps);
    StepReachable(w, flaps);
    StepTrack(w, flaps);
    Track.Reached(s.track.draws, s.track.tick);
    TickKills(w.birds[id], id in flaps, w.track.tick + 1, s.track.pipes);
    forall i | 0 <= i < |s.track.pipes|
      ensures Hits(s.birds[id].y, s.track.pipes[i]) <==> Touches(s.birds[id].y, s.track.pipes[i])
    {
      Track.PipesWellFormed(s.track, i);
      HitsIsTouch(s.birds[id].y, s.track.pipes[i]);
    }
  }

  /** In every race the dead have the points of the ticks before their crash, or up to their departure. */
  lemma DeathScore(w0: State, events: seq<Event>, id: nat)
    requires Grid(w0) && id in Run(w0, events).birds && Run(w0, events).birds[id].dead
    ensures var b := Run(w0, events).birds[id];
            b.score == PassedAt(if b.left then b.deathTick else b.deathTick - 1)
  {
    GridReachable(w0);
    RunReachable(w0, events);
  }

  // ----- leaving -----

  lemma {:induction false} RunKeepsBirds(w: State, events: seq<Event>)
    ensures Run(w, events).birds.Keys == w.birds.Keys
  {
    if events != [] {
      RunKeepsBirds(w, events[..|events| - 1]);
      ApplyKeepsBirds(Run(w, events[..|events| - 1]), events[|events| - 1]);
    }
  }

  /** Event `m` of the race is the departure of this bird while it lived. */
  ghost predicate LeftAlive(w0: State, events: seq<Event>, id: nat, m: nat)
    requires id in w0.birds && m < |events|
  {
    RunKeepsBirds(w0, events[..m]);
    events[m] == Left(id) && !Run(w0, events[..m]).birds[id].dead
  }

  lemma ApplyLeaves(w: State, e: Event, id: nat)
    requires id in w.birds && (w.birds[id].left ==> w.birds[id].dead)
    ensures var r := Apply(w, e);
            && id in r.birds && (r.birds[id].left ==> r.birds[id].dead)
            && (r.birds[id].left <==> w.birds[id].left || (e == Left(id) && !w.birds[id].dead))
            && (e == Left(id) && !w.birds[id].dead ==> r.birds[id].deathTick == w.track.tick)
  {
    hide Track.Step;
    if e.Ticked? {
      var track := Track.Step(w.track);
      if !w.birds[id].dead {
        TickKills(w.birds[id], id in e.flaps, track.tick, track.pipes);
      }
    }
  }

  /** In every race a bird is marked as left exactly if its player departed while it lived. */
  lemma {:induction false} LeftExactlyIf(w0: State, events: seq<Event>, id: nat)
    requires Grid(w0) && id in w0.birds
    ensures id in Run(w0, events).birds
    ensures Run(w0, events).birds[id].left <==> exists m :: 0 <= m < |events| && LeftAlive(w0, events, id, m)
    ensures Run(w0, events).birds[id].left ==> Run(w0, events).birds[id].dead
  {
    hide Apply;
    if events != [] {
      var n := |events| - 1;
      var front := events[..n];
      LeftExactlyIf(w0, front, id);
      ApplyLeaves(Run(w0, front), events[n], id);
      forall m | 0 <= m < n
        ensures LeftAlive(w0, front, id, m) <==> LeftAlive(w0, events, id, m)
      {
        assert front[..m] == events[..m];
      }
      assert LeftAlive(w0, events, id, n) <==> events[n] == Left(id) && !Run(w0, front).birds[id].dead;
    }
  }

  /** So the podium marks exactly those who departed in flight. */
  lemma PodiumMarksLeavers(w0: State, events: seq<Event>, i: nat)
    requires Grid(w0) && Registered(Run(w0, events).order, Run(w0, events).birds)
    requires i < |Rank.Results(Run(w0, events))|
    ensures var r := Rank.Results(Run(w0, events))[i];
            && r.id in w0.birds
            && (r.left <==> exists m :: 0 <= m < |events| && LeftAlive(w0, events, r.id, m))
  {
    hide Run, Grid;
    var w := Run(w0, events);
    Rank.PodiumIsComplete(w);
    assert Rank.Shows(Rank.Results(w)[i], w);
    RunKeepsBirds(w0, events);
    LeftExactlyIf(w0, events, Rank.Results(w)[i].id);
  }

  // ----- the flap flag -----

  /** How many ticks a race has run for. */
  function Age(events: seq<Event>): nat {
    if events == [] then 0 else Age(events[..|events| - 1]) + if events[|events| - 1].Ticked? then 1 else 0
  }

  /** Event `m` of the race is a tick on which this bird, alive, flaps. */
  ghost predicate FlapsAt(w0: State, events: seq<Event>, id: nat, m: nat)
    requires id in w0.birds && m < |events|
  {
    RunKeepsBirds(w0, events[..m]);
    events[m].Ticked? && id in events[m].flaps && !Run(w0, events[..m]).birds[id].dead
  }

  lemma {:induction false} FillKeepsTick(t: Track.State)
    ensures Track.Fill(t).tick == t.tick
    decreases Track.SPAWN_LIMIT - Track.NextX(t.pipes)
  {
    if Track.NextX(t.pipes) < Track.SPAWN_LIMIT {
      FillKeepsTick(Track.Spawn(t, Track.NextX(t.pipes)));
    }
  }

  lemma TrackAges(t: Track.State)
    ensures Track.Step(t).tick == t.tick + 1
  {
    FillKeepsTick(Track.Advance(t));
  }

  lemma ApplyFlaps(w: State, e: Event, id: nat)
    requires id in w.birds
    ensures var r := Apply(w, e);
            && id in r.birds && r.track.tick == w.track.tick + (if e.Ticked? then 1 else 0)
            && r.birds[id].lastFlap ==
               if e.Ticked? && id in e.flaps && !w.birds[id].dead then w.track.tick + 1 else w.birds[id].lastFlap
  {
    hide Track.Fill;
    if e.Ticked? {
      TrackAges(w.track);
      FlyStaysBelowCeiling(w.birds[id], id in e.flaps, w.track.tick + 1);
    }
  }

  /** The tick of the latest flap, zero if there was none. */
  lemma {:induction false} LastFlapIs(w0: State, events: seq<Event>, id: nat)
    requires Grid(w0) && id in w0.birds
    ensures var r := Run(w0, events);
            && id in r.birds && r.track.tick == Age(events) && r.birds[id].lastFlap <= Age(events)
            && (forall m :: 0 <= m < |events| && FlapsAt(w0, events, id, m) ==>
                  Age(events[..m]) + 1 <= r.birds[id].lastFlap)
            && (r.birds[id].lastFlap > 0 ==>
                  exists m :: 0 <= m < |events| && FlapsAt(w0, events, id, m)
                    && Age(events[..m]) + 1 == r.birds[id].lastFlap)
  {
    hide Apply;
    if events == [] {
      Falling.GridStarts(w0);
    } else {
      var n := |events| - 1;
      var front := events[..n];
      LastFlapIs(w0, front, id);
      ApplyFlaps(Run(w0, front), events[n], id);
      forall m | 0 <= m < n
        ensures FlapsAt(w0, front, id, m) <==> FlapsAt(w0, events, id, m)
        ensures front[..m] == events[..m]
      {
        assert front[..m] == events[..m];
      }
      assert FlapsAt(w0, events, id, n) <==>
             events[n].Ticked? && id in events[n].flaps && !Run(w0, front).birds[id].dead;
    }
  }

  /** In every race a snapshot shows a bird as flapping exactly if it flapped, alive, on one of the last
      twelve ticks. */
  lemma FlapShown(w0: State, events: seq<Event>, id: nat)
    requires Grid(w0) && id in w0.birds
    ensures id in Run(w0, events).birds
    ensures ShowBird(Run(w0, events).birds[id], Age(events)).flap <==>
            exists m :: 0 <= m < |events| && FlapsAt(w0, events, id, m)
              && Age(events) - (Age(events[..m]) + 1) < FLAP_ANIM_TICKS
  {
    hide Run, Age, FlapsAt;
    LastFlapIs(w0, events, id);
  }

  lemma ApplyKills(w: State, e: Event, id: nat)
    requires id in w.birds && !w.birds[id].dead
    ensures var r := Apply(w, e);
            && id in r.birds
            && (r.birds[id].dead ==> r.birds[id].deathTick == w.track.tick + if e.Ticked? then 1 else 0)
  {
    hide Track.Step;
    if e.Ticked? {
      TrackAges(w.track);
      TickKills(w.birds[id], id in e.flaps, w.track.tick + 1, Track.Step(w.track).pipes);
    }
  }

  /** In every race a death is dated with the age of the race right after the event that brought it. */
  lemma {:induction false} DeathTickIs(w0: State, events: seq<Event>, id: nat) returns (m: nat)
    requires Grid(w0) && id in Run(w0, events).birds && Run(w0, events).birds[id].dead
    ensures m < |events| && id in Run(w0, events[..m]).birds && id in Run(w0, events[..m + 1]).birds
    ensures !Run(w0, events[..m]).birds[id].dead && Run(w0, events[..m + 1]).birds[id].dead
    ensures Run(w0, events).birds[id].deathTick == Age(events[..m + 1])
  {
    hide Apply;
    RunKeepsBirds(w0, events);
    var n := |events| - 1;
    var front := events[..n];
    RunKeepsBirds(w0, front);
    LeftExactlyIf(w0, front, id);
    LastFlapIs(w0, front, id);
    if Run(w0, front).birds[id].dead {
      DeadStaysDead(Run(w0, front), events[n], id);
      m := DeathTickIs(w0, front, id);
      assert front[..m] == events[..m] && front[..m + 1] == events[..m + 1];
    } else {
      ApplyKills(Run(w0, front), events[n], id);
      m := n;
      assert events[..n + 1] == events;
    }
  }
}
