/** One race's simulation: the program of world.go, proved against `WorldSpec`. */
module World {
  import opened Protocol
  import Rng
  import Track
  import Flight
  import opened WorldSpec
  import Rank
  import Sorting

  class World {
    var tick: nat
    var scroll: real
    var gap: real
    var dist: real
    var pipes: seq<Track.Pipe>
    var order: seq<nat>
    var birds: map<nat, Flight.Bird>
    const rng: Rng.RNG
    var nextPipeID: nat
    var lastGapY: real

    ghost predicate Valid()
      reads this, rng
    {
      rng.Valid() && Registered(order, birds)
    }

    ghost function TrackState(): Track.State
      reads this, rng
    {
      Track.State(tick, scroll, gap, dist, pipes, SeedDraws(rng.seed), rng.drawn, nextPipeID, lastGapY)
    }

    ghost function Value(): State
      reads this, rng
    {
      State(TrackState(), order, birds)
    }

    constructor (seed: Rng.Word)
      ensures Valid() && fresh(rng)
      ensures Value() == New(SeedDraws(seed))
    {
      tick, scroll, gap, dist := 0, SCROLL_SPEED, PIPE_GAP, 0.0;
      pipes, order, birds := [], [], map[];
      rng := new Rng.RNG(seed);
      nextPipeID, lastGapY := 0, SPAWN_Y;
    }

    method AddBird(id: nat, name: string, pal: nat, acc: nat)
      requires Valid()
      modifies this
      ensures Valid()
      ensures Value() == WorldSpec.AddBird(old(Value()), id, name, pal, acc)
    {
      if id in birds {
        return;
      }
      birds := birds[id := Flight.Hatch(id, name, pal, acc)];
      order := order + [id];
    }

    method DropFromOrder(id: nat)
      requires forall i, j :: 0 <= i < j < |order| ==> order[i] != order[j]
      modifies this`order
      ensures order == Without(old(order), id)
    {
      for i := 0 to |order|
        invariant order == old(order) && id !in order[..i]
      {
        if order[i] == id {
          WithoutAt(order, i);
          order := order[..i] + order[i + 1..];
          return;
        }
      }
      WithoutAbsent(order, id);
    }

    method RemoveBird(id: nat)
      requires Valid()
      modifies this
      ensures Valid()
      ensures Value() == WorldSpec.RemoveBird(old(Value()), id)
    {
      hide Rng.StateAt, SeedDraws, Without;
      if id !in birds {
        return;
      }
      WithoutRemoves(order, id);
      birds := birds - {id};
      DropFromOrder(id);
    }

    method KillLeft(id: nat)
      requires Valid()
      modifies this
      ensures Valid()
      ensures Value() == WorldSpec.KillLeft(old(Value()), id)
    {
      if id !in birds || birds[id].dead {
        return;
      }
      birds := birds[id := birds[id].(dead := true, left := true, deathTick := tick)];
    }

    /** Counts the birds still flying; the order of the visits does not matter. */
    method Alive() returns (n: nat)
      requires Valid()
      ensures n == |Living(Value())|
    {
      n := 0;
      var todo := birds.Keys;
      ghost var counted: set<nat> := {};
      while todo != {}
        invariant todo <= birds.Keys
        invariant counted == set id | id in birds && id !in todo && !birds[id].dead
        invariant n == |counted|
        decreases todo
      {
        var id :| id in todo;
        todo := todo - {id};
        if !birds[id].dead {
          n := n + 1;
          counted := counted + {id};
        }
      }
      assert counted == Living(Value());
    }

    /** Every fifteen seconds, speed up and tighten the gaps still to be spawned. */
    method RampUp()
      requires Valid()
      modifies this`tick, this`scroll, this`gap
      ensures Valid() && tick == old(tick) + 1
      ensures scroll == Track.RampScroll(tick, old(scroll)) && gap == Track.RampGap(tick, old(gap))
    {
      tick := tick + 1;
      if IsRampTick(tick) {
        scroll := Min(SpedUp(scroll), RAMP_SPEED_CAP);
        gap := Max(gap - RAMP_GAP_SHRINK, RAMP_GAP_FLOOR);
      }
    }

    method FlyOne(bird: Flight.Bird, flapped: bool) returns (b: Flight.Bird)
      ensures b == Flown(bird, flapped, tick)
    {
      b := bird;
      if b.dead {
        return;
      }
      if flapped {
        b := b.(vy := FLAP_IMPULSE, lastFlap := tick);
      }
      b := b.(vy := Min(b.vy + GRAVITY, TERMINAL_VEL));
      b := b.(y := b.y + b.vy);
      if b.y < CEILING_Y {
        b := b.(y := CEILING_Y);
        if b.vy < 0.0 {
          b := b.(vy := 0.0);
        }
      }
    }

    /** Flap impulses and physics for every living racer, in join order. */
    method FlyAll(flaps: set<nat>)
      requires Valid()
      modifies this`birds
      ensures Valid()
      ensures birds == map id | id in old(birds) :: Flown(old(birds)[id], id in flaps, tick)
    {
      ghost var done: set<nat> := {};
      for i := 0 to |order|
        invariant done == set id | id in order[..i]
        invariant birds.Keys == old(birds).Keys
        invariant forall id :: id in birds ==>
                    birds[id] == if id in done then Flown(old(birds)[id], id in flaps, tick) else old(birds)[id]
      {
        var id := order[i];
        assert order[..i + 1] == order[..i] + [id];
        assert id !in done;
        var b := FlyOne(birds[id], id in flaps);
        birds := birds[id := b];
        done := done + {id};
      }
      assert order[..|order|] == order;
    }

    /** Moves every pipe left and drops those that have fully left the view. */
    method ScrollAll()
      requires Valid()
      modifies this`pipes, this`dist
      ensures Valid()
      ensures pipes == Track.Keep(Track.Shift(old(pipes), scroll)) && dist == old(dist) + scroll
    {
      for i := 0 to |pipes|
        invariant |pipes| == |old(pipes)| && dist == old(dist)
        invariant forall k :: 0 <= k < |pipes| ==>
                    pipes[k] == if k < i then old(pipes)[k].(x := old(pipes)[k].x - scroll) else old(pipes)[k]
      {
        pipes := pipes[i := pipes[i].(x := pipes[i].x - scroll)];
      }
      assert pipes == Track.Shift(old(pipes), scroll);
      dist := dist + scroll;
      var kept: seq<Track.Pipe> := [];
      for i := 0 to |pipes|
        invariant dist == old(dist) + scroll && pipes == Track.Shift(old(pipes), scroll)
        invariant kept == Track.Keep(pipes[..i])
      {
        assert pipes[..i + 1][..i] == pipes[..i];
        if pipes[i].x > -PIPE_WIDTH {
          kept := kept + [pipes[i]];
        }
      }
      assert pipes[..|pipes|] == pipes;
      pipes := kept;
    }

    method SpawnPipe(x: real)
      requires Valid()
      modifies this`pipes, this`nextPipeID, this`lastGapY, rng
      ensures Valid()
      ensures TrackState() == Track.Spawn(old(TrackState()), x)
    {
      var g := rng.Range(GAP_Y_MIN, GAP_Y_MAX);
      g := Clamp(g, lastGapY - MAX_GAP_DELTA, lastGapY + MAX_GAP_DELTA);
      g := Clamp(g, GAP_Y_MIN, GAP_Y_MAX);
      lastGapY := g;
      nextPipeID := nextPipeID + 1;
      pipes := pipes + [Track.Pipe(nextPipeID, x, g, gap)];
    }

    /** Keeps the simulated window full of pipes. */
    method SpawnAhead()
      requires Valid()
      modifies this`pipes, this`nextPipeID, this`lastGapY, rng
      ensures Valid()
      ensures TrackState() == Track.Fill(old(TrackState()))
    {
      while true
        invariant Valid()
        invariant Track.Fill(TrackState()) == Track.Fill(old(TrackState()))
        decreases Track.SPAWN_LIMIT - Track.NextX(pipes)
      {
        var nextX := FIRST_PIPE_X;
        if |pipes| > 0 {
          nextX := pipes[|pipes| - 1].x + PIPE_SPACING;
        }
        if nextX >= VIEW_MAX_W + PIPE_SPACING {
          break;
        }
        SpawnPipe(nextX);
      }
    }

    method JudgeOne(bird: Flight.Bird) returns (b: Flight.Bird)
      ensures b == Flight.Judge(bird, pipes, tick)
    {
      b := bird;
      if b.dead {
        return;
      }
      if b.y + BIRD_RADIUS >= GROUND_Y {
        b := Flight.Kill(b, tick);
        return;
      }
      for i := 0 to |pipes|
        invariant b == bird && forall k :: 0 <= k < i ==> !Flight.Hits(b.y, pipes[k])
      {
        var p := pipes[i];
        if Flight.InXWindow(p) && (Flight.HitsTop(b.y, p) || Flight.HitsBottom(b.y, p)) {
          assert Flight.Hits(b.y, pipes[i]);
          b := Flight.Kill(b, tick);
          return;
        }
      }
      for i := 0 to |pipes|
        invariant b == Flight.ScoreAlong(bird, pipes[..i])
      {
        var p := pipes[i];
        assert pipes[..i + 1][..i] == pipes[..i];
        if p.id == b.nextPipeID && p.x + PIPE_WIDTH < BIRD_X - BIRD_RADIUS {
          b := b.(score := b.score + 1, nextPipeID := b.nextPipeID + 1);
        }
      }
      assert pipes[..|pipes|] == pipes;
    }

    /** Ground deaths, collisions and scoring for every living racer, in join order. */
    method JudgeAll()
      requires Valid()
      modifies this`birds
      ensures Valid()
      ensures birds == map id | id in old(birds) :: Flight.Judge(old(birds)[id], pipes, tick)
    {
      ghost var done: set<nat> := {};
      for i := 0 to |order|
        invariant done == set id | id in order[..i]
        invariant birds.Keys == old(birds).Keys
        invariant forall id :: id in birds ==>
                    birds[id] == if id in done then Flight.Judge(old(birds)[id], pipes, tick) else old(birds)[id]
      {
        var id := order[i];
        assert order[..i + 1] == order[..i] + [id];
        assert id !in done;
        var b := JudgeOne(birds[id]);
        birds := birds[id := b];
        done := done + {id};
      }
      assert order[..|order|] == order;
    }

    method Step(flaps: set<nat>)
      requires Valid()
      modifies this, rng
      ensures Valid()
      ensures Value() == WorldSpec.Step(old(Value()), flaps)
    {
      ghost var start := Value();
      RampUp();
      FlyAll(flaps);
      ghost var flown := birds;
      ScrollAll();
      assert TrackState() == Track.Advance(start.track);
      SpawnAhead();
      JudgeAll();
      FlyThenJudge(start, flaps, flown, birds);
    }

    /** Every racer in join order, dead included. */
    method BirdSnaps() returns (out: seq<BirdSnap>)
      requires Valid()
      ensures out == WorldSpec.BirdSnaps(Value())
    {
      out := [];
      for i := 0 to |order|
        invariant |out| == i && forall k :: 0 <= k < i ==> out[k] == ShowBird(birds[order[k]], tick)
      {
        out := out + [ShowBird(birds[order[i]], tick)];
      }
    }

    method PipeSnaps() returns (out: seq<PipeSnap>)
      ensures out == WorldSpec.PipeSnaps(pipes)
    {
      out := [];
      for i := 0 to |pipes|
        invariant out + WorldSpec.PipeSnaps(pipes[i..]) == WorldSpec.PipeSnaps(pipes)
      {
        var p := pipes[i];
        assert pipes[i..][1..] == pipes[i + 1..];
        if p.x <= -PIPE_WIDTH {
          continue;
        }
        if p.x >= VIEW_MAX_W + 2.0 * PIPE_SPACING {
          break;
        }
        assert out + ([ShowPipe(p)] + WorldSpec.PipeSnaps(pipes[i + 1..]))
            == (out + [ShowPipe(p)]) + WorldSpec.PipeSnaps(pipes[i + 1..]);
        out := out + [ShowPipe(p)];
      }
    }

    /** Ranks the race: fill the rows, sort them, number them. */
    method Results() returns (out: seq<ResultSnap>)
      requires Valid()
      ensures out == Rank.Results(Value())
    {
      var rows: seq<Rank.Row> := [];
      for i := 0 to |order|
        invariant |rows| == i && forall k :: 0 <= k < i ==> rows[k] == Rank.RowOf(birds[order[k]])
      {
        var b := birds[order[i]];
        var death := b.deathTick;
        if !b.dead {
          death := MAX_RACE_TICKS;
        }
        rows := rows + [Rank.Row(b.id, death, b.name, b.score, b.left)];
      }
      assert rows == Rank.Rows(Value());
      rows := Sorting.Sort(Rank.Outranks, rows);
      out := [];
      for i := 0 to |rows|
        invariant |out| == i
        invariant forall k :: 0 <= k < i ==>
                    out[k] == ResultSnap(rows[k].id, rows[k].name, rows[k].score, k + 1, rows[k].left)
      {
        var r := rows[i];
        out := out + [ResultSnap(r.id, r.name, r.score, i + 1, r.left)];
      }
    }
  }
}
