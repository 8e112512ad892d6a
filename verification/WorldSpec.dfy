/** The value of one race's world (world.go) and what each operation does to it. */
module WorldSpec {
  import opened Protocol
  import Rng
  import Track
  import Flight

  datatype State = State(track: Track.State, order: seq<nat>, birds: map<nat, Flight.Bird>)

  /** The gap draws of a race with the given seed. */
  function SeedDraws(seed: Rng.Word): nat -> real {
    (k: nat) => Rng.RangeOf(Rng.Draw(seed, k), GAP_Y_MIN, GAP_Y_MAX)
  }

  function New(draws: nat -> real): State {
    State(Track.Start(draws), [], map[])
  }

  function AddBird(w: State, id: nat, name: string, pal: nat, acc: nat): State {
    if id in w.birds then w
    else w.(birds := w.birds[id := Flight.Hatch(id, name, pal, acc)], order := w.order + [id])
  }

  function Without(order: seq<nat>, id: nat): seq<nat> {
    if order == [] then []
    else if order[0] == id then order[1..]
    else [order[0]] + Without(order[1..], id)
  }

  function RemoveBird(w: State, id: nat): State {
    if id !in w.birds then w
    else w.(birds := w.birds - {id}, order := Without(w.order, id))
  }

  function KillLeft(w: State, id: nat): State {
    if id !in w.birds then w
    else w.(birds := w.birds[id := Flight.Abandon(w.birds[id], w.track.tick)])
  }

  function Living(w: State): set<nat> {
    set id | id in w.birds && !w.birds[id].dead
  }

  /** One tick: the track moves on its own, and each bird meets the moved track on its own. */
  function Step(w: State, flaps: set<nat>): State {
    var track := Track.Step(w.track);
    State(track, w.order,
          map id | id in w.birds :: Flight.Tick(w.birds[id], id in flaps, track.tick, track.pipes))
  }

  function Flown(b: Flight.Bird, flapped: bool, tick: nat): Flight.Bird {
    if b.dead then b else Flight.Fly(b, flapped, tick)
  }

  /** Flying all birds first and judging them all afterwards is the same as ticking each bird. */
  lemma FlyThenJudge(w: State, flaps: set<nat>, flown: map<nat, Flight.Bird>, judged: map<nat, Flight.Bird>)
    requires var track := Track.Step(w.track);
             && flown == (map id | id in w.birds :: Flown(w.birds[id], id in flaps, track.tick))
             && judged == (map id | id in flown :: Flight.Judge(flown[id], track.pipes, track.tick))
    ensures judged == Step(w, flaps).birds
  {
  }

  /** The join order lists exactly the birds, once each. */
  ghost predicate Registered(order: seq<nat>, birds: map<nat, Flight.Bird>) {
    && (forall i, j :: 0 <= i < j < |order| ==> order[i] != order[j])
    && (forall id :: id in order <==> id in birds)
    && (forall id :: id in birds ==> birds[id].id == id)
  }

  lemma {:induction false} WithoutRemoves(order: seq<nat>, id: nat)
    requires forall i, j :: 0 <= i < j < |order| ==> order[i] != order[j]
    ensures var r := Without(order, id);
            && (forall x :: x in r <==> x in order && x != id)
            && (forall i, j :: 0 <= i < j < |r| ==> r[i] != r[j])
  {
    if order == [] {
    } else {
      var rest := order[1..];
      assert order == [order[0]] + rest;
      if order[0] != id {
        WithoutRemoves(rest, id);
        var r := Without(rest, id);
        assert forall j :: 0 <= j < |r| ==> r[j] in rest;
        assert order[0] !in rest;
        assert Without(order, id) == [order[0]] + r;
      } else {
        assert forall j :: 0 <= j < |rest| ==> rest[j] == order[j + 1];
      }
    }
  }

  lemma {:induction false} WithoutAbsent(order: seq<nat>, id: nat)
    requires id !in order
    ensures Without(order, id) == order
  {
    if order != [] {
      assert order == [order[0]] + order[1..];
      WithoutAbsent(order[1..], id);
    }
  }

  lemma {:induction false} WithoutAt(order: seq<nat>, i: nat)
    requires i < |order| && order[i] !in order[..i]
    ensures Without(order, order[i]) == order[..i] + order[i + 1..]
  {
    if i > 0 {
      assert order[1..][..i - 1] == order[..i][1..];
      WithoutAt(order[1..], i - 1);
    }
  }

  // ----- what a snapshot shows of a world -----

  /** A flap shows for twelve ticks. */
  function ShowBird(b: Flight.Bird, tick: nat): BirdSnap {
    var flap := b.lastFlap != 0 && b.lastFlap <= tick && tick - b.lastFlap < FLAP_ANIM_TICKS;
    BirdSnap(b.id, b.name, b.y, b.vy, b.score, b.dead, b.left, flap, b.pal, b.acc)
  }

  function BirdSnaps(w: State): seq<BirdSnap>
    requires Registered(w.order, w.birds)
  {
    seq(|w.order|, i requires 0 <= i < |w.order| => ShowBird(w.birds[w.order[i]], w.track.tick))
  }

  function ShowPipe(p: Track.Pipe): PipeSnap {
    PipeSnap(p.id, p.x, p.gapY, p.gapH)
  }

  const VISIBLE_UNTIL := VIEW_MAX_W + 2.0 * PIPE_SPACING

  /** The pipes worth sending: past the left edge, up to the first one too far right. */
  function PipeSnaps(pipes: seq<Track.Pipe>): seq<PipeSnap> {
    if pipes == [] then []
    else if pipes[0].x <= -PIPE_WIDTH then PipeSnaps(pipes[1..])
    else if pipes[0].x >= VISIBLE_UNTIL then []
    else [ShowPipe(pipes[0])] + PipeSnaps(pipes[1..])
  }

  /** Every simulated pipe is worth sending, so a snapshot shows the whole window. */
  lemma {:induction false} SnapshotShowsAllPipes(pipes: seq<Track.Pipe>)
    requires forall i :: 0 <= i < |pipes| ==> -PIPE_WIDTH < pipes[i].x < Track.SPAWN_LIMIT
    ensures |PipeSnaps(pipes)| == |pipes|
    ensures forall i :: 0 <= i < |pipes| ==> PipeSnaps(pipes)[i] == ShowPipe(pipes[i])
  {
    if pipes != [] {
      SnapshotShowsAllPipes(pipes[1..]);
    }
  }

  lemma ReachedSnapshot(draws: nat -> real, n: nat, i: nat)
    requires n >= 1 && i < |Track.At(draws, n).pipes|
    ensures var pipes := Track.At(draws, n).pipes;
            |PipeSnaps(pipes)| == |pipes| && PipeSnaps(pipes)[i] == ShowPipe(pipes[i])
  {
    var t := Track.At(draws, n);
    Track.Reached(draws, n);
    Track.Window(draws, n);
    forall k | 0 <= k < |t.pipes|
      ensures -PIPE_WIDTH < t.pipes[k].x < Track.SPAWN_LIMIT
    {
      assert Track.InView(t.pipes[k].id, t.dist);
    }
    SnapshotShowsAllPipes(t.pipes);
  }
}
