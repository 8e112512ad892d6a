/** What holds over whole races: any sequence of ticks and disconnects from a starting grid. */
module Race {
  import opened Protocol
  import Track
  import opened Flight
  import opened WorldSpec

  datatype Event = Ticked(flaps: set<nat>) | Left(id: nat)

  function Apply(w: State, e: Event): State {
    match e
    case Ticked(flaps) => Step(w, flaps)
    case Left(id) => KillLeft(w, id)
  }

  function Run(w: State, events: seq<Event>): State {
    if events == [] then w
    else Apply(Run(w, events[..|events| - 1]), events[|events| - 1])
  }

  /** A world before its first tick: whatever birds were added or removed, all are fresh. */
  ghost predicate Grid(w: State) {
    && w.track == Track.Start(w.track.draws)
    && Registered(w.order, w.birds)
    && forall id :: id in w.birds ==>
         w.birds[id] == Hatch(id, w.birds[id].name, w.birds[id].pal, w.birds[id].acc)
  }

  lemma EmptyGrid(draws: nat -> real)
    ensures Grid(New(draws))
  {
  }

  /** A new bird joins the line at its end and disturbs nobody. */
  lemma AddFresh(w: State, id: nat, name: string, pal: nat, acc: nat)
    requires Grid(w) && id !in w.birds
    ensures var r := AddBird(w, id, name, pal, acc);
            && Grid(r) && r.track == w.track && r.order == w.order + [id]
            && r.birds == w.birds[id := Hatch(id, name, pal, acc)]
  {
    var r := AddBird(w, id, name, pal, acc);
    assert forall x :: x in r.order <==> x in w.order || x == id;
  }

  lemma RemoveFromGrid(w: State, id: nat)
    requires Grid(w) && id in w.birds
    ensures var r := RemoveBird(w, id);
            && Grid(r) && r.track == w.track && r.order == Without(w.order, id)
            && r.birds == w.birds - {id}
  {
    WithoutRemoves(w.order, id);
  }

  /** Pipes passed at the end of tick `n`; none before the race. */
  function PassedAt(n: int): nat {
    if n < 0 then 0 else Passed(Track.DistAt(n))
  }

  /** The invariant of one bird in a world of age `tick`. A crash takes away the points of its tick; a
      departure comes after them. */
  ghost predicate BirdFits(b: Bird, tick: nat) {
    && b.nextPipeID == b.score + 1
    && (if b.dead
        then b.deathTick <= tick && b.score == PassedAt(if b.left then b.deathTick else b.deathTick - 1)
        else !b.left && b.score == PassedAt(tick) && (tick > 0 ==> CEILING_Y <= b.y && !OnGround(b.y)))
  }

  /** The invariant of every reachable world. */
  ghost predicate Reachable(w: State) {
    && w.track == Track.At(w.track.draws, w.track.tick)
    && Registered(w.order, w.birds)
    && forall id :: id in w.birds ==> BirdFits(w.birds[id], w.track.tick)
  }

  lemma StartOfCount()
    ensures PassedAt(0) == 0
  {
    PassedCounts(0.0, 1);
  }

  lemma GridReachable(w: State)
    requires Grid(w)
    ensures Reachable(w)
  {
    StartOfCount();
  }

  lemma PassedAtGrows(m: int, n: int)
    requires m <= n
    ensures PassedAt(m) <= PassedAt(n)
  {
    if m >= 0 {
      Track.DistGrows(m, n);
      PassedGrows(Track.DistAt(m), Track.DistAt(n));
    }
  }

  lemma PassedIs(dist: real, n: nat)
    requires n >= 1 && Behind(n, dist) && !Behind(n + 1, dist)
    ensures Passed(dist) == n
  {
    PassedCounts(dist, n);
    PassedCounts(dist, n + 1);
  }

  /** Nothing is passed on the last tick of the longest race: both ticks see 106 pipes behind. */
  lemma NoPointOnCapTick()
    ensures PassedAt(MAX_RACE_TICKS) == PassedAt(MAX_RACE_TICKS - 1) == 106
  {
    Track.DistAtCap();
    PassedIs(Track.DistAt(7199), 106);
    PassedIs(Track.DistAt(7200), 106);
  }

  lemma FlyStaysBelowCeiling(b: Bird, flapped: bool, tick: nat)
    ensures var f := Fly(b, flapped, tick);
            && CEILING_Y <= f.y
            && f == b.(y := f.y, vy := f.vy, lastFlap := f.lastFlap)
  {
  }

  lemma TickFits(b: Bird, flapped: bool, t: Track.State)
    requires t.tick >= 1 && t == Track.At(t.draws, t.tick)
    requires BirdFits(b, t.tick - 1)
    ensures BirdFits(Tick(b, flapped, t.tick, t.pipes), t.tick)
  {
    var n := t.tick;
    if !b.dead {
      var f := Fly(b, flapped, n);
      FlyStaysBelowCeiling(b, flapped, n);
      PassedAtGrows(n - 1, n);
      if !Crashes(f.y, t.pipes) {
        Track.Reached(t.draws, n);
        Track.ScrollBounds(n);
        ScoreIsTally(f, t, Track.DistAt(n - 1));
      }
    }
  }

  lemma StepTrack(w: State, flaps: set<nat>)
    requires Reachable(w)
    ensures var t := Step(w, flaps).track;
            && t == Track.At(t.draws, t.tick) && t.draws == w.track.draws
            && t.tick == w.track.tick + 1
  {
    hide Track.Step, Track.Settled, Track.ScrollAt, Track.DistAt, BirdFits, Registered, Tick;
    Track.Reached(w.track.draws, w.track.tick);
    Track.Reached(w.track.draws, w.track.tick + 1);
  }

  lemma TickKeepsId(b: Bird, flapped: bool, tick: nat, pipes: seq<Track.Pipe>)
    ensures var r := Tick(b, flapped, tick, pipes);
            r.id == b.id && r.name == b.name && r.pal == b.pal && r.acc == b.acc
  {
    FlyStaysBelowCeiling(b, flapped, tick);
  }

  lemma StepReachable(w: State, flaps: set<nat>)
    requires Reachable(w)
    ensures Reachable(Step(w, flaps))
  {
    var s := Step(w, flaps);
    StepTrack(w, flaps);
    forall id | id in w.birds
      ensures BirdFits(s.birds[id], s.track.tick) && s.birds[id].id == id
    {
      TickFits(w.birds[id], id in flaps, s.track);
      TickKeepsId(w.birds[id], id in flaps, s.track.tick, s.track.pipes);
    }
  }

  lemma LeftReachable(w: State, id: nat)
    requires Reachable(w)
    ensures Reachable(KillLeft(w, id))
  {
    PassedAtGrows(w.track.tick - 1, w.track.tick);
  }

  lemma ApplyReachable(w: State, e: Event)
    requires Reachable(w)
    ensures Reachable(Apply(w, e))
  {
    match e
    case Ticked(flaps) => StepReachable(w, flaps);
    case Left(id) => LeftReachable(w, id);
  }

  lemma {:induction false} RunReachable(w: State, events: seq<Event>)
    requires Reachable(w)
    ensures Reachable(Run(w, events))
  {
    if events != [] {
      RunReachable(w, events[..|events| - 1]);
      ApplyReachable(Run(w, events[..|events| - 1]), events[|events| - 1]);
    }
  }

  // ----- scores -----

  /** In every race, a living bird has scored exactly the pipes of the row that lie behind it. */
  lemma ScoreIsPipesBehind(w0: State, events: seq<Event>, id: nat, k: nat)
    requires Grid(w0) && id in Run(w0, events).birds && !Run(w0, events).birds[id].dead
    requires k >= 1
    ensures var w := Run(w0, events);
            && w.birds[id].nextPipeID == w.birds[id].score + 1
            && (k <= w.birds[id].score <==> Behind(k, w.track.dist))
  {
    GridReachable(w0);
    RunReachable(w0, events);
    var w := Run(w0, events);
    Track.Reached(w.track.draws, w.track.tick);
    PassedCounts(w.track.dist, k);
  }

  lemma LivingTally(w: State, id: nat)
    requires Reachable(w) && id in w.birds
    ensures !w.birds[id].dead ==> w.birds[id].score == PassedAt(w.track.tick)
  {
  }

  lemma OneMoreAtMost(n: nat)
    ensures PassedAt(n + 1) <= PassedAt(n) + 1
  {
    Track.ScrollBounds(n + 1);
    PassedAtMostOneMore(Track.DistAt(n), Track.DistAt(n + 1));
  }

  lemma TickScore(b: Bird, flapped: bool, tick: nat, pipes: seq<Track.Pipe>)
    ensures var r := Tick(b, flapped, tick, pipes);
            && b.score <= r.score && (r.dead ==> r.score == b.score)
            && (b.dead ==> r == b)
  {
    FlyStaysBelowCeiling(b, flapped, tick);
  }

  lemma AtMostOnePoint(w: State, flaps: set<nat>, id: nat)
    requires Reachable(w) && id in w.birds
    ensures w.birds[id].score <= Step(w, flaps).birds[id].score <= w.birds[id].score + 1
  {
    hide Reachable, Track.At, Track.Step, Tick, PassedAt;
    var n := w.track.tick;
    var s := Step(w, flaps);
    StepReachable(w, flaps);
    StepTrack(w, flaps);
    OneMoreAtMost(n);
    LivingTally(w, id);
    LivingTally(s, id);
    TickScore(w.birds[id], id in flaps, n + 1, s.track.pipes);
  }

  /** All living birds are tied, and one tick adds at most one point. */
  lemma LivingBirdsTie(w0: State, events: seq<Event>, flaps: set<nat>, a: nat, b: nat)
    requires Grid(w0)
    requires var w := Run(w0, events); a in w.birds && b in w.birds && !w.birds[a].dead && !w.birds[b].dead
    ensures var w := Run(w0, events);
            && w.birds[a].score == w.birds[b].score
            && w.birds[a].score <= Step(w, flaps).birds[a].score <= w.birds[a].score + 1
  {
    GridReachable(w0);
    RunReachable(w0, events);
    AtMostOnePoint(Run(w0, events), flaps, a);
  }

  // ----- no point without flying the gap -----

  /** In this world the bird is alive, over pipe `k`, with its whole circle inside the gap. */
  ghost predicate FliesGap(w: State, id: nat, k: nat) {
    && id in w.birds && !w.birds[id].dead
    && exists i :: 0 <= i < |w.track.pipes| && w.track.pipes[i].id == k && InGap(w.birds[id].y, w.track.pipes[i])
  }

  /** Where the left edge of a pipe has come this near, the centre has been over the pipe. */
  const NEAR_EDGE := 115.0

  lemma SurvivorHitNothing(b: Bird, flapped: bool, tick: nat, pipes: seq<Track.Pipe>, i: nat)
    requires i < |pipes| && !Tick(b, flapped, tick, pipes).dead
    ensures !Hits(Tick(b, flapped, tick, pipes).y, pipes[i])
    ensures CEILING_Y <= Tick(b, flapped, tick, pipes).y && !OnGround(Tick(b, flapped, tick, pipes).y)
    ensures !b.dead
  {
    FlyStaysBelowCeiling(b, flapped, tick);
  }

  lemma SurvivingTickFliesGap(w: State, flaps: set<nat>, id: nat, k: nat)
    requires Reachable(w) && id in w.birds && k >= 1
    requires !Step(w, flaps).birds[id].dead
    requires Track.X(k, w.track.dist) > NEAR_EDGE >= Track.X(k, Step(w, flaps).track.dist)
    ensures FliesGap(Step(w, flaps), id, k)
  {
    var s := Step(w, flaps);
    var t := s.track;
    StepReachable(w, flaps);
    StepTrack(w, flaps);
    Track.Reached(w.track.draws, w.track.tick);
    Track.Reached(t.draws, t.tick);
    Track.ScrollBounds(t.tick);
    Track.ShiftMoves(k, w.track.dist, t.dist - w.track.dist);
    Track.WindowOf(t);
    assert Track.InView(k, t.dist);
    var i :| 0 <= i < |t.pipes| && t.pipes[i].id == k;
    Track.PipesWellFormed(t, i);
    SurvivorHitNothing(w.birds[id], id in flaps, t.tick, t.pipes, i);
    SurvivorInGap(s.birds[id].y, t.pipes[i]);
  }

  lemma AliveBefore(w: State, e: Event, id: nat)
    requires id in Apply(w, e).birds && !Apply(w, e).birds[id].dead
    ensures id in w.birds && !w.birds[id].dead
    ensures e.Left? ==> Apply(w, e).track == w.track
  {
    if e.Ticked? {
      var s := Step(w, e.flaps);
      TickScore(w.birds[id], id in e.flaps, s.track.tick, s.track.pipes);
    }
  }

  lemma GridIsFar(w: State, k: nat)
    requires Grid(w) && k >= 1
    ensures Track.X(k, w.track.dist) > NEAR_EDGE
  {
  }

  /** A living bird has flown the gap of every pipe whose left edge is near enough. */
  lemma {:induction false} NearPipesFlown(w0: State, events: seq<Event>, id: nat, k: nat) returns (m: nat)
    requires Grid(w0) && id in Run(w0, events).birds && !Run(w0, events).birds[id].dead
    requires k >= 1 && Track.X(k, Run(w0, events).track.dist) <= NEAR_EDGE
    ensures m <= |events| && FliesGap(Run(w0, events[..m]), id, k)
  {
    hide Reachable, FliesGap, Step, KillLeft;
    GridReachable(w0);
    var n := |events|;
    assert events[..n] == events;
    GridIsFar(w0, k);
    var before := events[..n - 1];
    var w := Run(w0, before);
    RunReachable(w0, before);
    AliveBefore(w, events[n - 1], id);
    match events[n - 1]
    case Ticked(flaps) =>
      if Track.X(k, w.track.dist) <= NEAR_EDGE {
        m := NearPipesFlown(w0, before, id, k);
        assert before[..m] == events[..m];
      } else {
        SurvivingTickFliesGap(w, flaps, id, k);
        m := n;
      }
    case Left(gone) =>
      m := NearPipesFlown(w0, before, id, k);
      assert before[..m] == events[..m];
  }

  lemma LivingScore(w: State, id: nat, k: nat)
    requires Reachable(w) && id in w.birds && !w.birds[id].dead && k >= 1
    ensures k <= w.birds[id].score <==> Behind(k, w.track.dist)
  {
    Track.Reached(w.track.draws, w.track.tick);
    PassedCounts(w.track.dist, k);
  }

  /** A point that was not there before the event belongs to a pipe now behind a living bird. */
  lemma NewPoint(w: State, e: Event, id: nat, k: nat)
    requires Reachable(w) && id in w.birds
    requires w.birds[id].score < k <= Apply(w, e).birds[id].score
    ensures !Apply(w, e).birds[id].dead && Behind(k, Apply(w, e).track.dist)
  {
    var s := Step(w, e.flaps);
    StepReachable(w, e.flaps);
    TickScore(w.birds[id], id in e.flaps, s.track.tick, s.track.pipes);
    LivingScore(s, id, k);
  }

  lemma GridScoresNothing(w: State)
    requires Grid(w)
    ensures forall id :: id in w.birds ==> w.birds[id].score == 0
  {
  }

  lemma BehindIsNear(dist: real, k: nat)
    requires Behind(k, dist)
    ensures Track.X(k, dist) <= NEAR_EDGE
  {
  }

  lemma ApplyKeepsBirds(w: State, e: Event)
    ensures Apply(w, e).birds.Keys == w.birds.Keys
  {
  }

  /** A point is never scored without flying the gap, in any race and for any bird, dead or alive. */
  lemma {:induction false} NoPointWithoutFlight(w0: State, events: seq<Event>, id: nat, k: nat) returns (m: nat)
    requires Grid(w0) && id in Run(w0, events).birds
    requires 1 <= k <= Run(w0, events).birds[id].score
    ensures m <= |events| && FliesGap(Run(w0, events[..m]), id, k)
  {
    hide Reachable, FliesGap, Apply;
    GridReachable(w0);
    var n := |events|;
    GridScoresNothing(w0);
    var before := events[..n - 1];
    var w := Run(w0, before);
    RunReachable(w0, before);
    ApplyKeepsBirds(w, events[n - 1]);
    if k <= w.birds[id].score {
      m := NoPointWithoutFlight(w0, before, id, k);
      assert before[..m] == events[..m];
    } else {
      NewPoint(w, events[n - 1], id, k);
      BehindIsNear(Run(w0, events).track.dist, k);
      m := NearPipesFlown(w0, events, id, k);
    }
  }

  // ----- birds do not interfere -----

  /** The same race with only one of its birds. */
  function Solo(w: State, id: nat): State {
    State(w.track, [id], map k | k in w.birds && k == id :: w.birds[k])
  }

  function OwnEvent(e: Event, id: nat): seq<Event> {
    match e
    case Ticked(flaps) => [Ticked(flaps * {id})]
    case Left(gone) => if gone == id then [e] else []
  }

  /** The ticks of a race with one bird's own flaps and its own departure. */
  function OwnEvents(events: seq<Event>, id: nat): seq<Event> {
    if events == [] then []
    else OwnEvents(events[..|events| - 1], id) + OwnEvent(events[|events| - 1], id)
  }

  lemma RunAppend(w: State, events: seq<Event>, e: Event)
    ensures Run(w, events + [e]) == Apply(Run(w, events), e)
  {
    assert (events + [e])[..|events|] == events;
  }

  lemma SoloStep(w: State, flaps: set<nat>, id: nat)
    requires id in w.birds
    ensures Solo(Step(w, flaps), id) == Step(Solo(w, id), flaps * {id})
  {
    assert Solo(Step(w, flaps), id).birds == Step(Solo(w, id), flaps * {id}).birds;
  }

  lemma SoloApply(w: State, e: Event, id: nat)
    requires id in w.birds
    ensures id in Apply(w, e).birds
    ensures Solo(Apply(w, e), id) ==
            if OwnEvent(e, id) == [] then Solo(w, id) else Apply(Solo(w, id), OwnEvent(e, id)[0])
  {
    var s := Solo(Apply(w, e), id);
    match e
    case Ticked(flaps) =>
      SoloStep(w, flaps, id);
    case Left(gone) =>
      if gone == id {
        assert s.birds == KillLeft(Solo(w, id), id).birds;
      } else {
        assert s.birds == Solo(w, id).birds;
      }
  }

  /** A bird's whole trajectory, and the track it flies, are those of its solo race. */
  lemma {:induction false} BirdsDoNotInterfere(w0: State, events: seq<Event>, id: nat)
    requires id in w0.birds
    ensures id in Run(w0, events).birds
    ensures Run(Solo(w0, id), OwnEvents(events, id)) == Solo(Run(w0, events), id)
  {
    if events == [] {
    } else {
      var n := |events| - 1;
      var e, w, own := events[n], Run(w0, events[..n]), OwnEvents(events[..n], id);
      BirdsDoNotInterfere(w0, events[..n], id);
      SoloApply(w, e, id);
      if OwnEvent(e, id) == [] {
        assert own + [] == own;
      } else {
        RunAppend(Solo(w0, id), own, OwnEvent(e, id)[0]);
      }
    }
  }
}
