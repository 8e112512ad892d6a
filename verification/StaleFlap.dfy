/** A run in which a race applies a flap that was sent in the race before, and in which the distance
    on the wire falls back: two race, one dies and flaps, the other leaves. */
module StaleFlap {
  import opened Options
  import opened Protocol
  import opened StoreSpec
  import WorldSpec
  import Track
  import Race
  import Falling
  import RingSpec
  import opened HubSpec
  import opened HubInvariant
  import opened HubRuns
  import opened HubTheorems
  import opened BroadcastLog
  import Flaps

  // ----- single events -----

  /** A newcomer on connection `c` under the next id, who has not flapped yet. */
  ghost predicate Joined(s: State, t: State, c: nat) {
    var id := s.nextID + 1;
    && t.st == Countdown && t.nextID == id && t.pending == s.pending && t.cfg == s.cfg
    && id in t.players && t.players == s.players[id := t.players[id]]
    && t.players[id].conn == c && t.players[id].flapCount == 0
    && (s.st == Countdown ==> t.goAt == s.goAt)
  }

  lemma Joins(s: State, c: nat, name: string, now: int)
    requires RegistryOk(s) && |s.players| < s.cfg.maxPlayers && s.st in {Waiting, Countdown}
    requires forall id :: id in s.players ==> s.players[id].conn != c
    requires s.st == Countdown ==> s.world.Some?
    ensures var t := Join(s, c, Some(name), now, now).0;
            Joined(s, t, c) && (s.st == Waiting ==> t.goAt == now + s.cfg.countdown)
  {
    hide RegistryOk, LineUp, InfosOf, PickTheme, Dress, Names.UniqueName, Broadcast, WelcomeFor;
    RegisterRegistry(s, c, name);
  }

  lemma Starts(s: State, now: int, snapNow: int)
    requires s.st == Countdown && now >= s.goAt
    ensures var t := Tick(s, now, snapNow).0;
            && t.st == Racing && t.world == s.world && t.players == s.players && t.pending == s.pending
  {
    hide Broadcast;
  }

  /** A racer's flap counts as long as the limit is not reached. */
  lemma Flaps1(s: State, sid: nat, now: int)
    requires s.st == Racing && s.world.Some? && sid in s.players && sid in s.world.value.birds
    requires s.players[sid].flapCount < FLAP_RATE_LIMIT
    ensures var t := Flap(s, sid, now);
            && t == s.(players := t.players, pending := s.pending + {sid}) && t.players.Keys == s.players.Keys
            && (forall id :: id in s.players ==> t.players[id].conn == s.players[id].conn)
            && (forall id :: id in s.players ==> t.players[id].flapCount <= s.players[id].flapCount + 1)
  {
  }

  lemma Flies(s: State, now: int, snapNow: int)
    requires s.st == Racing && s.world.Some? && !RaceIsOver(WorldSpec.Step(s.world.value, s.pending))
    ensures var t := Tick(s, now, snapNow).0;
            && t.st == Racing && t.world == Some(WorldSpec.Step(s.world.value, s.pending)) && t.pending == {}
            && t.players == s.players
  {
    hide RaceIsOver, WorldSpec.Step, Broadcast;
  }

  lemma RateKeeps(s: State, now: int)
    requires s.world.Some?
    ensures var t := Rate(s, now);
            t.world == s.world && t.players == s.players && t.pending == s.pending && t.cfg == s.cfg
  {
    hide EntriesOf, PodiumOf, Record;
  }

  /** The last flyer leaves, and somebody is still watching. */
  lemma LastLeaves(s: State, c: nat, sid: nat, other: nat, now: int, snapNow: int)
    requires s.st == Racing && s.world.Some? && sid in s.players && sid in s.world.value.birds
    requires s.players[sid].id == sid && other in s.players && other != sid && WorldSpec.Living(s.world.value) <= {sid}
    ensures var t := Leave(s, c, Some(sid), now, snapNow).0;
            && t.st == Finished && t.players == s.players - {sid} && t.pending == s.pending
            && t.world == Some(WorldSpec.KillLeft(s.world.value, sid)) && t.finishAt == now + s.cfg.results
            && ToldBy(s, EvLeave(c, Some(sid), now, snapNow)).Some?
            && ToldBy(s, EvLeave(c, Some(sid), now, snapNow)).value.dist == s.world.value.track.dist
            && ToldBy(s, EvLeave(c, Some(sid), now, snapNow)).value.now == snapNow
  {
    hide Rate, WorldSpec.Without, Broadcast, WorldSpec.KillLeft;
    KillKeeps(s.world.value, sid);
    var struck := Strike(s, s.players[sid]);
    assert other in struck.players;
    RateKeeps(struck.(world := Some(WorldSpec.KillLeft(s.world.value, sid))), now);
  }

  lemma SomebodyHears(s: State, frame: Frame)
    requires RegistryOk(s) && s.players != map[]
    ensures ToAll(s.players, s.order, frame) != []
  {
    var id :| id in s.players;
    assert id in s.order;
    assert s.order[|s.order| - 1] in s.order;
  }

  lemma LineStartsAtZero(s: State, now: int)
    requires RegistryOk(s)
    ensures var w := BeginCountdown(s, now).world;
            w.Some? && w.value.track.dist == 0.0
  {
    hide Registry;
    BeginLine(s, now);
  }

  /** When the next countdown opens, everybody is told of a world that has not moved. */
  lemma Restarts(s: State, now: int, snapNow: int)
    requires Inv(s) && s.st == Finished && now >= s.finishAt
    ensures var t := Tick(s, now, snapNow).0;
            && t.st == Countdown && t.players == s.players && t.pending == s.pending
            && t.goAt == now + s.cfg.countdown
            && ToldBy(s, EvTick(now, snapNow)).Some? && ToldBy(s, EvTick(now, snapNow)).value.dist == 0.0
            && ToldBy(s, EvTick(now, snapNow)).value.now == snapNow
  {
    hide Registry, InTheAir, LineUp, InfosOf, PickTheme, ToAll, BirdsShown, WorldSpec.PipeSnaps, SpectatorCount;
    var b := BeginCountdown(s, now);
    LineStartsAtZero(s, now);
    BeginRegistry(s, now);
    SomebodyHears(b, Snap(SnapshotOf(b, snapNow)));
  }

  // ----- the run -----

  /** The two players, none of whom has flapped more than `n` times. */
  ghost predicate Two(s: State, n: nat) {
    && s.players.Keys == {1, 2} && s.players[1].conn == 0 && s.players[2].conn == 1
    && s.players[1].flapCount <= n && s.players[2].flapCount <= n
  }

  lemma JoinNext(y: System, c: nat, name: string, now: int)
    requires SystemInv(y) && c !in y.conns && |y.hub.players| < y.hub.cfg.maxPlayers && y.hub.st in {Waiting, Countdown}
    ensures var z := Next(y, EvJoin(c, Some(name), now, now));
            && SystemInv(z) && z.conns.Keys == y.conns.Keys + {c} && Joined(y.hub, z.hub, c)
            && (y.hub.st == Waiting ==> z.hub.goAt == now + y.hub.cfg.countdown)
  {
    hide Inv, Join, Refusal, TraceOk, ShapeOk, Joined, ConnsOk, RegistryOk;
    InvNeeds(y.hub);
    OpenAll(y.hub.players, y.conns);
    Joins(y.hub, c, name, now);
    NextInv(y, EvJoin(c, Some(name), now, now));
  }

  lemma TwoOnTheLine(y: System, t: int) returns (z: System, events: seq<Event>)
    requires Initial(y) && y.hub.cfg.maxPlayers >= 2
    ensures z == Run(y, events) && SystemInv(z) && OnClock(events, t, z.hub.goAt)
    ensures z.hub.st == Countdown && Two(z.hub, 0) && z.hub.pending == {}
  {
    hide SystemInv, Next;
    var e1, e2 := EvJoin(0, Some("a"), t, t), EvJoin(1, Some("b"), t, t);
    InitialInv(y);
    JoinNext(y, 0, "a", t);
    var z1 := Next(y, e1);
    assert z1.hub.players == map[1 := z1.hub.players[1]];
    JoinNext(z1, 1, "b", t);
    z := Next(z1, e2);
    events := [e1] + [e2];
    RunTwo(y, e1, e2);
    OneOnClock(e1, t, t);
    OneOnClock(e2, t, z.hub.goAt);
    OnClockAppend([e1], [e2], t, t, z.hub.goAt);
  }

  /** Racing on the line, with one flap pending. */
  ghost predicate Ready(s: State, w: WorldSpec.State) {
    && s.st == Racing && s.world == Some(w) && Race.Grid(w) && w.birds.Keys == {1, 2}
    && Two(s, 1) && s.pending == {1}
  }

  lemma StartNext(y: System)
    requires SystemInv(y) && y.hub.st == Countdown && Two(y.hub, 0)
    ensures var z := Next(y, EvTick(y.hub.goAt, y.hub.goAt));
            && SystemInv(z) && z.hub.st == Racing && z.hub.world.Some? && Race.Grid(z.hub.world.value)
            && z.hub.world.value.birds.Keys == {1, 2} && Two(z.hub, 0) && z.hub.pending == y.hub.pending
  {
    hide RegistryOk, HistoryOk, InTheAir, Tick, TraceOk, ShapeOk, Race.Grid, ConnsOk;
    Starts(y.hub, y.hub.goAt, y.hub.goAt);
    NextInv(y, EvTick(y.hub.goAt, y.hub.goAt));
  }

  lemma FlapNext(y: System, sid: nat, n: nat, now: int)
    requires SystemInv(y) && y.hub.st == Racing && y.hub.world.Some? && sid in y.hub.world.value.birds
    requires Two(y.hub, n) && n < FLAP_RATE_LIMIT && sid in {1, 2}
    ensures var z := Next(y, EvFlap(sid, now));
            && SystemInv(z) && z.hub.st == Racing && z.hub.world == y.hub.world && Two(z.hub, n + 1)
            && z.hub.pending == y.hub.pending + {sid}
  {
    hide Inv, Flap, TraceOk, ShapeOk, ConnsOk;
    Flaps1(y.hub, sid, now);
    NextInv(y, EvFlap(sid, now));
  }

  lemma OneFlaps(y: System) returns (z: System, w: WorldSpec.State, events: seq<Event>)
    requires SystemInv(y) && y.hub.st == Countdown && Two(y.hub, 0) && y.hub.pending == {}
    ensures z == Run(y, events) && SystemInv(z) && Ready(z.hub, w) && OnClock(events, y.hub.goAt, y.hub.goAt)
  {
    hide SystemInv, Next, Race.Grid, Two, OnClock, Run;
    var t := y.hub.goAt;
    var e1, e2 := EvTick(t, t), EvFlap(1, t);
    StartNext(y);
    w := Next(y, e1).hub.world.value;
    FlapNext(Next(y, e1), 1, 0, t);
    z := Next(Next(y, e1), e2);
    events := [e1] + [e2];
    RunTwo(y, e1, e2);
    OneOnClock(e1, t, t);
    OneOnClock(e2, t, t);
    OnClockAppend([e1], [e2], t, t, t);
  }

  /** `n` ticks, seventeen milliseconds apart. */
  function Ticks(t: int, n: nat): seq<Event> {
    if n == 0 then [] else Ticks(t, n - 1) + [EvTick(t + 17 * n, t + 17 * n)]
  }

  lemma {:induction false} TicksOnClock(t: int, n: nat)
    ensures OnClock(Ticks(t, n), t, t + 17 * n)
  {
    if n > 0 {
      TicksOnClock(t, n - 1);
      var e := EvTick(t + 17 * n, t + 17 * n);
      OneOnClock(e, t + 17 * (n - 1), t + 17 * n);
      OnClockAppend(Ticks(t, n - 1), [e], t, t + 17 * (n - 1), t + 17 * n);
    }
  }

  lemma NotOverYet(w: WorldSpec.State, n: nat)
    requires Race.Grid(w) && 1 in w.birds && 1 <= n <= Falling.FALL
    ensures !RaceIsOver(Falling.Dive(w, 1, n))
  {
    hide Race.Grid, Race.Reachable;
    Falling.DiveReaches(w, 1, n);
    Falling.GlideThrough(w, 1, n);
    assert 1 in WorldSpec.Living(Falling.Dive(w, 1, n));
  }

  lemma FliesNext(y: System, t: int)
    requires y.hub.st == Racing && y.hub.world.Some? && !RaceIsOver(WorldSpec.Step(y.hub.world.value, y.hub.pending))
    ensures var z := Next(y, EvTick(t, t)).hub;
            && z.st == Racing && z.world == Some(WorldSpec.Step(y.hub.world.value, y.hub.pending)) && z.pending == {}
            && z.players == y.hub.players
  {
    hide Tick, RaceIsOver, WorldSpec.Step;
    Flies(y.hub, t, t);
  }

  lemma {:induction false} FlyOn(y: System, w: WorldSpec.State, t: int, n: nat)
    requires SystemInv(y) && Ready(y.hub, w) && n <= Falling.FALL
    ensures var z := Run(y, Ticks(t, n)).hub;
            && z.st == Racing && z.world == Some(Falling.Dive(w, 1, n)) && z.players == y.hub.players
            && z.pending == if n == 0 then {1} else {}
  {
    hide SystemInv, Next, RaceIsOver, Race.Grid, WorldSpec.Step, Two;
    if n > 0 {
      FlyOn(y, w, t, n - 1);
      RunLast(y, Ticks(t, n - 1), EvTick(t + 17 * n, t + 17 * n));
      NotOverYet(w, n);
      FliesNext(Run(y, Ticks(t, n - 1)), t + 17 * n);
    }
  }

  /** One flies, the other is dead and has a flap pending. */
  ghost predicate Doomed(s: State) {
    && s.st == Racing && s.world.Some? && WorldSpec.Living(s.world.value) == {1}
    && s.world.value.birds.Keys == {1, 2} && s.world.value.track.tick == Falling.FALL
    && Two(s, 2) && s.pending == {2}
  }

  lemma OnlyLiving(w: WorldSpec.State)
    requires w.birds.Keys == {1, 2} && !w.birds[1].dead && w.birds[2].dead
    ensures WorldSpec.Living(w) == {1}
  {
  }

  lemma DeadFlaps(y: System, w: WorldSpec.State, t: int) returns (x: System, events: seq<Event>)
    requires SystemInv(y) && Ready(y.hub, w)
    ensures x == Run(y, events) && SystemInv(x) && Doomed(x.hub) && OnClock(events, t, t + 17 * Falling.FALL)
  {
    hide SystemInv, Next, Race.Grid, Race.Reachable, Falling.Dive;
    var to := t + 17 * Falling.FALL;
    FlyOn(y, w, t, Falling.FALL);
    RunInv(y, Ticks(t, Falling.FALL));
    var z := Run(y, Ticks(t, Falling.FALL));
    Falling.OneLivesOneDies(w, 1, 2);
    var e := EvFlap(2, to);
    FlapNext(z, 2, 1, to);
    events := Ticks(t, Falling.FALL) + [e];
    RunLast(y, Ticks(t, Falling.FALL), e);
    x := Next(z, e);
    OnlyLiving(z.hub.world.value);
    TicksOnClock(t, Falling.FALL);
    OneOnClock(e, to, to);
    OnClockAppend(Ticks(t, Falling.FALL), [e], t, to, to);
  }

  /** A state to which the hub can come in every configuration for two players, from any time `t` on. */
  lemma DoomedIsReached(y: System, t: int) returns (x: System, events: seq<Event>, to: int)
    requires Initial(y) && y.hub.cfg.maxPlayers >= 2
    ensures x == Run(y, events) && SystemInv(x) && Doomed(x.hub) && OnClock(events, t, to)
  {
    hide SystemInv, Run, Doomed, Ready, Two, Initial, OnClock;
    var z1, e1 := TwoOnTheLine(y, t);
    var z2, w, e2 := OneFlaps(z1);
    var z3, e3 := DeadFlaps(z2, w, z1.hub.goAt);
    to := z1.hub.goAt + 17 * Falling.FALL;
    RunAppend(y, e1, e2);
    RunAppend(y, e1 + e2, e3);
    OnClockAppend(e1, e2, t, z1.hub.goAt, z1.hub.goAt);
    OnClockAppend(e1 + e2, e3, t, z1.hub.goAt, to);
    x, events := z3, e1 + e2 + e3;
  }

  /** The next race of such a state: the flyer leaves, the next countdown opens and ends. */
  lemma NextRace(x: System, t: int) returns (z1: System, z2: System, z3: System, e: Event, t1: Event, t2: Event)
    requires SystemInv(x) && Doomed(x.hub)
    ensures e.EvLeave? && t1.EvTick? && t2.EvTick? && Allowed(x, e)
    ensures t <= e.now <= e.snapNow <= t1.now <= t1.snapNow <= t2.now <= t2.snapNow
    ensures z1 == Next(x, e) && z2 == Next(z1, t1) && z3 == Next(z2, t2)
    ensures z1.hub.st == Finished && z2.hub.st == Countdown && z3.hub.st == Racing
    ensures 2 in z3.hub.players && 2 in x.hub.pending
    ensures var first, second := ToldBy(x.hub, e), ToldBy(z1.hub, t1);
            && first.Some? && second.Some? && first.value.now < second.value.now
            && second.value.dist == 0.0 && first.value.dist == x.hub.world.value.track.dist
  {
    hide Inv, Leave, Tick, TraceOk, ShapeOk, ToldBy, WorldSpec.Living;
    InvNeeds(x.hub);
    SessionId(x.hub, 1);
    e := EvLeave(0, Some(1), t, t);
    LastLeaves(x.hub, 0, 1, 2, t, t);
    z1 := Next(x, e);
    NextInv(x, e);
    t1 := EvTick(z1.hub.finishAt + 1, z1.hub.finishAt + 1);
    Restarts(z1.hub, z1.hub.finishAt + 1, z1.hub.finishAt + 1);
    z2 := Next(z1, t1);
    NextInv(z1, t1);
    t2 := EvTick(z2.hub.goAt, z2.hub.goAt);
    Starts(z2.hub, z2.hub.goAt, z2.hub.goAt);
    z3 := Next(z2, t2);
  }

  lemma DoomedRaces(s: State)
    requires Doomed(s)
    ensures s.st == Racing
  {
  }

  lemma ThreeOnClock(b: seq<Event>, e: Event, t1: Event, t2: Event, from: int, mid: int)
    requires OnClock(b, from, mid) && e.EvLeave? && t1.EvTick? && t2.EvTick?
    requires mid <= e.now <= e.snapNow <= t1.now <= t1.snapNow <= t2.now <= t2.snapNow
    ensures OnClock(b + [e] + [t1], from, t1.snapNow)
    ensures OnClock(b + [e] + [t1] + [t2], from, t2.snapNow)
  {
    hide OnClock;
    OneOnClock(e, mid, e.snapNow);
    OneOnClock(t1, e.snapNow, t1.snapNow);
    OneOnClock(t2, t1.snapNow, t2.snapNow);
    OnClockAppend(b, [e], from, mid, e.snapNow);
    OnClockAppend(b + [e], [t1], from, e.snapNow, t1.snapNow);
    OnClockAppend(b + [e] + [t1], [t2], from, t1.snapNow, t2.snapNow);
  }

  /** From every initial state that admits two players, at any time and on an ordinary clock, there is a
      run to a race whose first tick shows a flap sent before it began. */
  lemma StaleFlapIsApplied(y: System, t: int)
      returns (before: seq<Event>, e: Event, events: seq<Event>, f: Event, to: int)
    requires Initial(y) && y.hub.cfg.maxPlayers >= 2
    ensures OnClock(before + [e] + events + [f], t, to)
    ensures var x := Run(y, before);
            var r := Next(Run(Next(x, e), events), f).hub;
            && x.hub.st == Racing && Next(x, e).hub.st == Finished && r.st == Racing
            && (forall i :: 0 <= i < |events| ==> events[i].EvTick?) && e.EvLeave? && f.EvTick?
            && r.world.Some? && r.world.value.track.tick == 0
            && WorldSpec.Step(r.world.value, r.pending) != WorldSpec.Step(r.world.value, {})
  {
    hide SystemInv, Inv, Initial, Doomed, Two, ToldBy, Next, Allowed, WorldSpec.Step, OnClock;
    var x, b, mid := DoomedIsReached(y, t);
    DoomedRaces(x.hub);
    var z1, z2, z3, leave, t1, t2 := NextRace(x, mid);
    before, e, events, f := b, leave, [t1], t2;
    to := t2.snapNow;
    ThreeOnClock(b, leave, t1, t2, t, mid);
    assert [t1][..0] == [];
    assert forall n :: 0 <= n <= 1 ==> events[..n] == [] || events[..n] == [t1];
    Flaps.RaceStartsCleanIff(x, e, events, f);
    NextInv(x, e);
    NextInv(z1, t1);
    Flaps.TakesOff(z2, t2);
    Falling.GridStarts(z3.hub.world.value);
  }

  // ----- the distance falls back -----

  lemma TwoSnapsFall(a: Snapshot, b: Snapshot)
    requires a.now < b.now && a.dist > b.dist
    ensures RingSpec.Fed([a, b]) == [a, b] && !RingSpec.ShownDistRises([a, b])
  {
    var ring := [a, b];
    assert [a][..0] == [] && ring[..1] == [a];
    assert RingSpec.Fed([a]) == RingSpec.Pushed([], a) == [a];
    assert RingSpec.Fed(ring) == RingSpec.Pushed([a], b) == ring;
    assert RingSpec.Increasing(ring);
    RingSpec.DistRisesIff(ring);
    assert ring[0].dist > ring[1].dist;
  }

  lemma TicksAreAllowed(y: System, e: Event)
    requires e.EvTick?
    ensures Allowed(y, e)
  {
  }

  lemma LogLast(y: System, events: seq<Event>, e: Event)
    requires Allowed(Run(y, events), e)
    ensures Log(y, events + [e]) == Log(y, events) + AsSeq(ToldBy(Run(y, events).hub, e))
  {
    assert (events + [e])[..|events|] == events;
  }

  lemma DoomedHasFlown(x: System)
    requires SystemInv(x) && Doomed(x.hub)
    ensures x.hub.world.Some? && x.hub.world.value.track.dist > 0.0
  {
    hide HistoryOk, RegistryOk, ConnsOk, NamesDiffer, TraceOk, ShapeOk, Track.Settled, Race.BirdFits;
    var w := x.hub.world.value;
    Track.Reached(w.track.draws, w.track.tick);
    Track.DistGrows(0, w.track.tick);
  }

  /** From every initial state that admits two players, at any time and on an ordinary clock, there is a
      run whose last two broadcasts make the shown distance run backwards on a ring that holds both. */
  lemma DistanceFallsBack(y: System, t: int) returns (events: seq<Event>, to: int)
    requires Initial(y) && y.hub.cfg.maxPlayers >= 2
    ensures OnClock(events, t, to)
    ensures var log := Log(y, events);
            && |log| >= 2
            && var ring := RingSpec.Fed(log[|log| - 2..]);
               ring == log[|log| - 2..] && !RingSpec.ShownDistRises(ring)
  {
    hide SystemInv, Inv, Initial, Doomed, Two, ToldBy, Next, OnClock, Run, Log, RingSpec.Fed, RingSpec.ShownDistRises;
    var x, b, mid := DoomedIsReached(y, t);
    var z1, z2, z3, e, t1, t2 := NextRace(x, mid);
    events, to := b + [e] + [t1], t1.snapNow;
    ThreeOnClock(b, e, t1, t2, t, mid);
    LogLast(y, b, e);
    LogLast(y, b + [e], t1);
    RunLast(y, b, e);
    TicksAreAllowed(z1, t1);
    DoomedHasFlown(x);
    var first, second := ToldBy(x.hub, e).value, ToldBy(z1.hub, t1).value;
    TwoSnapsFall(first, second);
    var log := Log(y, events);
    assert log[|log| - 2..] == [first, second];
  }
}
