/** What the frames of the hub say, told by the hub's own fields, and which events make it send them. */
module Broadcasts {
  import opened Options
  import opened Protocol
  import Track
  import Flight
  import WorldSpec
  import Race
  import Rank
  import opened HubSpec
  import opened HubInvariant
  import opened HubRuns
  import opened HubTheorems
  import opened Delivery
  import opened BroadcastLog

  // ----- what a snapshot shows -----

  /** Everything but the tick of the last flap is shown as it is; a flap is shown for twelve ticks. */
  predicate ShowsBird(b: BirdSnap, x: Flight.Bird, tick: nat) {
    && b.id == x.id && b.name == x.name && b.pal == x.pal && b.acc == x.acc
    && b.y == x.y && b.vy == x.vy && b.score == x.score && b.dead == x.dead && b.left == x.left
    && (b.flap <==> 0 < x.lastFlap <= tick < x.lastFlap + FLAP_ANIM_TICKS)
  }

  predicate ShowsPipe(p: PipeSnap, x: Track.Pipe) {
    p.id == x.id && p.x == x.x && p.g == x.gapY && p.h == x.gapH
  }

  /** All birds, in the order they joined, and all pipes of the track. */
  ghost predicate ShowsWorld(snap: Snapshot, w: WorldSpec.State) {
    && snap.tick == w.track.tick && snap.dist == w.track.dist
    && |snap.birds| == |w.order| && |snap.pipes| == |w.track.pipes|
    && (forall i :: 0 <= i < |w.order| ==>
          w.order[i] in w.birds && ShowsBird(snap.birds[i], w.birds[w.order[i]], w.track.tick))
    && (forall i :: 0 <= i < |w.track.pipes| ==> ShowsPipe(snap.pipes[i], w.track.pipes[i]))
  }

  ghost predicate Ranks(res: seq<ResultSnap>, w: WorldSpec.State) {
    WorldSpec.Registered(w.order, w.birds) && Rank.Podium(res, w) && res == Rank.Results(w)
  }

  /** The hub as it is, read at `at`; the ranking only once the race is over. */
  ghost predicate ShowsHub(snap: Snapshot, s: State, at: int) {
    && snap.now == at && snap.st == s.st && snap.goAt == s.goAt && snap.theme == s.theme && snap.seed == s.seed
    && snap.wait == |s.players.Keys - Racers(s)|
    && s.world.Some? && ShowsWorld(snap, s.world.value)
    && if s.st == Finished then Ranks(snap.res, s.world.value) else snap.res == []
  }

  lemma NoPipesYet(draws: nat -> real)
    ensures Track.At(draws, 0).pipes == [] && WorldSpec.PipeSnaps([]) == []
  {
  }

  lemma ShownCount(t: Track.State)
    requires t.tick >= 1 && t == Track.At(t.draws, t.tick)
    ensures |WorldSpec.PipeSnaps(t.pipes)| == |t.pipes|
  {
    hide Track.At;
    if t.pipes != [] {
      WorldSpec.ReachedSnapshot(t.draws, t.tick, 0);
    }
  }

  lemma AllPipesShown(t: Track.State)
    requires t == Track.At(t.draws, t.tick)
    ensures |WorldSpec.PipeSnaps(t.pipes)| == |t.pipes|
    ensures forall i :: 0 <= i < |t.pipes| ==> ShowsPipe(WorldSpec.PipeSnaps(t.pipes)[i], t.pipes[i])
  {
    hide Track.At, WorldSpec.PipeSnaps;
    if t.tick == 0 {
      NoPipesYet(t.draws);
    } else {
      ShownCount(t);
      forall i | 0 <= i < |t.pipes|
        ensures ShowsPipe(WorldSpec.PipeSnaps(t.pipes)[i], t.pipes[i])
      {
        WorldSpec.ReachedSnapshot(t.draws, t.tick, i);
      }
    }
  }

  lemma SnapshotShowsWorld(s: State, at: int)
    requires s.world.Some? && Race.Reachable(s.world.value)
    ensures ShowsWorld(SnapshotOf(s, at), s.world.value)
  {
    hide Track.At, WorldSpec.PipeSnaps, SpectatorCount, Race.BirdFits;
    AllPipesShown(s.world.value.track);
  }

  lemma WorldIsReachable(s: State)
    requires Inv(s) && s.st != Waiting
    ensures s.world.Some? && Race.Reachable(s.world.value)
  {
    hide Registry, HistoryOk, Race.Reachable, Race.Grid, NamesDiffer;
    if s.st == Countdown {
      Race.GridReachable(s.world.value);
    }
  }

  lemma ResultsRank(s: State)
    requires Inv(s) && s.st == Finished
    ensures s.world.Some? && Ranks(s.results, s.world.value)
  {
    hide Registry, HistoryOk, Rank.Podium, NamesDiffer, Race.BirdFits;
    Rank.PodiumIsComplete(s.world.value);
  }

  /** Outside waiting, the snapshot built shows the hub. */
  lemma SnapshotShowsHub(s: State, at: int)
    requires Inv(s) && s.st != Waiting
    ensures ShowsHub(SnapshotOf(s, at), s, at)
  {
    hide Inv, Race.Reachable, ShowsWorld, Ranks, SpectatorCount, BirdsShown, WorldSpec.PipeSnaps, Racers;
    WorldIsReachable(s);
    SnapshotShowsWorld(s, at);
    SpectatorsAreOutsiders(s);
    if s.st == Finished {
      ResultsRank(s);
    }
  }

  // ----- who gets a snapshot, and when -----

  ghost predicate PlaysOn(s: State, conn: nat) {
    exists id :: id in s.players && s.players[id].conn == conn
  }

  /** The events that make the hub send its state: an accepted join, the departure of a racer before the
      race is over, and a tick that changes the phase or finds the last snapshot old enough. */
  ghost predicate Speaks(s: State, e: Event, t: State) {
    match e
    case EvJoin(_, cleaned, _, _) => |s.players| < s.cfg.maxPlayers && cleaned.Some?
    case EvFlap(_, _) => false
    case EvLeave(_, None, _, _) => false
    case EvLeave(_, Some(sid), _, _) =>
      (s.st == Countdown || s.st == Racing) && s.world.Some? && sid in s.world.value.birds
    case EvTick(now, _) => s.st != Waiting && (t.st != s.st || now - s.lastSnap >= s.cfg.snapshotEvery)
  }

  /** To every player's connection exactly one snapshot, and none to any other. */
  ghost predicate Delivered(acts: seq<Act>, conn: nat, t: State, told: bool, at: int) {
    SnapsOf(FramesFor(acts, conn)) == if told && PlaysOn(t, conn) then [SnapshotOf(t, at)] else []
  }

  lemma {:induction false} SameSpectators(a: State, b: State, order: seq<nat>)
    requires a.players == b.players && a.world == b.world
    ensures SpectatorCount(a, order) == SpectatorCount(b, order)
  {
    if order != [] {
      SameSpectators(a, b, order[..|order| - 1]);
    }
  }

  lemma SameSnapshot(a: State, at: int)
    ensures SnapshotOf(AfterBroadcast(a, at), at) == SnapshotOf(a, at)
    ensures AfterBroadcast(a, at).players == a.players && AfterBroadcast(a, at).st == a.st
    ensures SpectatorCount(AfterBroadcast(a, at), a.order) == SpectatorCount(a, a.order)
  {
    SameSpectators(a, AfterBroadcast(a, at), a.order);
    hide SpectatorCount;
  }

  lemma NothingSaid(conn: nat, t: State, at: int)
    ensures Delivered([], conn, t, false, at)
  {
    hide SnapshotOf;
  }

  lemma BroadcastDelivered(a: State, at: int, conn: nat)
    requires Inv(AfterBroadcast(a, at))
    ensures Delivered(Broadcast(a, at), conn, AfterBroadcast(a, at), true, at)
  {
    hide Inv, SnapshotOf, AfterBroadcast, RegistryOk;
    var t := AfterBroadcast(a, at);
    SameSnapshot(a, at);
    InvNeeds(t);
    WaitingMeansEmpty(t);
    SameRegistry(a, at);
    if Announced(a) {
      BroadcastReachesPlayers(a, at, conn);
      SnapsOfOne(SnapshotOf(a, at));
    }
  }

  lemma JoinDelivered(s: State, c: nat, cleaned: Option<string>, now: int, snapNow: int, conn: nat)
    requires Inv(s) && forall id :: id in s.players ==> s.players[id].conn != c
    ensures var (t, acts) := Join(s, c, cleaned, now, snapNow);
            Delivered(acts, conn, t, Speaks(s, EvJoin(c, cleaned, now, snapNow), t), snapNow)
  {
    hide Inv, Register, Admit, Broadcast, AfterBroadcast, WelcomeFor, FramesFor, SnapsOf, SnapshotOf, PlaysOn;
    if Refusal(s, cleaned).Some? {
      RejectNoSnap(c, Refusal(s, cleaned).value, conn);
    } else {
      var (r, sess) := Register(s, c, cleaned.value);
      var a := Admit(r, sess, now);
      JoinInv(s, c, cleaned, now, snapNow);
      BroadcastDelivered(a, snapNow, conn);
      IsWelcome(a, sess, now);
      OneActNoSnap(Enqueue(c, WelcomeFor(a, sess, now)), conn);
      WithoutSnaps(Broadcast(a, snapNow), [Enqueue(c, WelcomeFor(a, sess, now))], conn, None);
    }
  }

  lemma LeaveDelivered(s: State, c: nat, who: Option<nat>, now: int, snapNow: int, conn: nat)
    requires Inv(s) && (who.Some? ==> who.value in s.players)
    ensures var (t, acts) := Leave(s, c, who, now, snapNow);
            Delivered(acts, conn, t, Speaks(s, EvLeave(c, who, now, snapNow), t), snapNow)
  {
    hide Inv, Depart, Broadcast, AfterBroadcast, FramesFor, SnapsOf, SnapshotOf, PlaysOn, WorldSpec.Without;
    OneActNoSnap(Close(c), conn);
    if who.Some? {
      var struck := Strike(s, s.players[who.value]);
      var left := Depart(struck, who.value, now);
      if DepartAnnounces(struck, who.value) {
        LeaveInv(s, c, who, now, snapNow);
        BroadcastDelivered(left, snapNow, conn);
        WithoutSnaps(Broadcast(left, snapNow), [Close(c)], conn, None);
      } else {
        assert [] + [Close(c)] == [Close(c)];
      }
    }
  }

  lemma TickDelivered(s: State, now: int, snapNow: int, conn: nat)
    requires Inv(s)
    ensures var (t, acts) := Tick(s, now, snapNow);
            Delivered(acts, conn, t, Speaks(s, EvTick(now, snapNow), t), snapNow)
  {
    hide Inv, TickState, Broadcast, AfterBroadcast, SnapshotOf, Delivered;
    var ticked := TickState(s, now);
    SameSnapshot(ticked, snapNow);
    TickInv(s, now, snapNow);
    if s.st != Waiting && (ticked.st != s.st || now - s.lastSnap >= s.cfg.snapshotEvery) {
      BroadcastDelivered(ticked, snapNow, conn);
    } else {
      NothingSaid(conn, ticked, snapNow);
    }
  }

  lemma FlapIsQuiet(s: State, sid: nat, now: int, conn: nat)
    requires sid in s.players
    ensures Delivered([], conn, Flap(s, sid, now), Speaks(s, EvFlap(sid, now), Flap(s, sid, now)), now)
  {
    hide Flap, SnapshotOf;
  }

  lemma HandleDelivered(y: System, e: Event, conn: nat)
    requires SystemInv(y) && Allowed(y, e)
    ensures var (t, acts) := Handle(y.hub, e);
            Delivered(acts, conn, t, Speaks(y.hub, e, t), Ended(e))
  {
    hide Inv, TraceOk, ShapeOk, Join, Leave, Tick, Flap, Delivered, Speaks;
    match e
    case EvJoin(c, cleaned, now, snapNow) =>
      OpenAll(y.hub.players, y.conns);
      JoinDelivered(y.hub, c, cleaned, now, snapNow, conn);
    case EvFlap(sid, now) => FlapIsQuiet(y.hub, sid, now, conn);
    case EvLeave(c, who, now, snapNow) => LeaveDelivered(y.hub, c, who, now, snapNow, conn);
    case EvTick(now, snapNow) => TickDelivered(y.hub, now, snapNow, conn);
  }

  /** The snapshots an event adds to what a connection was sent. */
  ghost function News(y: System, e: Event, conn: nat): seq<Snapshot>
    requires |y.acts| <= |Next(y, e).acts|
  {
    SnapsOf(FramesFor(Next(y, e).acts[|y.acts|..], conn))
  }

  lemma NewsAreActs(y: System, e: Event, conn: nat)
    requires Allowed(y, e)
    ensures |y.acts| <= |Next(y, e).acts|
    ensures News(y, e, conn) == SnapsOf(FramesFor(Handle(y.hub, e).1, conn))
    ensures SnapsOf(FramesFor(Next(y, e).acts, conn)) == SnapsOf(FramesFor(y.acts, conn)) + News(y, e, conn)
    ensures Next(y, e).hub == Handle(y.hub, e).0
  {
    hide Handle, FramesFor, SnapsOf;
    var acts := Handle(y.hub, e).1;
    HandleAppends(y, e);
    assert Next(y, e).acts[|y.acts|..] == acts;
    FramesForAppend(y.acts, acts, conn);
    SnapsOfAppend(FramesFor(y.acts, conn), FramesFor(acts, conn));
  }

  /** One event: if it is one of those, every player is sent one snapshot, which shows the hub after the
      event; nobody else is, and no other event sends any. */
  ghost predicate ToldRight(y: System, e: Event, conn: nat) {
    var z := Next(y, e);
    && |y.acts| <= |z.acts|
    && if Speaks(y.hub, e, z.hub) && PlaysOn(z.hub, conn)
       then |News(y, e, conn)| == 1 && ShowsHub(News(y, e, conn)[0], z.hub, Ended(e))
       else News(y, e, conn) == []
  }

  lemma PlayersMeanRace(s: State, conn: nat)
    requires Inv(s) && PlaysOn(s, conn)
    ensures s.st != Waiting
  {
    hide Inv;
    WaitingMeansEmpty(s);
  }

  lemma NextTells(y: System, e: Event, conn: nat)
    requires SystemInv(y) && Allowed(y, e)
    ensures ToldRight(y, e, conn)
  {
    hide Inv, TraceOk, ShapeOk, ConnsOk, Handle, ShowsHub, SnapshotOf, Speaks, PlaysOn, Next, News,
         Allowed, FramesFor, SnapsOf;
    NextInv(y, e);
    HandleDelivered(y, e, conn);
    NewsAreActs(y, e, conn);
    var z := Next(y, e);
    if PlaysOn(z.hub, conn) {
      PlayersMeanRace(z.hub, conn);
      SnapshotShowsHub(z.hub, Ended(e));
    }
  }

  /** In every run: who is sent what by the next event. */
  lemma WhoIsTold(y: System, events: seq<Event>, e: Event, conn: nat)
    requires Initial(y) && Allowed(Run(y, events), e)
    ensures ToldRight(Run(y, events), e, conn)
  {
    hide SystemInv, Run, Allowed, ToldRight, Initial;
    InitialInv(y);
    RunInv(y, events);
    NextTells(Run(y, events), e, conn);
  }

  // ----- every broadcast of a run -----

  lemma ToldBySpeaks(s: State, e: Event)
    requires e.EvFlap? ==> e.sid in s.players
    requires e.EvLeave? && e.who.Some? ==> e.who.value in s.players
    requires ToldBy(s, e).Some?
    ensures var t := Handle(s, e).0;
            t.st != Waiting && ToldBy(s, e).value == SnapshotOf(t, Ended(e))
  {
    hide Register, Admit, SnapshotOf, AfterBroadcast, Depart, TickState, WelcomeFor, WorldSpec.Without;
    match e
    case EvJoin(c, cleaned, now, snapNow) =>
      var (r, sess) := Register(s, c, cleaned.value);
      SameSnapshot(Admit(r, sess, now), snapNow);
    case EvLeave(c, Some(sid), now, snapNow) =>
      SameSnapshot(Depart(Strike(s, s.players[sid]), sid, now), snapNow);
    case EvTick(now, snapNow) =>
      SameSnapshot(TickState(s, now), snapNow);
    case _ =>
  }

  lemma LoggedShows(y: System, e: Event)
    requires SystemInv(y) && Allowed(y, e) && ToldBy(y.hub, e).Some?
    ensures ShowsHub(ToldBy(y.hub, e).value, Next(y, e).hub, Ended(e))
  {
    hide Inv, TraceOk, ShapeOk, ConnsOk, Handle, ShowsHub, SnapshotOf, ToldBy;
    NextInv(y, e);
    ToldBySpeaks(y.hub, e);
    SnapshotShowsHub(Next(y, e).hub, Ended(e));
  }

  /** Every broadcast of a run shows the hub as one of the events left it, in order of the events. */
  lemma {:induction false} LogShows(y: System, events: seq<Event>, i: nat) returns (m: nat)
    requires Initial(y) && i < |Log(y, events)|
    ensures m < |events| && ShowsHub(Log(y, events)[i], Run(y, events[..m + 1]).hub, Ended(events[m]))
    ensures |Log(y, events[..m])| == i
  {
    hide SystemInv, Next, ToldBy, Allowed, ShowsHub, Initial;
    var front, e := events[..|events| - 1], events[|events| - 1];
    if i < |Log(y, front)| {
      m := LogShows(y, front, i);
      assert events[..m + 1] == front[..m + 1] && events[..m] == front[..m];
    } else {
      m := |events| - 1;
      assert events[..m + 1] == events;
      InitialInv(y);
      RunInv(y, front);
      LoggedShows(Run(y, front), e);
    }
  }
}
