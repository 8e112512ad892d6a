/** What a join means to whoever joins, over whole runs of the hub: the limit on players, the refusal, the
    welcome, and the part in the race. */
module Joins {
  import opened Options
  import opened Protocol
  import opened StoreSpec
  import Names
  import Track
  import WorldSpec
  import Race
  import opened HubSpec
  import opened HubInvariant
  import opened HubRuns
  import opened HubTheorems
  import opened Delivery
  import opened BroadcastLog
  import opened Broadcasts
  import opened Schedule

  lemma Refused(y: System, c: nat, cleaned: Option<string>, now: int, snapNow: int)
    requires SystemInv(y) && c !in y.conns && Refusal(y.hub, cleaned).Some?
    ensures var z := Next(y, EvJoin(c, cleaned, now, snapNow));
            && z.hub == y.hub && z.acts != [] && z.acts[|z.acts| - 1] == Close(c)
            && FramesFor(z.acts, c) == [Error(Refusal(y.hub, cleaned).value)]
  {
    hide Inv, TraceOk, Join, Refusal, FramesFor;
    var msg := Refusal(y.hub, cleaned).value;
    JoinRefused(y.hub, c, cleaned, now, snapNow);
    RefuseFrames(y.acts, c, msg, c);
    UnknownHasNoFrames(y.acts, y.conns, c);
    assert Reject(c, msg)[|Reject(c, msg)| - 1] == Close(c);
  }

  lemma JoinAddsPlayer(s: State, c: nat, cleaned: Option<string>, now: int, snapNow: int)
    requires RegistryOk(s) && (forall id :: id in s.players ==> s.players[id].conn != c) && Refusal(s, cleaned).None?
    ensures var t, id := Join(s, c, cleaned, now, snapNow).0, s.nextID + 1;
            t.players.Keys == s.players.Keys + {id} && t.players[id].conn == c && PlaysOn(t, c)
  {
    hide Registry, Join, Register, Admit, Broadcast, WelcomeFor;
    JoinEffect(s, c, cleaned, now, snapNow);
  }

  lemma LetIn(y: System, c: nat, cleaned: Option<string>, now: int, snapNow: int)
    requires SystemInv(y) && c !in y.conns && Refusal(y.hub, cleaned).None?
    ensures var z := Next(y, EvJoin(c, cleaned, now, snapNow));
            z.hub.players.Keys == y.hub.players.Keys + {y.hub.nextID + 1} && PlaysOn(z.hub, c)
  {
    hide Inv, RegistryOk, TraceOk, ShapeOk, Join, PlaysOn, Refusal;
    RegistryPart(y.hub);
    OpenAll(y.hub.players, y.conns);
    JoinAddsPlayer(y.hub, c, cleaned, now, snapNow);
  }

  /** Who has a place and a name is let in; the others change nothing, are told why, and are closed. */
  lemma JoinsWithinLimit(y: System, events: seq<Event>, c: nat, cleaned: Option<string>, now: int, snapNow: int)
    requires Initial(y) && c !in Run(y, events).conns
    ensures var before, after := Run(y, events), Run(y, events + [EvJoin(c, cleaned, now, snapNow)]);
            if |before.hub.players| < before.hub.cfg.maxPlayers && cleaned.Some?
            then after.hub.players.Keys == before.hub.players.Keys + {before.hub.nextID + 1} && PlaysOn(after.hub, c)
            else && after.hub == before.hub
                 && after.acts != [] && after.acts[|after.acts| - 1] == Close(c)
                 && FramesFor(after.acts, c)
                    == [Error(if |before.hub.players| >= before.hub.cfg.maxPlayers then FULL else NAMELESS)]
  {
    hide Inv, TraceOk, ShapeOk, ConnsOk, Run, Initial, Next, FramesFor, PlaysOn;
    var before := Run(y, events);
    RunHubInv(y, events);
    RunLast(y, events, EvJoin(c, cleaned, now, snapNow));
    if Refusal(before.hub, cleaned).Some? {
      Refused(before, c, cleaned, now, snapNow);
    } else {
      LetIn(before, c, cleaned, now, snapNow);
    }
  }

  lemma HandlePlayers(s: State, e: Event)
    requires Inv(s)
    requires e.EvFlap? ==> e.sid in s.players
    requires e.EvLeave? && e.who.Some? ==> e.who.value in s.players
    requires e.EvJoin? ==> forall k :: k in s.players ==> s.players[k].conn != e.conn
    ensures var t := Handle(s, e).0;
            t.players.Keys <= s.players.Keys
            || (|s.players| < s.cfg.maxPlayers && t.players.Keys == s.players.Keys + {s.nextID + 1})
  {
    hide Inv, Join, Flap, Leave, Tick, RegistryOk;
    RegistryPart(s);
    match e
    case EvJoin(c, cleaned, now, snapNow) =>
      if Refusal(s, cleaned).Some? {
        JoinRefused(s, c, cleaned, now, snapNow);
      } else {
        JoinIds(s, c, cleaned, now, snapNow);
      }
    case EvFlap(sid, now) => FlapKeepsConns(s, sid, now);
    case EvLeave(c, Some(sid), now, snapNow) => LeaveEffect(s, c, sid, now, snapNow);
    case EvLeave(c, None, now, snapNow) => GoneEffect(s, c, now, snapNow);
    case EvTick(now, snapNow) => TickEffect(s, now, snapNow);
  }

  lemma Counted<T>(a: set<T>, b: set<T>)
    requires a <= b
    ensures |a| <= |b|
  {
    assert b == a + (b - a);
  }

  lemma StartsEmpty(y: System)
    requires Initial(y)
    ensures y.hub.players == map[]
  {
  }

  lemma SameConfig(y: System, e: Event)
    requires Allowed(y, e)
    ensures Next(y, e).hub.cfg == y.hub.cfg
  {
    hide Next, Speaks;
    NextTimes(y, e);
  }

  /** In every run there are at most as many players as the hub was set up for. */
  lemma {:induction false} PlayersWithinLimit(y: System, events: seq<Event>)
    requires Initial(y)
    ensures Run(y, events).hub.cfg == y.hub.cfg && |Run(y, events).hub.players| <= y.hub.cfg.maxPlayers
  {
    hide Inv, TraceOk, ShapeOk, Handle, Initial, TimesMove;
    if events == [] {
      StartsEmpty(y);
    } else {
      var before, e := Run(y, events[..|events| - 1]), events[|events| - 1];
      PlayersWithinLimit(y, events[..|events| - 1]);
      RunHubInv(y, events[..|events| - 1]);
      if Allowed(before, e) {
        OpenAll(before.hub.players, before.conns);
        HandlePlayers(before.hub, e);
        SameConfig(before, e);
        var was, now := before.hub.players.Keys, Handle(before.hub, e).0.players.Keys;
        if now <= was {
          Counted(now, was);
        }
      }
    }
  }

  // ----- the welcome -----

  /** A welcome that tells the newcomer who it is, and the state of the hub it has come to. */
  ghost predicate Greets(w: Frame, s: State, id: nat, now: int) {
    && w.Welcome? && w.you == id && id in s.players
    && w.name == s.players[id].name && w.bird == s.players[id].bird
    && w.now == now && w.st == s.st && w.goAt == s.goAt && w.theme == s.theme && w.seed == s.seed
    && s.world.Some? && (w.spect <==> id !in s.world.value.birds)
  }

  lemma JoinsLine(s: State, r: State, sess: Session, now: int)
    requires PhaseOk(s) && RegistryOk(r) && sess.id == s.nextID + 1 == r.nextID
    requires r.st == s.st && r.world == s.world && r.players == s.players[sess.id := sess]
    ensures var a := Admit(r, sess, now);
            && a.world.Some? && a.st != Waiting
            && (sess.id in a.world.value.birds <==> a.st == Countdown)
  {
    hide Registry, Race.Reachable, Race.Grid, NamesDiffer, LineUp, PickTheme, InfosOf;
    if s.st == Waiting {
      BeginLine(r, now);
    }
  }

  /** Whoever joins before take-off races; whoever joins later watches. */
  lemma NewcomerRaces(s: State, c: nat, base: string, now: int)
    requires Inv(s) && forall id :: id in s.players ==> s.players[id].conn != c
    ensures var (r, sess) := Register(s, c, base);
            var a := Admit(r, sess, now);
            && a.world.Some? && a.st != Waiting && sess.id == s.nextID + 1
            && (sess.id in a.world.value.birds <==> a.st == Countdown)
  {
    hide Registry, Register, HistoryOk, Race.Reachable, Race.Grid, NamesDiffer, Admit;
    var (r, sess) := Register(s, c, base);
    RegisterRegistry(s, c, base);
    JoinsLine(s, r, sess, now);
    hide OnTheLine, InTheAir;
  }

  lemma AfterBroadcastShows(a: State, at: int)
    ensures var t := AfterBroadcast(a, at);
            t == a.(lastSnap := t.lastSnap)
  {
  }

  lemma RegisteredPhase(s: State, c: nat, base: string, now: int)
    ensures var (r, sess) := Register(s, c, base);
            Admit(r, sess, now).st == if s.st == Waiting then Countdown else s.st
  {
    hide LineUp, PickTheme, InfosOf, Register;
    RegisterEffect(s, c, base);
  }

  lemma Welcomed(s: State, c: nat, base: string, now: int, snapNow: int)
    requires Inv(s) && forall id :: id in s.players ==> s.players[id].conn != c
    ensures var (r, sess) := Register(s, c, base);
            var a := Admit(r, sess, now);
            a.players == s.players[s.nextID + 1 := sess] ==>
              Greets(WelcomeFor(a, sess, now), AfterBroadcast(a, snapNow), s.nextID + 1, now)
  {
    hide Inv, Register, Admit, AfterBroadcast;
    var (r, sess) := Register(s, c, base);
    NewcomerRaces(s, c, base, now);
    AfterBroadcastShows(Admit(r, sess, now), snapNow);
    RegisteredPhase(s, c, base, now);
  }

  lemma JoinedIs(s: State, c: nat, cleaned: Option<string>, now: int, snapNow: int)
    requires Refusal(s, cleaned).None?
    ensures var (r, sess) := Register(s, c, cleaned.value);
            var a := Admit(r, sess, now);
            Join(s, c, cleaned, now, snapNow)
            == (AfterBroadcast(a, snapNow), [Enqueue(c, WelcomeFor(a, sess, now))] + Broadcast(a, snapNow))
  {
    hide Register, Admit, AfterBroadcast, WelcomeFor, Broadcast;
  }

  lemma FramesOfOne(c: nat, frame: Frame, more: seq<Act>)
    ensures FramesFor([Enqueue(c, frame)] + more, c) == [frame] + FramesFor(more, c)
  {
    FramesForAppend([Enqueue(c, frame)], more, c);
    FramesForLast([], Enqueue(c, frame), c);
    assert [] + [Enqueue(c, frame)] == [Enqueue(c, frame)];
  }

  lemma BroadcastFrame(a: State, at: int, conn: nat)
    requires Inv(AfterBroadcast(a, at)) && PlaysOn(a, conn)
    ensures FramesFor(Broadcast(a, at), conn) == [Snap(SnapshotOf(AfterBroadcast(a, at), at))]
  {
    hide Inv, SnapshotOf, AfterBroadcast, RegistryOk;
    SameSnapshot(a, at);
    InvNeeds(AfterBroadcast(a, at));
    WaitingMeansEmpty(AfterBroadcast(a, at));
    SameRegistry(a, at);
    BroadcastReachesPlayers(a, at, conn);
  }

  lemma FirstFrames(y: System, c: nat, cleaned: Option<string>, now: int, snapNow: int)
    requires SystemInv(y) && c !in y.conns && Refusal(y.hub, cleaned).None?
    ensures var z := Next(y, EvJoin(c, cleaned, now, snapNow));
            var frames := FramesFor(z.acts, c);
            && |frames| == 2 && Greets(frames[0], z.hub, y.hub.nextID + 1, now)
            && frames[1].Snap? && ShowsHub(frames[1].snapshot, z.hub, snapNow)
  {
    hide Inv, TraceOk, ShapeOk, ConnsOk, Join, Register, Admit, Broadcast, WelcomeFor, FramesFor, SnapshotOf,
         AfterBroadcast, Greets, ShowsHub;
    var s, e := y.hub, EvJoin(c, cleaned, now, snapNow);
    var (r, sess) := Register(s, c, cleaned.value);
    var a := Admit(r, sess, now);
    RegistryPart(s);
    OpenAll(s.players, y.conns);
    UnknownHasNoFrames(y.acts, y.conns, c);
    JoinEffect(s, c, cleaned, now, snapNow);
    Welcomed(s, c, cleaned.value, now, snapNow);
    JoinedIs(s, c, cleaned, now, snapNow);
    NextInv(y, e);
    AfterBroadcastShows(a, snapNow);
    assert PlaysOn(a, c) by { assert a.players[s.nextID + 1].conn == c; }
    BroadcastFrame(a, snapNow, c);
    FramesOfOne(c, WelcomeFor(a, sess, now), Broadcast(a, snapNow));
    FramesForAppend(y.acts, [Enqueue(c, WelcomeFor(a, sess, now))] + Broadcast(a, snapNow), c);
    PlayersMeanRace(Next(y, e).hub, c);
    SnapshotShowsHub(Next(y, e).hub, snapNow);
  }

  /** In every run the first frames of an accepted connection are the welcome, which says spectator exactly
      if the newcomer has no bird in the race, and the hub's state. */
  lemma NewcomersAreWelcomed(y: System, events: seq<Event>, c: nat, cleaned: Option<string>, now: int, snapNow: int)
    requires Initial(y) && c !in Run(y, events).conns
    requires |Run(y, events).hub.players| < Run(y, events).hub.cfg.maxPlayers && cleaned.Some?
    ensures var before, after := Run(y, events), Run(y, events + [EvJoin(c, cleaned, now, snapNow)]);
            var frames := FramesFor(after.acts, c);
            && |frames| == 2 && Greets(frames[0], after.hub, before.hub.nextID + 1, now)
            && frames[1].Snap? && ShowsHub(frames[1].snapshot, after.hub, snapNow)
  {
    hide Inv, TraceOk, ShapeOk, ConnsOk, Run, Next, FramesFor, Greets, ShowsHub, Initial;
    RunHubInv(y, events);
    RunLast(y, events, EvJoin(c, cleaned, now, snapNow));
    FirstFrames(Run(y, events), c, cleaned, now, snapNow);
  }

  // ----- the order of joining -----

  /** Ids are given in the order of joining. */
  ghost predicate Ascending(order: seq<nat>) {
    forall i, j :: 0 <= i < j < |order| ==> order[i] < order[j]
  }

  lemma {:induction false} WithoutAscends(order: seq<nat>, id: nat)
    requires Ascending(order)
    ensures Ascending(WorldSpec.Without(order, id))
    ensures forall x :: x in WorldSpec.Without(order, id) ==> x in order
  {
    if order != [] && order[0] != id {
      WithoutAscends(order[1..], id);
      assert forall x :: x in order[1..] ==> x in order && order[0] < x;
    }
  }

  /** The players are as they were, but for one who has come last or gone, and a race keeps its line-up
      once it flies. */
  ghost predicate LinesUp(s: State, t: State) {
    && (Ascending(s.order) ==> Ascending(t.order))
    && (t.st == Racing || t.st == Finished ==>
          s.world.Some? && t.world.Some? && t.world.value.order == s.world.value.order)
  }

  lemma RegisterLines(s: State, c: nat, base: string)
    requires RegistryOk(s) && forall id :: id in s.players ==> s.players[id].conn != c
    ensures var r := Register(s, c, base).0;
            && (Ascending(s.order) ==> Ascending(r.order)) && r.world == s.world && r.st == s.st
  {
    hide Register;
    RegisterRegistry(s, c, base);
    forall i | 0 <= i < |s.order|
      ensures s.order[i] <= s.nextID
    {
      assert s.order[i] in s.players;
    }
  }

  lemma AdmitLines(r: State, sess: Session, now: int)
    ensures var a := Admit(r, sess, now);
            && a.order == r.order
            && (a.st == Racing || a.st == Finished ==> a.world == r.world && a.st == r.st)
  {
    hide LineUp, PickTheme, InfosOf;
  }

  lemma JoinLines(s: State, c: nat, cleaned: Option<string>, now: int, snapNow: int)
    requires Inv(s) && forall id :: id in s.players ==> s.players[id].conn != c
    ensures LinesUp(s, Join(s, c, cleaned, now, snapNow).0)
  {
    hide Inv, Registry, Ascending, Register, Admit, Broadcast, WelcomeFor;
    InvNeeds(s);
    if Refusal(s, cleaned).None? {
      RegisterLines(s, c, cleaned.value);
      var (r, sess) := Register(s, c, cleaned.value);
      AdmitLines(r, sess, now);
    }
  }

  lemma FinishLines(s: State, now: int)
    requires s.world.Some?
    ensures var t := FinishRace(s, now);
            t.order == s.order && (t.st == Finished ==> t.world == s.world) && t.st != Racing
  {
    hide EntriesOf, PodiumOf, Record;
  }

  lemma DepartLines(s: State, sid: nat, now: int)
    requires s.st != Waiting ==> s.world.Some?
    ensures var t := Depart(s, sid, now);
            && t.order == s.order
            && (t.st == Racing || t.st == Finished ==>
                  s.world.Some? && t.world.Some? && t.world.value.order == s.world.value.order)
  {
    hide FinishRace, WorldSpec.Living, WorldSpec.RemoveBird;
    if s.st == Racing {
      FinishLines(s.(world := Some(WorldSpec.KillLeft(s.world.value, sid))), now);
    }
  }

  lemma LeaveLines(s: State, c: nat, who: Option<nat>, now: int, snapNow: int)
    requires Inv(s) && (who.Some? ==> who.value in s.players)
    ensures LinesUp(s, Leave(s, c, who, now, snapNow).0)
  {
    hide Inv, Ascending, Depart, Broadcast, WorldSpec.Without;
    InvNeeds(s);
    if who.Some? {
      SessionId(s, who.value);
      if Ascending(s.order) {
        WithoutAscends(s.order, who.value);
      }
      DepartLines(Strike(s, s.players[who.value]), who.value, now);
    }
  }

  lemma TickStateLines(s: State, now: int)
    requires s.st != Waiting ==> s.world.Some?
    ensures var t := TickState(s, now);
            && t.order == s.order
            && (t.st == Racing || t.st == Finished ==>
                  s.world.Some? && t.world.Some? && t.world.value.order == s.world.value.order)
  {
    hide FinishRace, WorldSpec.Living, LineUp, PickTheme, InfosOf, Track.Step;
    if s.st == Racing {
      FinishLines(Flown(s), now);
    }
  }

  lemma TickLines(s: State, now: int, snapNow: int)
    requires Inv(s)
    ensures LinesUp(s, Tick(s, now, snapNow).0)
  {
    hide Inv, TickState, Ascending, Broadcast;
    InvNeeds(s);
    TickStateLines(s, now);
  }

  lemma FlapLines(s: State, sid: nat, now: int)
    requires Inv(s) && sid in s.players
    ensures LinesUp(s, Flap(s, sid, now))
  {
    hide Inv, Ascending;
    InvNeeds(s);
  }

  lemma NextLines(y: System, e: Event)
    requires SystemInv(y) && Allowed(y, e)
    ensures LinesUp(y.hub, Next(y, e).hub)
  {
    hide Inv, TraceOk, ShapeOk, Join, Flap, Leave, Tick, LinesUp;
    OpenAll(y.hub.players, y.conns);
    match e
    case EvJoin(c, cleaned, now, snapNow) => JoinLines(y.hub, c, cleaned, now, snapNow);
    case EvFlap(sid, now) => FlapLines(y.hub, sid, now);
    case EvLeave(c, who, now, snapNow) => LeaveLines(y.hub, c, who, now, snapNow);
    case EvTick(now, snapNow) => TickLines(y.hub, now, snapNow);
  }

  lemma LinePart(s: State)
    requires Inv(s)
    ensures s.st == Countdown ==> s.world.Some? && s.world.value.order == s.order
    ensures s.st == Waiting ==> s.world.None?
  {
    hide Registry, HistoryOk, Race.Grid;
  }

  lemma NobodyListed(y: System)
    requires Initial(y)
    ensures Ascending(y.hub.order) && y.hub.world.None?
  {
  }

  /** In every run players are listed, and the birds of a race shown, in the order in which they joined. */
  lemma {:induction false} ListedAsJoined(y: System, events: seq<Event>)
    requires Initial(y)
    ensures var s := Run(y, events).hub;
            Ascending(s.order) && (s.world.Some? ==> Ascending(s.world.value.order))
  {
    hide Inv, TraceOk, ShapeOk, ConnsOk, Next, Ascending, Allowed, Initial;
    RunHubInv(y, events);
    LinePart(Run(y, events).hub);
    if events == [] {
      NobodyListed(y);
    } else {
      var before, e := Run(y, events[..|events| - 1]), events[|events| - 1];
      ListedAsJoined(y, events[..|events| - 1]);
      RunHubInv(y, events[..|events| - 1]);
      if Allowed(before, e) {
        NextLines(before, e);
      } else {
        NotAllowed(before, e);
      }
    }
  }
}
