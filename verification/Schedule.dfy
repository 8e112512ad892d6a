/** When things happen over whole runs of the hub: take-off, the end of a race and of its results, and how
    long a player waits for a snapshot. */
module Schedule {
  import opened Options
  import opened Protocol
  import WorldSpec
  import Race
  import opened HubSpec
  import opened HubInvariant
  import opened HubRuns
  import opened HubTheorems
  import opened Delivery
  import opened BroadcastLog
  import opened Broadcasts

  /** What an event does to the hub's three times. */
  ghost predicate TimesMove(s: State, t: State, now: int) {
    && t.cfg == s.cfg
    && t.goAt == (if t.st == Countdown && s.st != Countdown then now + s.cfg.countdown else s.goAt)
    && t.finishAt == (if t.st == Finished && s.st != Finished then now + s.cfg.results else s.finishAt)
  }

  lemma FinishTimes(s: State, now: int)
    requires s.world.Some?
    ensures var t := FinishRace(s, now);
            && t.cfg == s.cfg && t.goAt == s.goAt && t.lastSnap == s.lastSnap
            && (t.st == Waiting || t.st == Finished)
            && t.finishAt == (if t.st == Finished then now + s.cfg.results else s.finishAt)
  {
    hide EntriesOf, PodiumOf, StoreSpec.Record;
  }

  lemma AdmitTimes(r: State, sess: Session, now: int)
    ensures var a := Admit(r, sess, now);
            TimesMove(r, a, now) && a.lastSnap == r.lastSnap
  {
    hide LineUp, PickTheme, InfosOf;
  }

  lemma JoinTimes(s: State, c: nat, cleaned: Option<string>, now: int, snapNow: int)
    ensures var t := Join(s, c, cleaned, now, snapNow).0;
            && TimesMove(s, t, now)
            && t.lastSnap ==
               if Speaks(s, EvJoin(c, cleaned, now, snapNow), t) && Announced(t) then snapNow else s.lastSnap
  {
    hide Register, Admit, Broadcast, WelcomeFor;
    if Refusal(s, cleaned).None? {
      RegisterEffect(s, c, cleaned.value);
      var (r, sess) := Register(s, c, cleaned.value);
      AdmitTimes(r, sess, now);
    }
  }

  lemma DepartTimes(s: State, sid: nat, now: int)
    ensures var t := Depart(s, sid, now);
            TimesMove(s, t, now) && t.lastSnap == s.lastSnap
  {
    hide FinishRace, WorldSpec.KillLeft, WorldSpec.RemoveBird, WorldSpec.Living;
    if s.st == Racing && s.world.Some? {
      FinishTimes(s.(world := Some(WorldSpec.KillLeft(s.world.value, sid))), now);
    }
  }

  lemma LeaveTimes(s: State, c: nat, who: Option<nat>, now: int, snapNow: int)
    requires who.Some? ==> who.value in s.players
    ensures var t := Leave(s, c, who, now, snapNow).0;
            && TimesMove(s, t, now)
            && t.lastSnap ==
               if Speaks(s, EvLeave(c, who, now, snapNow), t) && Announced(t) then snapNow else s.lastSnap
  {
    hide Depart, Broadcast, WorldSpec.Without;
    if who.Some? {
      DepartTimes(Strike(s, s.players[who.value]), who.value, now);
    }
  }

  lemma TickStateTimes(s: State, now: int)
    ensures var t := TickState(s, now);
            TimesMove(s, t, now) && t.lastSnap == s.lastSnap
  {
    hide FinishRace, WorldSpec.Step, RaceIsOver, LineUp, PickTheme, InfosOf;
    if s.st == Racing && s.world.Some? {
      FinishTimes(Flown(s), now);
    }
  }

  lemma TickTimes(s: State, now: int, snapNow: int)
    ensures var t := Tick(s, now, snapNow).0;
            && TimesMove(s, t, now)
            && t.lastSnap == if Speaks(s, EvTick(now, snapNow), t) && Announced(t) then snapNow else s.lastSnap
  {
    hide Broadcast, TickState;
    TickStateTimes(s, now);
  }

  lemma FlapTimes(s: State, sid: nat, now: int)
    requires sid in s.players
    ensures TimesMove(s, Flap(s, sid, now), now) && Flap(s, sid, now).lastSnap == s.lastSnap
  {
  }

  lemma FlapSilent(s: State, e: Event)
    requires e.EvFlap?
    ensures forall t :: !Speaks(s, e, t)
  {
  }

  lemma NextTimes(y: System, e: Event)
    requires Allowed(y, e)
    ensures var s, t := y.hub, Next(y, e).hub;
            && TimesMove(s, t, e.now)
            && t.lastSnap == if Speaks(s, e, t) && Announced(t) then Ended(e) else s.lastSnap
  {
    hide Join, Flap, Leave, Tick, TimesMove, Speaks, Announced;
    match e
    case EvJoin(c, cleaned, now, snapNow) => JoinTimes(y.hub, c, cleaned, now, snapNow);
    case EvFlap(sid, now) => FlapTimes(y.hub, sid, now); FlapSilent(y.hub, e);
    case EvLeave(c, who, now, snapNow) => LeaveTimes(y.hub, c, who, now, snapNow);
    case EvTick(now, snapNow) => TickTimes(y.hub, now, snapNow);
  }

  // ----- take-off and the results window -----

  /** The reading of the event that last brought the hub into this phase. */
  ghost function EnteredAt(y: System, events: seq<Event>, phase: Phase): int {
    if events == [] then 0
    else
      var front, e := events[..|events| - 1], events[|events| - 1];
      if Run(y, events).hub.st == phase && Run(y, front).hub.st != phase then e.now else EnteredAt(y, front, phase)
  }

  /** An idle hub can only become one that counts down. */
  lemma FirstPhase(y: System, e: Event)
    requires SystemInv(y) && Allowed(y, e) && y.hub.st == Waiting
    ensures var t := Next(y, e).hub; t.st == Waiting || t.st == Countdown
  {
    hide Inv, TraceOk, ShapeOk, Handle;
    OpenAll(y.hub.players, y.conns);
    Transitions(y.hub, e);
  }

  /** In every run a race takes off as long after the countdown began, and its results are shown for as
      long, as the hub was set up for. */
  lemma {:induction false} RunTimes(y: System, events: seq<Event>)
    requires Initial(y)
    ensures var s := Run(y, events).hub;
            && s.cfg == y.hub.cfg
            && (s.st != Waiting ==> s.goAt == EnteredAt(y, events, Countdown) + s.cfg.countdown)
            && (s.st == Finished ==> s.finishAt == EnteredAt(y, events, Finished) + s.cfg.results)
  {
    hide SystemInv, Next, Allowed, Documented;
    if events != [] {
      var before, e := Run(y, events[..|events| - 1]), events[|events| - 1];
      RunTimes(y, events[..|events| - 1]);
      InitialInv(y);
      RunInv(y, events[..|events| - 1]);
      if Allowed(before, e) {
        NextTimes(before, e);
        if before.hub.st == Waiting {
          FirstPhase(before, e);
        }
      } else {
        NotAllowed(before, e);
      }
    }
  }

  // ----- nobody waits longer than the interval -----

  /** What a connection was sent so far. */
  ghost function Sent(y: System, conn: nat): seq<Snapshot> {
    SnapsOf(FramesFor(y.acts, conn))
  }

  /** The latest snapshot of a player's connection is the hub's latest. */
  ghost predicate UpToDate(y: System, conn: nat) {
    PlaysOn(y.hub, conn) ==> Sent(y, conn) != [] && Sent(y, conn)[|Sent(y, conn)| - 1].now == y.hub.lastSnap
  }

  /** Only an accepted join brings a connection into play. */
  lemma NewcomersHear(y: System, e: Event, conn: nat)
    requires SystemInv(y) && Allowed(y, e) && PlaysOn(Next(y, e).hub, conn)
    ensures PlaysOn(y.hub, conn) || Speaks(y.hub, e, Next(y, e).hub)
  {
    hide Inv, TraceOk, ShapeOk, Join, Flap, Leave, Tick;
    RegistryPart(y.hub);
    match e
    case EvJoin(c, cleaned, now, snapNow) =>
      if Refusal(y.hub, cleaned).Some? {
        JoinRefused(y.hub, c, cleaned, now, snapNow);
      }
    case EvFlap(sid, now) => FlapKeepsConns(y.hub, sid, now);
    case EvLeave(c, Some(sid), now, snapNow) => LeaveEffect(y.hub, c, sid, now, snapNow);
    case EvLeave(c, None, now, snapNow) => GoneEffect(y.hub, c, now, snapNow);
    case EvTick(now, snapNow) => TickEffect(y.hub, now, snapNow);
  }

  lemma PlayersAreAnnounced(s: State, conn: nat)
    requires Inv(s) && PlaysOn(s, conn)
    ensures Announced(s)
  {
    hide Inv;
    WaitingMeansEmpty(s);
  }

  lemma NextUpToDate(y: System, e: Event, conn: nat)
    requires SystemInv(y) && Allowed(y, e) && UpToDate(y, conn)
    ensures UpToDate(Next(y, e), conn)
  {
    hide Inv, TraceOk, ShapeOk, ConnsOk, Next, Allowed, Speaks, PlaysOn, TimesMove, Announced, ShowsWorld, Ranks,
         Racers, News, Handle, FramesFor, SnapsOf;
    var z := Next(y, e);
    if PlaysOn(z.hub, conn) {
      NextInv(y, e);
      NextTells(y, e, conn);
      NewsAreActs(y, e, conn);
      NextTimes(y, e);
      PlayersAreAnnounced(z.hub, conn);
      NewcomersHear(y, e, conn);
    }
  }

  lemma NobodyPlays(y: System, conn: nat)
    requires Initial(y)
    ensures UpToDate(y, conn)
  {
  }

  lemma {:induction false} RunUpToDate(y: System, events: seq<Event>, conn: nat)
    requires Initial(y)
    ensures UpToDate(Run(y, events), conn)
  {
    hide SystemInv, Next, UpToDate, Allowed, Initial;
    if events == [] {
      NobodyPlays(y, conn);
    } else {
      var before, e := Run(y, events[..|events| - 1]), events[|events| - 1];
      RunUpToDate(y, events[..|events| - 1], conn);
      InitialInv(y);
      RunInv(y, events[..|events| - 1]);
      if Allowed(before, e) {
        NextUpToDate(before, e, conn);
      } else {
        NotAllowed(before, e);
      }
    }
  }

  lemma TickPlayers(y: System, now: int, snapNow: int)
    ensures Next(y, EvTick(now, snapNow)).hub.players == y.hub.players
  {
    hide Tick;
    TickEffect(y.hub, now, snapNow);
  }

  lemma TickIsFresh(y: System, now: int, snapNow: int)
    requires SystemInv(y)
    ensures var t := Next(y, EvTick(now, snapNow)).hub;
            t.players != map[] ==> t.lastSnap == snapNow || now - t.lastSnap < t.cfg.snapshotEvery
  {
    hide Inv, TraceOk, ShapeOk, ConnsOk, Next;
    var t := Next(y, EvTick(now, snapNow)).hub;
    NextInv(y, EvTick(now, snapNow));
    NextTimes(y, EvTick(now, snapNow));
    WaitingMeansEmpty(t);
    WaitingMeansEmpty(y.hub);
    TickPlayers(y, now, snapNow);
  }

  /** In every run, after every tick, the latest snapshot a player was sent was taken on that tick or is
      not yet as old as the interval. */
  lemma NobodyWaits(y: System, events: seq<Event>, now: int, snapNow: int, id: nat)
    requires Initial(y)
    requires id in Run(y, events + [EvTick(now, snapNow)]).hub.players
    ensures var z := Run(y, events + [EvTick(now, snapNow)]);
            var sent := Sent(z, z.hub.players[id].conn);
            sent != [] && (sent[|sent| - 1].now == snapNow || now - sent[|sent| - 1].now < y.hub.cfg.snapshotEvery)
  {
    hide SystemInv, Run, Next, Initial, Sent;
    var e := EvTick(now, snapNow);
    var z := Run(y, events + [e]);
    InitialInv(y);
    RunInv(y, events);
    RunLast(y, events, e);
    RunUpToDate(y, events + [e], z.hub.players[id].conn);
    TickIsFresh(Run(y, events), now, snapNow);
    RunTimes(y, events + [e]);
  }

  // ----- every change of phase -----

  /** The phase an event leads to: a countdown ends at its time, a race when nobody flies any more or at
      the cap, and the results at theirs; the last player to go takes everything along. */
  ghost function PhaseAfter(s: State, e: Event): Phase
    requires s.st != Waiting ==> s.world.Some?
  {
    match e
    case EvJoin(_, cleaned, _, _) =>
      if s.st == Waiting && s.cfg.maxPlayers > 0 && cleaned.Some? then Countdown else s.st
    case EvFlap(_, _) => s.st
    case EvLeave(_, None, _, _) => s.st
    case EvLeave(_, Some(sid), _, _) =>
      if s.players.Keys == {sid} then Waiting
      else if s.st == Racing && WorldSpec.Living(s.world.value) == {sid} then Finished
      else s.st
    case EvTick(now, _) =>
      match s.st
      case Waiting => Waiting
      case Countdown => if now < s.goAt then Countdown else Racing
      case Racing =>
        var w := WorldSpec.Step(s.world.value, s.pending);
        if WorldSpec.Living(w) != {} && w.track.tick < MAX_RACE_TICKS then Racing else Finished
      case Finished => if now < s.finishAt then Finished else Countdown
  }

  lemma JoinPhaseAfter(s: State, c: nat, cleaned: Option<string>, now: int, snapNow: int)
    requires Inv(s)
    ensures s.st != Waiting ==> s.world.Some?
    ensures Join(s, c, cleaned, now, snapNow).0.st == PhaseAfter(s, EvJoin(c, cleaned, now, snapNow))
  {
    hide Inv, Register, Broadcast, WelcomeFor, LineUp, PickTheme, InfosOf;
    InvNeeds(s);
    WaitingMeansEmpty(s);
    if Refusal(s, cleaned).None? {
      RegisterEffect(s, c, cleaned.value);
    }
  }

  lemma LastOneOut(s: State, sid: nat)
    requires Inv(s) && sid in s.players
    ensures s.players - {sid} == map[] <==> s.players.Keys == {sid}
    ensures s.st == Racing ==> s.world.Some? && WorldSpec.Living(s.world.value) <= s.players.Keys
    ensures s.st == Racing ==> WorldSpec.Living(s.world.value) != {}
  {
    hide Registry, HistoryOk, InTheAir, OnTheLine;
    if s.players - {sid} == map[] {
      forall id | id in s.players.Keys
        ensures id == sid
      {
        assert id != sid ==> id in s.players - {sid};
      }
    }
  }

  lemma LivingFly(w: WorldSpec.State)
    ensures WorldSpec.Living(w) <= w.birds.Keys
  {
  }

  lemma EndsShown(s: State, now: int)
    requires s.world.Some?
    ensures FinishRace(s, now).st == if s.players == map[] then Waiting else Finished
  {
    hide EntriesOf, PodiumOf, StoreSpec.Record;
  }

  lemma DepartureEnds(s: State, sid: nat, now: int)
    requires Inv(s) && s.st == Racing && sid in s.players
    ensures s.world.Some?
    ensures Depart(Strike(s, s.players[sid]), sid, now).st ==
            PhaseAfter(s, EvLeave(s.players[sid].conn, Some(sid), now, now))
  {
    hide Inv, RegistryOk, FinishRace, WorldSpec.KillLeft, WorldSpec.Without;
    InvNeeds(s);
    LastOneOut(s, sid);
    SessionId(s, sid);
    KillKeeps(s.world.value, sid);
    if sid in s.world.value.birds {
      EndsShown(Strike(s, s.players[sid]).(world := Some(WorldSpec.KillLeft(s.world.value, sid))), now);
    }
    LivingFly(s.world.value);
  }

  lemma RacersAreKeys(s: State)
    requires Inv(s) && s.st == Countdown
    ensures s.world.Some? && s.world.value.birds.Keys == s.players.Keys
  {
    hide Registry, HistoryOk, Race.Grid;
  }

  lemma CountdownLeft(s: State, sid: nat, now: int)
    requires Inv(s) && s.st == Countdown && sid in s.players
    ensures Depart(Strike(s, s.players[sid]), sid, now).st == if s.players.Keys == {sid} then Waiting else Countdown
  {
    hide Registry, HistoryOk, Race.Grid, Inv, WorldSpec.Without;
    InvNeeds(s);
    LastOneOut(s, sid);
    SessionId(s, sid);
    RacersAreKeys(s);
    var w := WorldSpec.RemoveBird(s.world.value, sid);
    assert w.birds.Keys == s.players.Keys - {sid};
    assert w.birds == map[] <==> w.birds.Keys == {};
    assert (s.players - {sid}).Keys == s.players.Keys - {sid};
  }

  lemma DepartPhaseAfter(s: State, sid: nat, now: int)
    requires Inv(s) && sid in s.players
    ensures s.st != Waiting ==> s.world.Some?
    ensures Depart(Strike(s, s.players[sid]), sid, now).st ==
            PhaseAfter(s, EvLeave(s.players[sid].conn, Some(sid), now, now))
  {
    hide Inv, FinishRace, WorldSpec.Living, WorldSpec.KillLeft, WorldSpec.RemoveBird, WorldSpec.Without;
    InvNeeds(s);
    WaitingMeansEmpty(s);
    LastOneOut(s, sid);
    SessionId(s, sid);
    match s.st
    case Waiting =>
    case Countdown => CountdownLeft(s, sid, now);
    case Racing => DepartureEnds(s, sid, now);
    case Finished =>
  }

  lemma LeavePhaseAfter(s: State, c: nat, who: Option<nat>, now: int, snapNow: int)
    requires Inv(s) && (who.Some? ==> who.value in s.players)
    ensures s.st != Waiting ==> s.world.Some?
    ensures Leave(s, c, who, now, snapNow).0.st == PhaseAfter(s, EvLeave(c, who, now, snapNow))
  {
    hide Inv, Broadcast, Strike, Depart, DepartAnnounces;
    InvNeeds(s);
    if who.Some? {
      DepartPhaseAfter(s, who.value, now);
    }
  }

  lemma TickPhaseAfter(s: State, now: int, snapNow: int)
    requires Inv(s)
    ensures s.st != Waiting ==> s.world.Some?
    ensures Tick(s, now, snapNow).0.st == PhaseAfter(s, EvTick(now, snapNow))
  {
    hide Inv, Broadcast, FinishRace, WorldSpec.Living, WorldSpec.Step, LineUp, PickTheme, InfosOf;
    InvNeeds(s);
    WaitingMeansEmpty(s);
    if s.st == Racing {
      EndsShown(Flown(s), now);
    }
  }

  lemma FlapPhaseAfter(s: State, sid: nat, now: int)
    requires Inv(s) && sid in s.players
    ensures s.st != Waiting ==> s.world.Some?
    ensures Flap(s, sid, now).st == PhaseAfter(s, EvFlap(sid, now))
  {
    hide Inv;
    InvNeeds(s);
    FlapPhase(s, sid, now);
  }

  /** In every run each event leads to exactly this phase. */
  lemma NextPhase(y: System, events: seq<Event>, e: Event)
    requires Initial(y) && Allowed(Run(y, events), e)
    ensures var s := Run(y, events).hub;
            && (s.st != Waiting ==> s.world.Some?)
            && Run(y, events + [e]).hub.st == PhaseAfter(s, e)
  {
    hide Inv, Run, Join, Flap, Leave, Tick, PhaseAfter;
    RunHubInv(y, events);
    RunLast(y, events, e);
    var s := Run(y, events).hub;
    match e
    case EvJoin(c, cleaned, now, snapNow) => JoinPhaseAfter(s, c, cleaned, now, snapNow);
    case EvFlap(sid, now) => FlapPhaseAfter(s, sid, now);
    case EvLeave(c, who, now, snapNow) => LeavePhaseAfter(s, c, who, now, snapNow);
    case EvTick(now, snapNow) => TickPhaseAfter(s, now, snapNow);
  }
}
