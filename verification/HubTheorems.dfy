/** What follows for whole runs of the hub: phases, races, wins, seeds and ids. */
module HubTheorems {
  import opened Options
  import opened Protocol
  import opened StoreSpec
  import Rng
  import Flight
  import WorldSpec
  import Race
  import Rank
  import opened HubSpec
  import opened HubInvariant
  import opened HubRuns

  lemma RunHubInv(y: System, events: seq<Event>)
    requires Initial(y)
    ensures SystemInv(Run(y, events)) && Inv(Run(y, events).hub)
  {
    hide Inv, Run;
    InitialInv(y);
    RunInv(y, events);
  }

  /** In every run: no players, no race and no world are the same thing; a countdown lists exactly
      the players; a flying race has a living bird, and whoever lives is connected. */
  lemma PhasesAgree(y: System, events: seq<Event>)
    requires Initial(y)
    ensures var s := Run(y, events).hub;
            && (s.st == Waiting <==> s.players == map[])
            && (s.st == Waiting <==> s.world.None?)
            && (s.st == Countdown ==>
                  s.world.value.track.tick == 0 && s.world.value.birds.Keys == s.players.Keys)
            && (s.st == Racing ==>
                  && WorldSpec.Living(s.world.value) != {} && WorldSpec.Living(s.world.value) <= s.players.Keys
                  && s.world.value.track.tick < MAX_RACE_TICKS)
  {
    hide Run, Registry, InTheAir, HistoryOk;
    RunHubInv(y, events);
    WaitingMeansEmpty(Run(y, events).hub);
  }

  /** In every run the registry agrees with itself. */
  lemma RegistryAgrees(y: System, events: seq<Event>)
    requires Initial(y)
    ensures var s := Run(y, events).hub;
            && Registry(s.players, s.order, s.names, s.nextID)
            && (s.world.Some? ==> s.raceInfo.Keys == s.world.value.birds.Keys)
  {
    hide Run, Registry, InTheAir, HistoryOk;
    RunHubInv(y, events);
  }

  // ----- documented transitions -----

  predicate Documented(a: Phase, b: Phase) {
    || a == b || b == Waiting
    || (a == Waiting && b == Countdown) || (a == Countdown && b == Racing)
    || (a == Racing && b == Finished) || (a == Finished && b == Countdown)
  }

  lemma RegisterEffect(s: State, c: nat, base: string)
    ensures var r := Register(s, c, base).0;
            && TotalWins(r.stats) == TotalWins(s.stats)
            && r == s.(players := r.players, names := r.names, order := r.order, nextID := r.nextID,
                       drawn := r.drawn, stats := r.stats)
  {
    hide TotalWins, RollBird, Remember, Names.UniqueName;
    forall name: string, bird: Plumage
      ensures TotalWins(Remember(s.stats, name, bird)) == TotalWins(s.stats)
    {
      RememberKeepsWins(s.stats, name, bird);
    }
  }

  lemma AdmitEffect(r: State, sess: Session, now: int)
    ensures var a := Admit(r, sess, now);
            && (a.st == r.st || (r.st == Waiting && a.st == Countdown))
            && a.pending == r.pending && a.finished == r.finished && a.lastTheme == r.lastTheme
            && a.words == r.words && r.begun <= a.begun && a.stats == r.stats
            && a.players == r.players && a.nextID == r.nextID
            && (r.st == Racing ==> a == r)
  {
    hide LineUp, PickTheme;
  }

  lemma JoinPhase(s: State, c: nat, cleaned: Option<string>, now: int, snapNow: int)
    ensures var t := Join(s, c, cleaned, now, snapNow).0;
            && (t.st == s.st || (s.st == Waiting && t.st == Countdown))
            && t.pending == s.pending && t.finished == s.finished && t.lastTheme == s.lastTheme
            && t.words == s.words && s.begun <= t.begun
            && TotalWins(t.stats) == TotalWins(s.stats)
            && (s.st == Racing ==> t.world == s.world)
  {
    hide Register, Admit, Broadcast, WelcomeFor, TotalWins;
    if Refusal(s, cleaned).None? {
      RegisterEffect(s, c, cleaned.value);
      var (r, sess) := Register(s, c, cleaned.value);
      AdmitEffect(r, sess, now);
    }
  }

  lemma FlapPhase(s: State, sid: nat, now: int)
    requires sid in s.players
    ensures var t := Flap(s, sid, now);
            t == s.(players := t.players, pending := t.pending) && (s.st != Racing ==> t.pending == s.pending)
  {
  }

  lemma FinishPhase(s: State, now: int)
    requires s.world.Some?
    ensures var t := FinishRace(s, now);
            && (t.st == Finished || t.st == Waiting)
            && t.finished == s.finished + 1 && t.lastTheme == s.theme && t.pending == s.pending
            && t.words == s.words && t.begun == s.begun && t.players == s.players && t.nextID == s.nextID
            && t.stats == Record(s.stats, EntriesOf(PodiumOf(s.world.value), s.raceInfo), s.theme, now)
  {
    hide EntriesOf, PodiumOf, Record;
  }

  lemma LeavePhase(s: State, c: nat, who: Option<nat>, now: int, snapNow: int)
    requires who.Some? ==> who.value in s.players
    requires s.st == Waiting ==> s.players == map[]
    ensures Documented(s.st, Leave(s, c, who, now, snapNow).0.st)
  {
    hide FinishRace, Broadcast, WorldSpec.KillLeft, WorldSpec.RemoveBird, WorldSpec.Living;
    if who.Some? && s.st == Racing && s.world.Some? {
      var w := WorldSpec.KillLeft(s.world.value, who.value);
      FinishPhase(Strike(s, s.players[who.value]).(world := Some(w)), now);
    }
  }

  lemma FinishWithPlayers(s: State, now: int)
    requires s.world.Some? && s.players != map[]
    ensures FinishRace(s, now).st == Finished
  {
    hide EntriesOf, PodiumOf, Record;
  }

  lemma TickStatePhase(s: State, now: int)
    requires s.st == Waiting <==> s.players == map[]
    ensures var t := TickState(s, now);
            Documented(s.st, t.st) && (t.st == Waiting ==> s.st == Waiting)
  {
    hide FinishRace, WorldSpec.Step, WorldSpec.Living, LineUp, PickTheme;
    if s.st == Racing && s.world.Some? {
      var w := WorldSpec.Step(s.world.value, s.pending);
      var stepped := s.(world := Some(w), pending := {});
      FinishPhase(stepped, now);
      FinishWithPlayers(stepped, now);
    }
  }

  lemma TickPhase(s: State, now: int, snapNow: int)
    requires s.st == Waiting <==> s.players == map[]
    ensures var t := Tick(s, now, snapNow).0;
            Documented(s.st, t.st) && (t.st == Waiting ==> s.st == Waiting)
  {
    hide TickState, Broadcast;
    TickStatePhase(s, now);
  }

  lemma PhaseStep(s: State, e: Event)
    requires e.EvFlap? ==> e.sid in s.players
    requires e.EvLeave? && e.who.Some? ==> e.who.value in s.players
    requires s.st == Waiting <==> s.players == map[]
    ensures Documented(s.st, Handle(s, e).0.st)
    ensures !e.EvLeave? && Handle(s, e).0.st == Waiting ==> s.st == Waiting
  {
    match e
    case EvJoin(c, cleaned, now, snapNow) => JoinPhase(s, c, cleaned, now, snapNow);
    case EvFlap(sid, now) => FlapPhase(s, sid, now);
    case EvLeave(c, who, now, snapNow) => LeavePhase(s, c, who, now, snapNow);
    case EvTick(now, snapNow) => TickPhase(s, now, snapNow);
  }

  /** Only documented transitions occur, and only the last player's departure leads to waiting. */
  lemma Transitions(s: State, e: Event)
    requires Inv(s)
    requires e.EvFlap? ==> e.sid in s.players
    requires e.EvLeave? && e.who.Some? ==> e.who.value in s.players
    requires e.EvJoin? ==> forall id :: id in s.players ==> s.players[id].conn != e.conn
    ensures var t := Handle(s, e).0;
            && Documented(s.st, t.st)
            && (t.st == Waiting && s.st != Waiting ==> e.EvLeave? && t.players == map[])
  {
    hide Inv, Handle;
    HandleInv(s, e);
    WaitingMeansEmpty(s);
    WaitingMeansEmpty(Handle(s, e).0);
    PhaseStep(s, e);
  }

  // ----- conservation of statistics -----

  /** The entries of a race: ranked by position, with pairwise different names, one per bird. */
  ghost predicate RaceEntries(entries: seq<RaceEntry>, w: WorldSpec.State) {
    && entries != [] && DistinctNames(entries)
    && (forall i :: 0 <= i < |entries| ==> entries[i].rank == i + 1)
    && (forall id :: id in w.birds ==>
          exists e :: e in entries && e.name == w.birds[id].name && e.score == w.birds[id].score)
    && (forall e :: e in entries ==> exists id :: id in w.birds && w.birds[id].name == e.name)
  }

  lemma EntriesOfPodium(podium: seq<ResultSnap>, w: WorldSpec.State, raceInfo: map<nat, RaceInfo>)
    requires Rank.Podium(podium, w) && NamesDiffer(w) && podium != []
    ensures RaceEntries(EntriesOf(podium, raceInfo), w)
  {
    var entries := EntriesOf(podium, raceInfo);
    forall i | 0 <= i < |entries|
      ensures entries[i].rank == i + 1
      ensures podium[i].id in w.birds && entries[i].name == w.birds[podium[i].id].name
      ensures entries[i].score == w.birds[podium[i].id].score
    {
      assert Rank.Shows(podium[i], w);
    }
    forall i, j | 0 <= i < j < |entries|
      ensures entries[i].name != entries[j].name
    {
      assert podium[i].id != podium[j].id;
    }
    forall id | id in w.birds
      ensures exists e :: e in entries && e.name == w.birds[id].name && e.score == w.birds[id].score
    {
      var i :| 0 <= i < |podium| && podium[i].id == id;
      assert entries[i] in entries;
    }
  }

  lemma RankableWorld(s: State)
    requires Rankable(s)
    ensures var w := s.world.value;
            WorldSpec.Registered(w.order, w.birds) && NamesDiffer(w) && w.order != []
  {
    var w := s.world.value;
    var some :| some in w.birds;
    assert some in w.order;
  }

  lemma EntriesOfRace(s: State)
    requires Rankable(s)
    ensures RaceEntries(EntriesOf(PodiumOf(s.world.value), s.raceInfo), s.world.value)
  {
    hide EntriesOf, RaceEntries;
    RankableWorld(s);
    var w := s.world.value;
    Rank.PodiumIsComplete(w);
    EntriesOfPodium(PodiumOf(w), w, s.raceInfo);
  }

  /** A finished race adds exactly one win in all. */
  lemma FinishAddsOneWin(s: State, now: int)
    requires Rankable(s)
    ensures TotalWins(FinishRace(s, now).stats) == TotalWins(s.stats) + 1
  {
    hide InTheAir, EntriesOf, PodiumOf, Record, TotalWins;
    var entries := EntriesOf(PodiumOf(s.world.value), s.raceInfo);
    EntriesOfRace(s);
    FinishPhase(s, now);
    RecordAddsWins(s.stats, entries, s.theme, now);
    OneWinner(entries);
  }

  /** What the entry of a name says of the race. */
  lemma EntryOfName(entries: seq<RaceEntry>, w: WorldSpec.State, e: RaceEntry)
    requires RaceEntries(entries, w) && e in entries
    ensures exists id :: id in w.birds && w.birds[id].name == e.name
    ensures forall id :: id in w.birds && w.birds[id].name == e.name ==> w.birds[id].score == e.score
    ensures e.rank == 1 <==> entries[0].name == e.name
  {
    forall f | f in entries && f.name == e.name
      ensures f == e
    {
      var i :| 0 <= i < |entries| && entries[i] == e;
      var j :| 0 <= j < |entries| && entries[j] == f;
    }
    assert entries[0] in entries;
  }

  lemma EntriesAreNamed(entries: seq<RaceEntry>, w: WorldSpec.State)
    requires RaceEntries(entries, w)
    ensures DistinctNames(entries) && entries != [] && entries[0] in entries
    ensures forall id :: id in w.birds ==> exists e :: e in entries && e.name == w.birds[id].name
  {
  }

  /** A better score is kept with the theme and time it was reached at; any other changes none of the three. */
  predicate Best(was: PlayerStat, became: PlayerStat, score: int, theme: nat, at: int) {
    if score > was.best
    then became.best == score && became.bestTheme == ThemeName(theme) && became.bestAt == at
    else became.best == was.best && became.bestTheme == was.bestTheme && became.bestAt == was.bestAt
  }

  lemma RecordCounts(stats: Players, entries: seq<RaceEntry>, w: WorldSpec.State, theme: nat, now: int, name: string)
    requires RaceEntries(entries, w)
    ensures var was, became := StatOf(stats, name), StatOf(Record(stats, entries, theme, now), name);
            && (forall id :: id in w.birds && w.birds[id].name == name ==>
                  became.races == was.races + 1 && Best(was, became, w.birds[id].score, theme, now))
            && became.wins == was.wins + (if entries[0].name == name then 1 else 0)
            && ((forall id :: id in w.birds ==> w.birds[id].name != name) ==> became == was)
  {
    hide Record, StatOf, RaceEntries;
    EntriesAreNamed(entries, w);
    RecordIsPerRacer(stats, entries, theme, now, name);
    if e :| e in entries && e.name == name {
      EntryOfName(entries, w, e);
    }
  }

  lemma FirstEntry(podium: seq<ResultSnap>, raceInfo: map<nat, RaceInfo>, w: WorldSpec.State)
    requires RaceEntries(EntriesOf(podium, raceInfo), w)
    ensures podium != [] && EntriesOf(podium, raceInfo)[0].name == podium[0].name
  {
  }

  /** A finished race counts once for each of its racers, keeps the better score with its theme and time, gives the win
      to the first of the podium, and leaves everybody else's statistics alone. */
  lemma FinishCountsRacers(s: State, now: int, name: string)
    requires Rankable(s)
    ensures var was, became := StatOf(s.stats, name), StatOf(FinishRace(s, now).stats, name);
            && became.best >= was.best
            && (forall id :: id in s.world.value.birds && s.world.value.birds[id].name == name ==>
                  became.races == was.races + 1 && Best(was, became, s.world.value.birds[id].score, s.theme, now))
            && PodiumOf(s.world.value) != []
            && became.wins == was.wins + (if PodiumOf(s.world.value)[0].name == name then 1 else 0)
            && ((forall id :: id in s.world.value.birds ==> s.world.value.birds[id].name != name) ==> became == was)
  {
    hide InTheAir, RaceEntries, EntriesOf, PodiumOf, Record;
    EntriesOfRace(s);
    FirstEntry(PodiumOf(s.world.value), s.raceInfo, s.world.value);
    FinishPhase(s, now);
    RecordCounts(s.stats, EntriesOf(PodiumOf(s.world.value), s.raceInfo), s.world.value, s.theme, now, name);
  }

  /** Outside a flying race, and for a spectator, a departure touches no statistics. */
  lemma QuietDeparture(s: State, sid: nat, now: int)
    requires s.st == Racing ==> s.world.Some? && sid !in s.world.value.birds
    ensures Depart(s, sid, now).stats == s.stats && Depart(s, sid, now).finished == s.finished
  {
    hide WorldSpec.RemoveBird;
  }

  lemma KillWins(s: State, sid: nat, now: int)
    requires Inv(s) && s.st == Racing && sid in s.players && sid in s.world.value.birds
    ensures var t := Depart(Strike(s, s.players[sid]), sid, now);
            TotalWins(t.stats) - t.finished == TotalWins(s.stats) - s.finished
  {
    hide HistoryOk, RegistryOk, InTheAir, FinishRace, TotalWins, WorldSpec.KillLeft, WorldSpec.Living;
    SessionId(s, sid);
    DepartRacing(s, sid);
    var killed := Strike(s, s.players[sid]).(world := Some(WorldSpec.KillLeft(s.world.value, sid)));
    FinishAddsOneWin(killed, now);
    FinishPhase(killed, now);
  }

  lemma LeaveWins(s: State, c: nat, who: Option<nat>, now: int, snapNow: int)
    requires Inv(s) && (who.Some? ==> who.value in s.players)
    ensures var t := Leave(s, c, who, now, snapNow).0;
            TotalWins(t.stats) - t.finished == TotalWins(s.stats) - s.finished
  {
    hide Inv, Depart, Broadcast, TotalWins;
    if who.Some? {
      InvNeeds(s);
      if s.st == Racing && who.value in s.world.value.birds {
        KillWins(s, who.value, now);
      } else {
        QuietDeparture(Strike(s, s.players[who.value]), who.value, now);
      }
    }
  }

  lemma TickStateWins(s: State, now: int)
    requires Inv(s)
    ensures var t := TickState(s, now);
            TotalWins(t.stats) - t.finished == TotalWins(s.stats) - s.finished
  {
    hide FinishRace, TotalWins, RegistryOk, OnTheLine, InTheAir, HistoryOk, WorldSpec.Step, RaceIsOver, LineUp, PickTheme, InfosOf;
    if s.st == Racing {
      TickRacing(s);
      FinishAddsOneWin(Flown(s), now);
      FinishPhase(Flown(s), now);
    }
  }

  lemma TickWins(s: State, now: int, snapNow: int)
    requires Inv(s)
    ensures var t := Tick(s, now, snapNow).0;
            TotalWins(t.stats) - t.finished == TotalWins(s.stats) - s.finished
  {
    hide Broadcast, TotalWins, Inv, TickState;
    TickStateWins(s, now);
  }

  /** A tick or departure either leaves the wins and the count of finished races alone, or
      finishes one race: the two always move together. */
  lemma WinsFollowFinishes(s: State, e: Event)
    requires Inv(s)
    requires e.EvFlap? ==> e.sid in s.players
    requires e.EvLeave? && e.who.Some? ==> e.who.value in s.players
    ensures var t := Handle(s, e).0;
            TotalWins(t.stats) - t.finished == TotalWins(s.stats) - s.finished
  {
    hide Inv, Join, Flap, Leave, Tick, TotalWins;
    match e
    case EvJoin(c, cleaned, now, snapNow) => JoinPhase(s, c, cleaned, now, snapNow);
    case EvFlap(sid, now) => FlapPhase(s, sid, now);
    case EvLeave(c, who, now, snapNow) => LeaveWins(s, c, who, now, snapNow);
    case EvTick(now, snapNow) => TickWins(s, now, snapNow);
  }

  lemma HistoryPart(s: State)
    requires Inv(s)
    ensures HistoryOk(s)
  {
  }

  /** Over any run, the wins recorded are exactly the races finished, and every race that has
      started to fly is finished or still flying. */
  lemma {:induction false} WinsAreFinishedRaces(y: System, events: seq<Event>)
    requires Initial(y)
    ensures var s := Run(y, events).hub;
            && TotalWins(s.stats) == TotalWins(y.hub.stats) + s.finished
            && s.started == s.finished + if s.st == Racing then 1 else 0
  {
    hide Inv, Handle, TotalWins;
    RunHubInv(y, events);
    HistoryPart(Run(y, events).hub);
    if events != [] {
      var before := Run(y, events[..|events| - 1]);
      RunHubInv(y, events[..|events| - 1]);
      WinsAreFinishedRaces(y, events[..|events| - 1]);
      if Allowed(before, events[|events| - 1]) {
        WinsFollowFinishes(before.hub, events[|events| - 1]);
      }
    }
  }

  // ----- a flying race ends in time -----

  function TickCount(events: seq<Event>): nat {
    if events == [] then 0
    else TickCount(events[..|events| - 1]) + if events[|events| - 1].EvTick? then 1 else 0
  }

  lemma RacingHasWorld(s: State)
    requires Inv(s) && s.st == Racing
    ensures s.world.Some? && Race.Reachable(s.world.value) && s.world.value.track.tick < MAX_RACE_TICKS
  {
  }

  /** What a departure does to the counters, in any phase. */
  lemma DepartCounters(s: State, sid: nat, now: int)
    ensures var t := Depart(s, sid, now);
            && (t.finished == s.finished + 1 ==> s.st == Racing && t.st != Racing && t.lastTheme == s.theme)
            && (t.finished == s.finished || t.finished == s.finished + 1)
            && (t.finished == s.finished ==> t.lastTheme == s.lastTheme)
            && (t.finished == s.finished && s.st == Racing && s.world.Some? ==>
                  t.st == Racing && t.world.Some? && t.world.value.track == s.world.value.track)
            && t.pending == s.pending && t.words == s.words && t.begun == s.begun && t.nextID == s.nextID
  {
    hide FinishRace, WorldSpec.Living, Flight.Abandon;
    if s.st == Racing && s.world.Some? {
      FinishPhase(s.(world := Some(WorldSpec.KillLeft(s.world.value, sid))), now);
    }
  }

  lemma LeaveCounters(s: State, c: nat, who: Option<nat>, now: int, snapNow: int)
    requires who.Some? ==> who.value in s.players
    ensures var t := Leave(s, c, who, now, snapNow).0;
            && (t.finished == s.finished + 1 ==> s.st == Racing && t.st != Racing && t.lastTheme == s.theme)
            && (t.finished == s.finished || t.finished == s.finished + 1)
            && (t.finished == s.finished ==> t.lastTheme == s.lastTheme)
            && (t.finished == s.finished && s.st == Racing && s.world.Some? ==>
                  t.st == Racing && t.world.Some? && t.world.value.track == s.world.value.track)
            && t.pending == s.pending && t.words == s.words && t.begun == s.begun && t.nextID == s.nextID
  {
    hide Depart, Broadcast, WorldSpec.Without;
    if who.Some? {
      DepartCounters(Strike(s, s.players[who.value]), who.value, now);
    }
  }

  lemma LeaveFlying(s: State, c: nat, who: Option<nat>, now: int, snapNow: int)
    requires Inv(s) && s.st == Racing && (who.Some? ==> who.value in s.players)
    ensures var t := Leave(s, c, who, now, snapNow).0;
            || (t.finished == s.finished + 1 && t.st != Racing)
            || (t.finished == s.finished && t.st == Racing && t.world.Some?
                && t.world.value.track.tick == s.world.value.track.tick)
  {
    hide Leave, Inv;
    RacingHasWorld(s);
    LeaveCounters(s, c, who, now, snapNow);
  }

  lemma TickStateFlying(s: State, now: int)
    requires s.st == Racing && s.world.Some? && Race.Reachable(s.world.value)
    ensures var t := TickState(s, now);
            || (t.finished == s.finished + 1 && t.st != Racing)
            || (t.finished == s.finished && t.st == Racing && t.world.Some?
                && t.world.value.track.tick == s.world.value.track.tick + 1)
  {
    hide FinishRace, WorldSpec.Step, WorldSpec.Living, Race.Reachable;
    Race.StepTrack(s.world.value, s.pending);
    FinishPhase(s.(world := Some(WorldSpec.Step(s.world.value, s.pending)), pending := {}), now);
  }

  lemma TickFlying(s: State, now: int, snapNow: int)
    requires Inv(s) && s.st == Racing
    ensures var t := Tick(s, now, snapNow).0;
            || (t.finished == s.finished + 1 && t.st != Racing)
            || (t.finished == s.finished && t.st == Racing && t.world.Some?
                && t.world.value.track.tick == s.world.value.track.tick + 1)
  {
    hide Inv, Broadcast, TickState, Race.Reachable;
    RacingHasWorld(s);
    TickStateFlying(s, now);
  }

  /** While a race flies, an event finishes it, or leaves it flying and ages it by its ticks. */
  lemma FlyingStep(s: State, e: Event)
    requires Inv(s) && s.st == Racing
    requires e.EvFlap? ==> e.sid in s.players
    requires e.EvLeave? && e.who.Some? ==> e.who.value in s.players
    ensures var t := Handle(s, e).0;
            || (t.finished == s.finished + 1 && t.st != Racing)
            || (t.finished == s.finished && t.st == Racing && t.world.Some?
                && t.world.value.track.tick == s.world.value.track.tick + if e.EvTick? then 1 else 0)
  {
    hide Inv, Join, Flap, Leave, Tick;
    match e
    case EvJoin(c, cleaned, now, snapNow) => RacingHasWorld(s); JoinPhase(s, c, cleaned, now, snapNow);
    case EvFlap(sid, now) => RacingHasWorld(s); FlapPhase(s, sid, now);
    case EvLeave(c, who, now, snapNow) => LeaveFlying(s, c, who, now, snapNow);
    case EvTick(now, snapNow) => TickFlying(s, now, snapNow);
  }

  lemma TickStateCounters(s: State, now: int)
    ensures var t := TickState(s, now);
            && (t.finished == s.finished + 1 ==> s.st == Racing && t.st != Racing && t.lastTheme == s.theme)
            && (t.finished == s.finished || t.finished == s.finished + 1)
            && (t.finished == s.finished ==> t.lastTheme == s.lastTheme)
            && t.pending == (if s.st == Racing && s.world.Some? then {} else s.pending)
            && t.words == s.words && s.begun <= t.begun && t.nextID == s.nextID && t.players == s.players
  {
    hide FinishRace, LineUp, PickTheme, WorldSpec.Step, WorldSpec.Living;
    if s.st == Racing && s.world.Some? {
      FinishPhase(s.(world := Some(WorldSpec.Step(s.world.value, s.pending)), pending := {}), now);
    }
  }

  /** What a tick does to the counters and the pending flaps, in any phase. */
  lemma TickCounters(s: State, now: int, snapNow: int)
    ensures var t := Tick(s, now, snapNow).0;
            && (t.finished == s.finished + 1 ==> s.st == Racing && t.st != Racing && t.lastTheme == s.theme)
            && (t.finished == s.finished || t.finished == s.finished + 1)
            && (t.finished == s.finished ==> t.lastTheme == s.lastTheme)
            && t.pending == (if s.st == Racing && s.world.Some? then {} else s.pending)
            && t.words == s.words && s.begun <= t.begun && t.nextID == s.nextID && t.players == s.players
  {
    hide Broadcast, TickState;
    TickStateCounters(s, now);
  }

  lemma NextFlying(y: System, e: Event)
    requires SystemInv(y) && y.hub.st == Racing
    ensures var t := Next(y, e).hub;
            || (t.finished == y.hub.finished + 1 && t.st != Racing)
            || (t.finished == y.hub.finished && t.st == Racing && t.world.Some? && y.hub.world.Some?
                && t.world.value.track.tick <= y.hub.world.value.track.tick + 1
                && (e.EvTick? ==> t.world.value.track.tick == y.hub.world.value.track.tick + 1)
                && (!e.EvTick? ==> t.world.value.track.tick == y.hub.world.value.track.tick))
  {
    hide Inv, Handle;
    RacingHasWorld(y.hub);
    if Allowed(y, e) {
      FlyingStep(y.hub, e);
    }
  }

  /** Only a flying race is finished, one at a time, and only that sets the last theme. */
  lemma HandleFinished(s: State, e: Event)
    requires e.EvFlap? ==> e.sid in s.players
    requires e.EvLeave? && e.who.Some? ==> e.who.value in s.players
    ensures Handle(s, e).0.finished >= s.finished
    ensures Handle(s, e).0.finished == s.finished ==> Handle(s, e).0.lastTheme == s.lastTheme
    ensures Handle(s, e).0.finished > s.finished ==>
              s.st == Racing && Handle(s, e).0.finished == s.finished + 1 && Handle(s, e).0.lastTheme == s.theme
  {
    hide Join, Flap, Leave, Tick;
    match e
    case EvJoin(c, cleaned, now, snapNow) => JoinPhase(s, c, cleaned, now, snapNow);
    case EvFlap(sid, now) => FlapPhase(s, sid, now);
    case EvLeave(c, who, now, snapNow) => LeaveCounters(s, c, who, now, snapNow);
    case EvTick(now, snapNow) => TickCounters(s, now, snapNow);
  }

  lemma NextFinished(y: System, e: Event)
    requires SystemInv(y)
    ensures Next(y, e).hub.finished >= y.hub.finished
  {
    hide Inv, Handle;
    if Allowed(y, e) {
      HandleFinished(y.hub, e);
    }
  }

  lemma {:induction false} FinishedNeverDrops(y: System, events: seq<Event>)
    requires SystemInv(y)
    ensures SystemInv(Run(y, events)) && Run(y, events).hub.finished >= y.hub.finished
  {
    hide Inv, Handle, SystemInv;
    if events != [] {
      var before, e := Run(y, events[..|events| - 1]), events[|events| - 1];
      FinishedNeverDrops(y, events[..|events| - 1]);
      NextInv(before, e);
      NextFinished(before, e);
    }
  }

  lemma RacingSystem(y: System)
    requires SystemInv(y) && y.hub.st == Racing
    ensures y.hub.world.Some? && y.hub.world.value.track.tick < MAX_RACE_TICKS
  {
    RacingHasWorld(y.hub);
  }

  /** From any flying race: as long as nothing is finished it is the same race, aged by the ticks. */
  lemma {:induction false} StillFlying(y: System, events: seq<Event>)
    requires SystemInv(y) && y.hub.st == Racing
    ensures Run(y, events).hub.finished == y.hub.finished ==>
              var t := Run(y, events).hub;
              && t.st == Racing && t.world.Some? && y.hub.world.Some?
              && t.world.value.track.tick == y.hub.world.value.track.tick + TickCount(events)
  {
    hide Inv, SystemInv, Next;
    FinishedNeverDrops(y, events);
    if events == [] {
      RacingSystem(y);
    } else {
      var before, e := Run(y, events[..|events| - 1]), events[|events| - 1];
      FinishedNeverDrops(y, events[..|events| - 1]);
      NextFinished(before, e);
      StillFlying(y, events[..|events| - 1]);
      if Run(y, events).hub.finished == y.hub.finished {
        NextFlying(before, e);
      }
    }
  }

  /** A race that has started to fly is finished within the cap, whatever happens meanwhile. */
  lemma RaceEndsInTime(y: System, events: seq<Event>)
    requires SystemInv(y) && y.hub.st == Racing && y.hub.world.Some?
    requires y.hub.world.value.track.tick + TickCount(events) >= MAX_RACE_TICKS
    ensures Run(y, events).hub.finished > y.hub.finished
  {
    hide Inv, SystemInv, Next, Run;
    FinishedNeverDrops(y, events);
    StillFlying(y, events);
    if Run(y, events).hub.finished == y.hub.finished {
      RacingSystem(Run(y, events));
    }
  }

  // ----- seeds -----

  lemma HandleDraws(s: State, e: Event)
    requires e.EvFlap? ==> e.sid in s.players
    requires e.EvLeave? && e.who.Some? ==> e.who.value in s.players
    ensures Handle(s, e).0.words == s.words && s.begun <= Handle(s, e).0.begun
  {
    hide Join, Flap, Leave, Tick;
    match e
    case EvJoin(c, cleaned, now, snapNow) => JoinPhase(s, c, cleaned, now, snapNow);
    case EvFlap(sid, now) => FlapPhase(s, sid, now);
    case EvLeave(c, who, now, snapNow) => LeaveCounters(s, c, who, now, snapNow);
    case EvTick(now, snapNow) => TickCounters(s, now, snapNow);
  }

  lemma {:induction false} RunDraws(y: System, events: seq<Event>)
    ensures Run(y, events).hub.words == y.hub.words && y.hub.begun <= Run(y, events).hub.begun
  {
    hide Handle;
    if events != [] {
      var before, e := Run(y, events[..|events| - 1]), events[|events| - 1];
      RunDraws(y, events[..|events| - 1]);
      if Allowed(before, e) {
        HandleDraws(before.hub, e);
      }
    }
  }

  /** No two races of one hub share a seed, as long as it has made fewer than 2^64 draws. */
  lemma SeedsNeverRepeat(y: System, events: seq<Event>, seed: Rng.Word, i: nat, j: nat)
    requires Initial(y) && y.hub.words == SeedWords(seed)
    requires Run(y, events).hub.drawn < Rng.WORDS
    requires i < j < |Run(y, events).hub.begun|
    ensures var s := Run(y, events).hub;
            && s.words(s.begun[i]) != s.words(s.begun[j])
            && (s.st != Waiting ==> s.seed == s.words(s.begun[|s.begun| - 1]))
  {
    hide Inv, Run, Rng.Draw;
    RunHubInv(y, events);
    RunDraws(y, events);
    var s := Run(y, events).hub;
    HistoryPart(s);
    Rng.NoRepeat(seed, s.begun[i], s.begun[j]);
  }

  // ----- ids -----

  lemma GoneEffect(s: State, c: nat, now: int, snapNow: int)
    ensures Leave(s, c, None, now, snapNow).0 == s
  {
  }

  lemma JoinIds(s: State, c: nat, cleaned: Option<string>, now: int, snapNow: int)
    requires RegistryOk(s) && forall k :: k in s.players ==> s.players[k].conn != c
    ensures var t := Join(s, c, cleaned, now, snapNow).0;
            || (t == s)
            || (t.players.Keys == s.players.Keys + {s.nextID + 1} && t.nextID == s.nextID + 1)
  {
    hide RegistryOk, Broadcast, WelcomeFor, Register, Admit;
    if Refusal(s, cleaned).None? {
      RegisterRegistry(s, c, cleaned.value);
      var (r, sess) := Register(s, c, cleaned.value);
      AdmitEffect(r, sess, now);
      assert r.players.Keys == s.players.Keys + {s.nextID + 1};
    }
  }

  /** A new player's id is above every id given before. */
  lemma HandleIds(s: State, e: Event)
    requires Inv(s)
    requires e.EvFlap? ==> e.sid in s.players
    requires e.EvLeave? && e.who.Some? ==> e.who.value in s.players
    requires e.EvJoin? ==> forall k :: k in s.players ==> s.players[k].conn != e.conn
    ensures var t := Handle(s, e).0;
            s.nextID <= t.nextID && forall id :: id in t.players ==> id in s.players || s.nextID < id <= t.nextID
  {
    hide Inv, Join, Flap, Leave, Tick, RegistryOk, Broadcast, WelcomeFor;
    RegistryPart(s);
    match e
    case EvJoin(c, cleaned, now, snapNow) => JoinIds(s, c, cleaned, now, snapNow);
    case EvFlap(sid, now) => FlapPhase(s, sid, now); FlapKeepsConns(s, sid, now);
    case EvLeave(c, who, now, snapNow) =>
      LeaveCounters(s, c, who, now, snapNow);
      if who.Some? {
        LeaveEffect(s, c, who.value, now, snapNow);
      } else {
        GoneEffect(s, c, now, snapNow);
      }
    case EvTick(now, snapNow) => TickCounters(s, now, snapNow);
  }

  /** In every run an id that was given and is no longer in use never comes back. */
  lemma {:induction false} IdsNeverReused(y: System, events: seq<Event>, id: nat)
    requires SystemInv(y) && id <= y.hub.nextID && id !in y.hub.players
    ensures id <= Run(y, events).hub.nextID && id !in Run(y, events).hub.players
  {
    hide Inv, Handle, TraceOk, ShapeOk;
    if events != [] {
      var before, e := Run(y, events[..|events| - 1]), events[|events| - 1];
      IdsNeverReused(y, events[..|events| - 1], id);
      RunInv(y, events[..|events| - 1]);
      if Allowed(before, e) {
        OpenAll(before.hub.players, before.conns);
        HandleIds(before.hub, e);
      }
    }
  }
}
