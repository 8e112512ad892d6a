/** Everybody's statistics over whole runs of the hub: races, wins and the best score, with its theme and
    time, follow from the races that were finished, and from nothing else. */
module Careers {
  import opened Options
  import opened Protocol
  import opened StoreSpec
  import WorldSpec
  import Race
  import opened HubSpec
  import opened HubInvariant
  import opened HubRuns
  import opened HubTheorems

  datatype Career = Career(races: int, wins: int, best: int, bestTheme: string, bestAt: int)

  function CareerOf(players: Players, name: string): Career {
    var ps := StatOf(players, name);
    Career(ps.races, ps.wins, ps.best, ps.bestTheme, ps.bestAt)
  }

  ghost predicate Flew(w: WorldSpec.State, name: string) {
    exists id :: id in w.birds && w.birds[id].name == name
  }

  ghost function ScoreOf(w: WorldSpec.State, name: string): int
    requires Flew(w, name)
  {
    var id :| id in w.birds && w.birds[id].name == name;
    w.birds[id].score
  }

  ghost predicate Won(w: WorldSpec.State, name: string) {
    PodiumOf(w) != [] && PodiumOf(w)[0].name == name
  }

  /** One more race for everybody who flew in it, and one more win for the first of the podium; the best
      score, its theme and its time are this race's only if it was better. */
  ghost function AfterRace(c: Career, w: WorldSpec.State, name: string, theme: nat, at: int): Career {
    var races := c.races + if Flew(w, name) then 1 else 0;
    var wins := c.wins + if Won(w, name) then 1 else 0;
    if Flew(w, name) && ScoreOf(w, name) > c.best
    then Career(races, wins, ScoreOf(w, name), ThemeName(theme), at)
    else Career(races, wins, c.best, c.bestTheme, c.bestAt)
  }

  /** The world a race would be ranked in if this event ended it. */
  ghost function FinalWorld(s: State, e: Event): WorldSpec.State
    requires s.world.Some?
  {
    match e
    case EvTick(_, _) => WorldSpec.Step(s.world.value, s.pending)
    case EvLeave(_, Some(sid), _, _) => WorldSpec.KillLeft(s.world.value, sid)
    case _ => s.world.value
  }

  /** Ending a race changes nobody's part in it. */
  lemma FinalWorldNames(s: State, e: Event, name: string)
    requires s.world.Some?
    ensures Flew(FinalWorld(s, e), name) <==> Flew(s.world.value, name)
  {
    hide WorldSpec.Step, WorldSpec.KillLeft;
    StepKeeps(s.world.value, s.pending);
    match e
    case EvLeave(_, Some(sid), _, _) => KillKeeps(s.world.value, sid);
    case _ =>
  }

  // ----- one event -----

  lemma FinishCareer(s: State, now: int, name: string)
    requires Rankable(s)
    ensures CareerOf(FinishRace(s, now).stats, name) ==
            AfterRace(CareerOf(s.stats, name), s.world.value, name, s.theme, now)
  {
    hide Rankable, FinishRace, PodiumOf;
    FinishCountsRacers(s, now, name);
  }

  /** An event finishes a race for good, or leaves every career alone. */
  ghost predicate CareerFollows(s: State, t: State, e: Event, name: string) {
    if t.finished == s.finished then CareerOf(t.stats, name) == CareerOf(s.stats, name)
    else
      && s.world.Some?
      && CareerOf(t.stats, name) == AfterRace(CareerOf(s.stats, name), FinalWorld(s, e), name, s.theme, e.now)
  }

  lemma RegisterCareer(s: State, c: nat, base: string, name: string)
    ensures CareerOf(Register(s, c, base).0.stats, name) == CareerOf(s.stats, name)
  {
    hide RollBird, Names.UniqueName;
  }

  lemma AdmitCareer(r: State, sess: Session, now: int)
    ensures Admit(r, sess, now).stats == r.stats
  {
    hide LineUp, PickTheme, InfosOf;
  }

  lemma JoinCareer(s: State, c: nat, cleaned: Option<string>, now: int, snapNow: int, name: string)
    ensures CareerOf(Join(s, c, cleaned, now, snapNow).0.stats, name) == CareerOf(s.stats, name)
  {
    hide Register, Admit, Broadcast, WelcomeFor, CareerOf;
    if Refusal(s, cleaned).None? {
      RegisterCareer(s, c, cleaned.value, name);
      var (r, sess) := Register(s, c, cleaned.value);
      AdmitCareer(r, sess, now);
    }
  }

  lemma KillCareer(s: State, sid: nat, now: int, name: string)
    requires Inv(s) && s.st == Racing && sid in s.players && sid in s.world.value.birds
    ensures CareerFollows(s, Depart(Strike(s, s.players[sid]), sid, now), EvLeave(0, Some(sid), now, now), name)
  {
    hide HistoryOk, RegistryOk, InTheAir, FinishRace, CareerOf, AfterRace, WorldSpec.KillLeft, WorldSpec.Living;
    SessionId(s, sid);
    DepartRacing(s, sid);
    var killed := Strike(s, s.players[sid]).(world := Some(WorldSpec.KillLeft(s.world.value, sid)));
    FinishCareer(killed, now, name);
    FinishPhase(killed, now);
  }

  lemma LeaveCareer(s: State, c: nat, who: Option<nat>, now: int, snapNow: int, name: string)
    requires Inv(s) && (who.Some? ==> who.value in s.players)
    ensures CareerFollows(s, Leave(s, c, who, now, snapNow).0, EvLeave(c, who, now, snapNow), name)
  {
    hide Inv, Depart, Broadcast, CareerOf, AfterRace;
    if who.Some? {
      InvNeeds(s);
      if s.st == Racing && who.value in s.world.value.birds {
        KillCareer(s, who.value, now, name);
      } else {
        QuietDeparture(Strike(s, s.players[who.value]), who.value, now);
      }
    }
  }

  lemma TickStateCareer(s: State, now: int, name: string)
    requires Inv(s)
    ensures CareerFollows(s, TickState(s, now), EvTick(now, now), name)
  {
    hide FinishRace, RegistryOk, OnTheLine, InTheAir, HistoryOk, WorldSpec.Step, RaceIsOver, LineUp, PickTheme,
         InfosOf, CareerOf, AfterRace;
    if s.st == Racing {
      TickRacing(s);
      FinishCareer(Flown(s), now, name);
      FinishPhase(Flown(s), now);
    }
  }

  lemma TickCareer(s: State, now: int, snapNow: int, name: string)
    requires Inv(s)
    ensures CareerFollows(s, Tick(s, now, snapNow).0, EvTick(now, snapNow), name)
  {
    hide Inv, TickState, Broadcast, CareerOf, AfterRace;
    TickStateCareer(s, now, name);
  }

  lemma HandleCareer(s: State, e: Event, name: string)
    requires Inv(s)
    requires e.EvFlap? ==> e.sid in s.players
    requires e.EvLeave? && e.who.Some? ==> e.who.value in s.players
    ensures CareerFollows(s, Handle(s, e).0, e, name)
  {
    hide Inv, Join, Flap, Leave, Tick, CareerOf, AfterRace;
    match e
    case EvJoin(c, cleaned, now, snapNow) =>
      JoinPhase(s, c, cleaned, now, snapNow);
      JoinCareer(s, c, cleaned, now, snapNow, name);
    case EvFlap(sid, now) => FlapPhase(s, sid, now);
    case EvLeave(c, who, now, snapNow) => LeaveCareer(s, c, who, now, snapNow, name);
    case EvTick(now, snapNow) => TickCareer(s, now, snapNow, name);
  }

  // ----- whole runs -----

  /** The career that the races finished in a run add up to. */
  ghost function Earned(y: System, events: seq<Event>, name: string): Career {
    if events == [] then CareerOf(y.hub.stats, name)
    else
      var front := events[..|events| - 1];
      var before, e := Run(y, front), events[|events| - 1];
      if Next(before, e).hub.finished > before.hub.finished && before.hub.world.Some?
      then AfterRace(Earned(y, front, name), FinalWorld(before.hub, e), name, before.hub.theme, e.now)
      else Earned(y, front, name)
  }

  lemma NextCareer(y: System, e: Event, name: string)
    requires SystemInv(y)
    ensures Next(y, e).hub.finished >= y.hub.finished && CareerFollows(y.hub, Next(y, e).hub, e, name)
  {
    hide Inv, Handle, TraceOk, ShapeOk, CareerOf, AfterRace;
    NextFinished(y, e);
    if Allowed(y, e) {
      HandleCareer(y.hub, e, name);
    }
  }

  /** In every run everybody's races, wins and best are those before, plus one race for each finished
      race with a bird of that name, one win for each podium that name came first on, and the best of
      its scores, with the theme and the time of the race that set it. No other event changes them. */
  lemma {:induction false} CareersAreEarned(y: System, events: seq<Event>, name: string)
    requires SystemInv(y)
    ensures CareerOf(Run(y, events).hub.stats, name) == Earned(y, events, name)
  {
    hide SystemInv, Next, CareerOf, AfterRace, FinalWorld;
    if events != [] {
      var m := |events| - 1;
      CareersAreEarned(y, events[..m], name);
      RunInv(y, events[..m]);
      NextCareer(Run(y, events[..m]), events[m], name);
    }
  }

  /** In every run nobody's best, races or wins ever drop. */
  lemma {:induction false} CareersNeverDrop(y: System, events: seq<Event>, name: string)
    requires SystemInv(y)
    ensures var was, now := CareerOf(y.hub.stats, name), CareerOf(Run(y, events).hub.stats, name);
            was.races <= now.races && was.wins <= now.wins && was.best <= now.best
  {
    hide SystemInv, Next, CareerOf, FinalWorld;
    if events != [] {
      var m := |events| - 1;
      CareersNeverDrop(y, events[..m], name);
      RunInv(y, events[..m]);
      NextCareer(Run(y, events[..m]), events[m], name);
    }
  }
}
