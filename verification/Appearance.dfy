/** What everybody looks like, and what a race is made of, over whole runs of the hub: a name keeps its
    appearance for good, and the pipes of a race are those of the seed that is sent with it. */
module Appearance {
  import opened Options
  import opened Protocol
  import opened StoreSpec
  import Names
  import Track
  import Flight
  import WorldSpec
  import Race
  import Rank
  import opened HubSpec
  import opened HubInvariant
  import opened HubRuns
  import opened HubTheorems

  ghost predicate Remembered(stats: Players, name: string, bird: Plumage) {
    name in stats && stats[name].bird == bird && bird.Valid()
  }

  ghost predicate PlayersDressed(players: map<nat, Session>, stats: Players) {
    forall id :: id in players ==> Remembered(stats, players[id].name, players[id].bird)
  }

  /** A racer wears what is remembered for its name, and is listed for the records as it flies. */
  ghost predicate RacersDressed(birds: map<nat, Flight.Bird>, raceInfo: map<nat, RaceInfo>, stats: Players) {
    forall id :: id in birds ==>
      && id in raceInfo && raceInfo[id] == RaceInfo(birds[id].name, Plumage(birds[id].pal, birds[id].acc))
      && Remembered(stats, birds[id].name, raceInfo[id].bird)
  }

  ghost predicate Dressed(s: State) {
    && PlayersDressed(s.players, s.stats)
    && (s.world.Some? ==>
          && RacersDressed(s.world.value.birds, s.raceInfo, s.stats)
          && s.world.value.track.draws == WorldSpec.SeedDraws(s.seed))
  }

  /** No valid appearance is forgotten or changed. */
  ghost predicate KeepsBirds(was: Players, now: Players) {
    forall name :: name in was && was[name].bird.Valid() ==> name in now && now[name].bird == was[name].bird
  }

  lemma StillDressed(s: State, now: Players)
    requires Dressed(s) && KeepsBirds(s.stats, now)
    ensures Dressed(s.(stats := now))
  {
  }

  // ----- recording a race -----

  lemma {:induction false} RecordKeepsBirds(players: Players, entries: seq<RaceEntry>, theme: nat, at: int)
    requires forall e :: e in entries ==> Remembered(players, e.name, e.bird)
    ensures KeepsBirds(players, Record(players, entries, theme, at))
  {
    if entries != [] {
      var m := |entries| - 1;
      RecordKeepsBirds(players, entries[..m], theme, at);
      assert Remembered(players, entries[m].name, entries[m].bird);
    }
  }

  lemma EntriesRemembered(s: State)
    requires Rankable(s) && Dressed(s)
    ensures forall e :: e in EntriesOf(PodiumOf(s.world.value), s.raceInfo) ==> Remembered(s.stats, e.name, e.bird)
  {
    hide Remembered;
    RankableWorld(s);
    var w := s.world.value;
    var podium := PodiumOf(w);
    Rank.PodiumIsComplete(w);
    forall i | 0 <= i < |podium|
      ensures Remembered(s.stats, EntriesOf(podium, s.raceInfo)[i].name, EntriesOf(podium, s.raceInfo)[i].bird)
    {
      assert Rank.Shows(podium[i], w);
    }
  }

  lemma FinishWorld(s: State, now: int)
    requires s.world.Some?
    ensures var t := FinishRace(s, now);
            && t.stats == Record(s.stats, EntriesOf(PodiumOf(s.world.value), s.raceInfo), s.theme, now)
            && t.players == s.players && t.seed == s.seed
            && ((t.world == s.world && t.raceInfo == s.raceInfo) || t.world.None?)
  {
    hide EntriesOf, PodiumOf, Record;
  }

  lemma SameClothes(s: State, t: State)
    requires Dressed(s)
    requires t.stats == s.stats && t.players == s.players && t.seed == s.seed
    requires t.world.None? || (t.world == s.world && t.raceInfo == s.raceInfo)
    ensures Dressed(t)
  {
  }

  lemma FinishDressed(s: State, now: int)
    requires Rankable(s) && Dressed(s)
    ensures Dressed(FinishRace(s, now)) && KeepsBirds(s.stats, FinishRace(s, now).stats)
  {
    hide InTheAir, EntriesOf, PodiumOf, Record, Dressed;
    EntriesRemembered(s);
    var entries := EntriesOf(PodiumOf(s.world.value), s.raceInfo);
    RecordKeepsBirds(s.stats, entries, s.theme, now);
    StillDressed(s, Record(s.stats, entries, s.theme, now));
    FinishWorld(s, now);
    SameClothes(s.(stats := Record(s.stats, entries, s.theme, now)), FinishRace(s, now));
  }

  // ----- starting a race -----

  lemma {:induction false} LineUpDressed(players: map<nat, Session>, order: seq<nat>, draws: nat -> real)
    requires forall i, j :: 0 <= i < j < |order| ==> order[i] != order[j]
    requires forall id :: id in order ==> id in players
    ensures var w := LineUp(players, order, WorldSpec.New(draws));
            && w.track.draws == draws && w.birds.Keys == set id | id in order
            && forall id :: id in w.birds ==>
                 && id in players && w.birds[id].name == players[id].name
                 && w.birds[id].pal == players[id].bird.palette && w.birds[id].acc == players[id].bird.accessory
  {
    if order != [] {
      var m := |order| - 1;
      assert order == order[..m] + [order[m]];
      LineUpDressed(players, order[..m], draws);
      assert order[m] !in order[..m];
    }
  }

  lemma BeginDressed(s: State, now: int)
    requires RegistryOk(s) && PlayersDressed(s.players, s.stats)
    ensures Dressed(BeginCountdown(s, now)) && BeginCountdown(s, now).stats == s.stats
  {
    hide PickTheme, LineUp, Remembered;
    LineUpDressed(s.players, s.order, WorldSpec.SeedDraws(DrawRace(s, now).seed));
  }

  // ----- joining -----

  lemma DressedValid(s: State, name: string)
    ensures Dress(s, name).1.Valid()
  {
  }

  lemma DressRemembers(s: State, name: string)
    ensures var (d, bird) := Dress(s, name);
            && d == s.(drawn := d.drawn, stats := d.stats)
            && KeepsBirds(s.stats, d.stats) && Remembered(d.stats, name, bird)
  {
    hide RollBird;
    DressKeeps(s, name);
    DressedValid(s, name);
  }

  lemma RegisterDressed(s: State, c: nat, base: string)
    requires Dressed(s)
    ensures var (r, sess) := Register(s, c, base);
            && Dressed(r) && KeepsBirds(s.stats, r.stats) && Remembered(r.stats, sess.name, sess.bird)
            && r.world == s.world && r.raceInfo == s.raceInfo && r.seed == s.seed && r.st == s.st
            && sess.id in r.players && r.players[sess.id] == sess
  {
    hide Dress, Names.UniqueName, Remembered, KeepsBirds;
    var name := Names.UniqueName(base, s.names);
    DressRemembers(s, name);
    StillDressed(s, Dress(s, name).0.stats);
  }

  lemma AdmitDressed(r: State, sess: Session, now: int)
    requires Dressed(r) && RegistryOk(r) && Remembered(r.stats, sess.name, sess.bird)
    requires r.st == Countdown && r.world.Some? ==> sess.id !in r.world.value.birds
    ensures Dressed(Admit(r, sess, now)) && Admit(r, sess, now).stats == r.stats
  {
    hide BeginCountdown, RegistryOk, Remembered;
    if r.st == Waiting {
      BeginDressed(r, now);
    }
  }

  lemma NewIsNoRacer(s: State)
    requires Inv(s)
    ensures s.st == Countdown && s.world.Some? ==> s.nextID + 1 !in s.world.value.birds
  {
    hide HistoryOk, Race.Grid;
  }

  lemma AcceptedDressed(s: State, c: nat, base: string, now: int)
    requires Inv(s) && Dressed(s) && forall id :: id in s.players ==> s.players[id].conn != c
    ensures var (r, sess) := Register(s, c, base);
            var a := Admit(r, sess, now);
            Dressed(a) && KeepsBirds(s.stats, a.stats)
  {
    hide Inv, Dressed, Register, Admit, Remembered, KeepsBirds, RegistryOk;
    var (r, sess) := Register(s, c, base);
    RegistryPart(s);
    RegisterRegistry(s, c, base);
    RegisterDressed(s, c, base);
    NewIsNoRacer(s);
    AdmitDressed(r, sess, now);
  }

  lemma Kept(stats: Players)
    ensures KeepsBirds(stats, stats)
  {
  }

  lemma BroadcastDressed(s: State, at: int)
    requires Dressed(s)
    ensures Dressed(AfterBroadcast(s, at)) && AfterBroadcast(s, at).stats == s.stats
  {
  }

  lemma JoinDressed(s: State, c: nat, cleaned: Option<string>, now: int, snapNow: int)
    requires Inv(s) && Dressed(s) && forall id :: id in s.players ==> s.players[id].conn != c
    ensures var t := Join(s, c, cleaned, now, snapNow).0;
            Dressed(t) && KeepsBirds(s.stats, t.stats)
  {
    hide Inv, Dressed, Register, Admit, Broadcast, WelcomeFor, KeepsBirds;
    if Refusal(s, cleaned).None? {
      var (r, sess) := Register(s, c, cleaned.value);
      AcceptedDressed(s, c, cleaned.value, now);
      BroadcastDressed(Admit(r, sess, now), snapNow);
    } else {
      Kept(s.stats);
    }
  }

  // ----- flaps, departures and ticks -----

  lemma FlapDressed(s: State, sid: nat, now: int)
    requires sid in s.players && Dressed(s)
    ensures Dressed(Flap(s, sid, now)) && Flap(s, sid, now).stats == s.stats
  {
    hide Remembered;
  }

  lemma StrikeDressed(s: State, sid: nat)
    requires RegistryOk(s) && sid in s.players && Dressed(s)
    ensures Dressed(Strike(s, s.players[sid]))
  {
    hide RegistryOk, WorldSpec.Without, Remembered;
  }

  lemma RemoveDressed(s: State, sid: nat)
    requires Dressed(s) && s.world.Some?
    ensures Dressed(s.(world := Some(WorldSpec.RemoveBird(s.world.value, sid)), raceInfo := s.raceInfo - {sid}))
  {
    hide WorldSpec.Without, Remembered;
  }

  lemma KillDressed(s: State, sid: nat)
    requires Dressed(s) && s.world.Some?
    ensures Dressed(s.(world := Some(WorldSpec.KillLeft(s.world.value, sid))))
  {
    hide Remembered;
  }

  lemma Departing(s: State, sid: nat)
    requires Inv(s) && s.st == Racing && sid in s.players && s.world.Some? && sid in s.world.value.birds
    ensures Rankable(Strike(s, s.players[sid]).(world := Some(WorldSpec.KillLeft(s.world.value, sid))))
  {
    hide RegistryOk, HistoryOk, InTheAir, WorldSpec.KillLeft;
    InvNeeds(s);
    SessionId(s, sid);
    DepartRacing(s, sid);
  }

  lemma IdleDressed(s: State)
    requires Dressed(s)
    ensures Dressed(Idle(s)) && Idle(s).stats == s.stats
  {
  }

  lemma DepartDressed(s: State, sid: nat, now: int)
    requires Inv(s) && Dressed(s) && sid in s.players
    ensures var t := Depart(Strike(s, s.players[sid]), sid, now);
            Dressed(t) && KeepsBirds(s.stats, t.stats)
  {
    hide Registry, HistoryOk, Inv, Dressed, KeepsBirds, FinishRace, WorldSpec.KillLeft, WorldSpec.RemoveBird,
         WorldSpec.Living, WorldSpec.Without;
    InvNeeds(s);
    SessionId(s, sid);
    StrikeDressed(s, sid);
    Kept(s.stats);
    var struck := Strike(s, s.players[sid]);
    match s.st
    case Waiting =>
    case Countdown =>
      RemoveDressed(struck, sid);
      IdleDressed(struck.(world := Some(WorldSpec.RemoveBird(s.world.value, sid)), raceInfo := s.raceInfo - {sid}));
    case Racing =>
      if sid in s.world.value.birds {
        KillDressed(struck, sid);
        Departing(s, sid);
        FinishDressed(struck.(world := Some(WorldSpec.KillLeft(s.world.value, sid))), now);
      }
    case Finished =>
      IdleDressed(struck);
  }

  lemma LeaveDressed(s: State, c: nat, who: Option<nat>, now: int, snapNow: int)
    requires Inv(s) && Dressed(s) && (who.Some? ==> who.value in s.players)
    ensures var t := Leave(s, c, who, now, snapNow).0;
            Dressed(t) && KeepsBirds(s.stats, t.stats)
  {
    hide Inv, Dressed, KeepsBirds, Strike, Depart, Broadcast, DepartAnnounces, AfterBroadcast;
    Kept(s.stats);
    if who.Some? {
      DepartDressed(s, who.value, now);
      BroadcastDressed(Depart(Strike(s, s.players[who.value]), who.value, now), snapNow);
    }
  }

  lemma StepWears(w: WorldSpec.State, flaps: set<nat>)
    ensures var k := WorldSpec.Step(w, flaps);
            && k.birds.Keys == w.birds.Keys
            && forall id :: id in w.birds ==>
                 && k.birds[id].name == w.birds[id].name
                 && k.birds[id].pal == w.birds[id].pal && k.birds[id].acc == w.birds[id].acc
  {
    hide Track.Step, Flight.Tick;
    var k := WorldSpec.Step(w, flaps);
    forall id | id in w.birds
      ensures k.birds[id].name == w.birds[id].name
      ensures k.birds[id].pal == w.birds[id].pal && k.birds[id].acc == w.birds[id].acc
    {
      Race.TickKeepsId(w.birds[id], id in flaps, k.track.tick, k.track.pipes);
    }
  }

  lemma StepDressed(s: State)
    requires Dressed(s) && s.world.Some? && Race.Reachable(s.world.value)
    ensures Dressed(Flown(s))
  {
    hide Remembered, Race.Reachable;
    Race.StepTrack(s.world.value, s.pending);
    StepWears(s.world.value, s.pending);
    hide WorldSpec.Step;
  }

  lemma TickRacingDressed(s: State, now: int)
    requires Inv(s) && s.st == Racing && Dressed(s)
    ensures var t := TickState(s, now);
            Dressed(t) && KeepsBirds(s.stats, t.stats)
  {
    hide RegistryOk, HistoryOk, InTheAir, Dressed, KeepsBirds, WorldSpec.Step, WorldSpec.Living, FinishRace;
    RacingHasWorld(s);
    StepDressed(s);
    TickRacing(s);
    Kept(s.stats);
    if RaceIsOver(Flown(s).world.value) {
      FinishDressed(Flown(s), now);
    }
  }

  lemma RestDressed(s: State, t: State)
    requires Dressed(s) && t == s.(st := t.st, started := t.started)
    ensures Dressed(t)
  {
  }

  lemma TickStateDressed(s: State, now: int)
    requires Inv(s) && Dressed(s)
    ensures var t := TickState(s, now);
            Dressed(t) && KeepsBirds(s.stats, t.stats)
  {
    hide Inv, KeepsBirds, RegistryOk, WorldSpec.Step, RaceIsOver, FinishRace, BeginCountdown, RacersDressed,
         PlayersDressed;
    InvNeeds(s);
    Kept(s.stats);
    match s.st
    case Waiting =>
    case Countdown => RestDressed(s, TickState(s, now));
    case Racing => TickRacingDressed(s, now);
    case Finished =>
      BeginDressed(s, now);
      IdleDressed(s);
  }

  lemma TickDressed(s: State, now: int, snapNow: int)
    requires Inv(s) && Dressed(s)
    ensures var t := Tick(s, now, snapNow).0;
            Dressed(t) && KeepsBirds(s.stats, t.stats)
  {
    hide Inv, Dressed, KeepsBirds, TickState, Broadcast, AfterBroadcast;
    TickStateDressed(s, now);
    BroadcastDressed(TickState(s, now), snapNow);
  }

  lemma NextDressed(y: System, e: Event)
    requires SystemInv(y) && Dressed(y.hub)
    ensures Dressed(Next(y, e).hub) && KeepsBirds(y.hub.stats, Next(y, e).hub.stats)
  {
    hide Inv, TraceOk, ShapeOk, Dressed, KeepsBirds, Join, Flap, Leave, Tick;
    Kept(y.hub.stats);
    if Allowed(y, e) {
      OpenAll(y.hub.players, y.conns);
      match e
      case EvJoin(c, cleaned, now, snapNow) => JoinDressed(y.hub, c, cleaned, now, snapNow);
      case EvFlap(sid, now) => FlapDressed(y.hub, sid, now);
      case EvLeave(c, who, now, snapNow) => LeaveDressed(y.hub, c, who, now, snapNow);
      case EvTick(now, snapNow) => TickDressed(y.hub, now, snapNow);
    }
  }

  // ----- whole runs -----

  lemma KeptTwice(a: Players, b: Players, c: Players)
    requires KeepsBirds(a, b) && KeepsBirds(b, c)
    ensures KeepsBirds(a, c)
  {
  }

  lemma {:induction false} RunDressed(y: System, events: seq<Event>)
    requires SystemInv(y) && Dressed(y.hub)
    ensures SystemInv(Run(y, events)) && Dressed(Run(y, events).hub)
    ensures KeepsBirds(y.hub.stats, Run(y, events).hub.stats)
  {
    hide SystemInv, Dressed, Next, KeepsBirds;
    Kept(y.hub.stats);
    if events != [] {
      var before, e := Run(y, events[..|events| - 1]), events[|events| - 1];
      RunDressed(y, events[..|events| - 1]);
      NextDressed(before, e);
      NextInv(before, e);
      KeptTwice(y.hub.stats, before.hub.stats, Next(before, e).hub.stats);
    }
  }

  lemma InitialDressed(y: System)
    requires Initial(y)
    ensures Dressed(y.hub)
  {
  }

  /** Once a name has a valid appearance it keeps it, whatever happens: no join and no race changes it. */
  lemma AppearanceIsForGood(y: System, before: seq<Event>, events: seq<Event>, name: string)
    requires Initial(y)
    requires name in Run(y, before).hub.stats && Run(y, before).hub.stats[name].bird.Valid()
    ensures name in Run(y, before + events).hub.stats
    ensures Run(y, before + events).hub.stats[name].bird == Run(y, before).hub.stats[name].bird
  {
    hide SystemInv, Dressed, Run, Initial;
    InitialInv(y);
    InitialDressed(y);
    RunDressed(y, before);
    RunAppend(y, before, events);
    RunDressed(Run(y, before), events);
  }

  lemma SameNames(y: System, id: nat)
    requires SystemInv(y)
    ensures y.hub.world.Some? && id in y.hub.world.value.birds && id in y.hub.players ==>
              y.hub.world.value.birds[id].name == y.hub.players[id].name
  {
    hide Registry, TraceOk, ShapeOk, ConnsOk, Race.Reachable, Race.Grid, NamesDiffer;
  }

  /** In every run each player, and each bird of the race under its player's name, wears what is remembered
      for the name. */
  lemma EverybodyIsDressed(y: System, events: seq<Event>, id: nat)
    requires Initial(y)
    ensures var s := Run(y, events).hub;
            && (id in s.players ==> Remembered(s.stats, s.players[id].name, s.players[id].bird))
            && (s.world.Some? && id in s.world.value.birds ==>
                  var b := s.world.value.birds[id];
                  && Remembered(s.stats, b.name, Plumage(b.pal, b.acc))
                  && (id in s.players ==> s.players[id].name == b.name && s.players[id].bird == Plumage(b.pal, b.acc)))
  {
    hide SystemInv, Run, Initial;
    InitialInv(y);
    InitialDressed(y);
    RunDressed(y, events);
    SameNames(Run(y, events), id);
  }

  lemma TracksReached(s: State)
    requires Inv(s)
    ensures s.world.Some? ==> s.world.value.track == Track.At(s.world.value.track.draws, s.world.value.track.tick)
  {
    hide Registry, NamesDiffer, Race.Grid;
    if s.st == Countdown {
      Race.GridReachable(s.world.value);
    }
  }

  /** In every run the race is flown through the pipes of the seed the hub sends with it. */
  lemma RaceFollowsSeed(y: System, events: seq<Event>)
    requires Initial(y)
    ensures var s := Run(y, events).hub;
            s.world.Some? ==> s.world.value.track == Track.At(WorldSpec.SeedDraws(s.seed), s.world.value.track.tick)
  {
    hide Run, Initial, Inv;
    InitialInv(y);
    InitialDressed(y);
    RunDressed(y, events);
    TracksReached(Run(y, events).hub);
  }
}
