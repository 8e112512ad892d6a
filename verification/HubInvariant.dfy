/** What every hub handler keeps, for any clock and any order of events. */
module HubInvariant {
  import opened Options
  import opened Protocol
  import opened StoreSpec
  import Rng
  import Track
  import Flight
  import WorldSpec
  import Race
  import Rank
  import Names
  import opened HubSpec

  /** The registry: `order` lists the players once each, `names` inverts the session names,
      ids are below the next one, and no two sessions share a connection. */
  ghost predicate Registry(players: map<nat, Session>, order: seq<nat>, names: map<string, nat>, nextID: nat) {
    && (forall i, j :: 0 <= i < j < |order| ==> order[i] != order[j])
    && (forall id :: id in order <==> id in players)
    && (forall id :: id in players ==> players[id].id == id && 1 <= id <= nextID)
    && (forall id :: id in players ==> players[id].name in names && names[players[id].name] == id)
    && (forall name :: name in names ==> names[name] in players && players[names[name]].name == name)
    && (forall a, b :: a in players && b in players && players[a].conn == players[b].conn ==> a == b)
  }

  ghost predicate RegistryOk(s: State) {
    Registry(s.players, s.order, s.names, s.nextID)
  }

  /** Racers carry pairwise different names. */
  ghost predicate NamesDiffer(w: WorldSpec.State) {
    forall a, b :: a in w.birds && b in w.birds && w.birds[a].name == w.birds[b].name ==> a == b
  }

  /** During the countdown the racers are exactly the players, all on the starting line. */
  ghost predicate OnTheLine(w: WorldSpec.State, players: map<nat, Session>, order: seq<nat>) {
    && Race.Grid(w)
    && w.order == order
    && w.birds.Keys == players.Keys
    && (forall id :: id in players ==> w.birds[id].name == players[id].name)
  }

  /** While a race flies or is shown, its world is a reachable one, of known and named birds. */
  ghost predicate InTheAir(w: WorldSpec.State, players: map<nat, Session>, nextID: nat) {
    && Race.Reachable(w)
    && NamesDiffer(w)
    && w.birds != map[]
    && (forall id :: id in w.birds ==> id <= nextID)
    && (forall id :: id in w.birds && id in players ==> w.birds[id].name == players[id].name)
  }

  ghost predicate WaitingOk(s: State) {
    s.players == map[] && s.world.None? && s.raceInfo == map[] && s.results == []
  }

  ghost predicate CountdownOk(s: State) {
    && s.players != map[]
    && s.world.Some? && OnTheLine(s.world.value, s.players, s.order)
    && s.raceInfo.Keys == s.players.Keys
    && s.theme < THEME_COUNT && s.theme != s.lastTheme && s.results == []
  }

  /** Somebody flies, everybody who flies is connected, and the cap is not reached. */
  ghost predicate RacingOk(s: State) {
    && s.world.Some? && InTheAir(s.world.value, s.players, s.nextID)
    && WorldSpec.Living(s.world.value) != {}
    && (forall id :: id in WorldSpec.Living(s.world.value) ==> id in s.players)
    && s.world.value.track.tick < MAX_RACE_TICKS
    && s.raceInfo.Keys == s.world.value.birds.Keys
    && s.theme < THEME_COUNT && s.theme != s.lastTheme
  }

  ghost predicate FinishedOk(s: State) {
    && s.players != map[]
    && s.world.Some? && InTheAir(s.world.value, s.players, s.nextID)
    && s.world.value.track.tick <= MAX_RACE_TICKS
    && s.raceInfo.Keys == s.world.value.birds.Keys
    && s.results == PodiumOf(s.world.value)
    && s.theme == s.lastTheme
  }

  ghost predicate PhaseOk(s: State) {
    match s.st
    case Waiting => WaitingOk(s)
    case Countdown => CountdownOk(s)
    case Racing => RacingOk(s)
    case Finished => FinishedOk(s)
  }

  /** Seeds are taken at strictly increasing draws, and every started race but a flying one is finished. */
  ghost predicate HistoryOk(s: State) {
    && (forall i, j :: 0 <= i < j < |s.begun| ==> s.begun[i] < s.begun[j])
    && (forall i :: 0 <= i < |s.begun| ==> 1 <= s.begun[i] <= s.drawn)
    && (s.st != Waiting ==> s.begun != [] && s.seed == s.words(s.begun[|s.begun| - 1]))
    && s.started == s.finished + (if s.st == Racing then 1 else 0)
    && (s.finished == 0 ==> s.lastTheme == 0)
  }

  ghost predicate Inv(s: State) {
    RegistryOk(s) && PhaseOk(s) && HistoryOk(s)
  }

  lemma NewInv(cfg: Config, words: nat -> Rng.Word, stats: Players)
    ensures Inv(New(cfg, words, stats))
  {
  }

  // ----- starting a race -----

  lemma PickThemeAvoids(word: Rng.Word, lastTheme: nat)
    ensures PickTheme(word, lastTheme) < THEME_COUNT && PickTheme(word, lastTheme) != lastTheme
  {
  }

  /** The line-up is a starting grid of exactly the listed players, in their order. */
  lemma {:induction false} LineUpIsGrid(players: map<nat, Session>, order: seq<nat>, draws: nat -> real)
    requires forall i, j :: 0 <= i < j < |order| ==> order[i] != order[j]
    requires forall id :: id in order ==> id in players
    ensures var w := LineUp(players, order, WorldSpec.New(draws));
            && Race.Grid(w) && w.order == order && w.track.draws == draws
            && (forall id :: id in w.birds <==> id in order)
            && (forall id :: id in w.birds ==> w.birds[id].name == players[id].name)
  {
    if order == [] {
      Race.EmptyGrid(draws);
    } else {
      var m := |order| - 1;
      var id, front := order[m], order[..m];
      var before := LineUp(players, front, WorldSpec.New(draws));
      assert order == front + [id];
      LineUpIsGrid(players, front, draws);
      assert id !in front;
      var p := players[id];
      Race.AddFresh(before, id, p.name, p.bird.palette, p.bird.accessory);
    }
  }

  lemma LineUpOnTheLine(players: map<nat, Session>, order: seq<nat>, w: WorldSpec.State)
    requires Race.Grid(w) && w.order == order
    requires forall id :: id in order <==> id in players
    requires forall id :: id in w.birds <==> id in order
    requires forall id :: id in w.birds ==> w.birds[id].name == players[id].name
    ensures OnTheLine(w, players, order)
  {
    assert forall id :: id in w.birds.Keys <==> id in players.Keys;
  }

  lemma BeginRegistry(s: State, now: int)
    requires RegistryOk(s)
    ensures RegistryOk(BeginCountdown(s, now))
    ensures BeginCountdown(s, now).raceInfo.Keys == s.players.Keys
  {
  }

  lemma BeginLine(s: State, now: int)
    requires RegistryOk(s)
    ensures OnTheLine(BeginCountdown(s, now).world.value, s.players, s.order)
  {
    var b := BeginCountdown(s, now);
    LineUpIsGrid(s.players, s.order, WorldSpec.SeedDraws(b.seed));
    LineUpOnTheLine(s.players, s.order, b.world.value);
  }

  lemma BeginHistory(s: State, now: int)
    requires HistoryOk(s) && s.st != Racing
    ensures HistoryOk(BeginCountdown(s, now))
  {
  }

  lemma BeginCountdownInv(s: State, now: int)
    requires RegistryOk(s) && HistoryOk(s) && s.players != map[] && s.st != Racing
    ensures Inv(BeginCountdown(s, now))
  {
    hide Registry, OnTheLine;
    BeginRegistry(s, now);
    BeginLine(s, now);
    PickThemeAvoids(s.words(s.drawn + 2), s.lastTheme);
    BeginHistory(s, now);
  }

  /** No players, no race and no world are the same thing, in every phase. */
  lemma WaitingMeansEmpty(s: State)
    requires Inv(s)
    ensures s.st == Waiting <==> s.players == map[]
    ensures s.st == Waiting <==> s.world.None?
  {
    if s.st == Racing {
      var id :| id in WorldSpec.Living(s.world.value);
      assert id in s.players;
    }
  }

  // ----- finishing a race -----

  /** A race that can be ranked: everything a flying race has, except that it may be over. */
  ghost predicate Rankable(s: State) {
    && s.st == Racing && s.world.Some? && InTheAir(s.world.value, s.players, s.nextID)
    && s.world.value.track.tick <= MAX_RACE_TICKS
    && s.raceInfo.Keys == s.world.value.birds.Keys
  }

  lemma FinishRaceInv(s: State, now: int)
    requires RegistryOk(s) && HistoryOk(s) && Rankable(s)
    ensures Inv(FinishRace(s, now))
  {
    hide Registry, Race.Reachable;
  }

  // ----- joining -----

  lemma EnlistRegistry(s: State, sess: Session)
    requires RegistryOk(s)
    requires sess.id == s.nextID + 1 && sess.name !in s.names
    requires forall id :: id in s.players ==> s.players[id].conn != sess.conn
    ensures RegistryOk(Enlist(s, sess))
  {
    var e := Enlist(s, sess);
    assert forall id :: id in e.order <==> id in s.order || id == sess.id;
    assert sess.id !in s.players;
  }

  lemma DressKeeps(s: State, name: string)
    ensures var d := Dress(s, name).0;
            d == s.(drawn := d.drawn, stats := d.stats) && d.drawn >= s.drawn
  {
  }

  lemma RegisterRegistry(s: State, conn: nat, base: string)
    requires RegistryOk(s)
    requires forall id :: id in s.players ==> s.players[id].conn != conn
    ensures var (r, sess) := Register(s, conn, base);
            && RegistryOk(r)
            && sess.id == s.nextID + 1 && sess.conn == conn && sess.name !in s.names
            && r == s.(drawn := r.drawn, stats := r.stats, players := s.players[sess.id := sess],
                       names := s.names[sess.name := sess.id], order := s.order + [sess.id], nextID := sess.id)
            && r.drawn >= s.drawn
  {
    var name := Names.UniqueName(base, s.names);
    var d := Dress(s, name).0;
    DressKeeps(s, name);
    EnlistRegistry(d, Register(s, conn, base).1);
  }

  lemma RegisterHistory(s: State, r: State)
    requires HistoryOk(s) && r.lastTheme == s.lastTheme
    requires r.drawn >= s.drawn && r.st == s.st && r.begun == s.begun && r.seed == s.seed && r.words == s.words
    requires r.started == s.started && r.finished == s.finished
    ensures HistoryOk(r)
  {
  }

  lemma AdmitLate(r: State, sess: Session, players: map<nat, Session>, order: seq<nat>)
    requires r.world.Some? && OnTheLine(r.world.value, players, order) && r.raceInfo.Keys == players.Keys
    requires sess.id !in players
    requires r.players == players[sess.id := sess] && r.order == order + [sess.id]
    ensures var a := AdmitRacer(r, sess);
            OnTheLine(a.world.value, a.players, a.order) && a.raceInfo.Keys == a.players.Keys
  {
    Race.AddFresh(r.world.value, sess.id, sess.name, sess.bird.palette, sess.bird.accessory);
  }

  /** Somebody who joins while a race flies or is shown has no part in it. */
  lemma Spectate(s: State, r: State, sess: Session)
    requires s.world.Some? && InTheAir(s.world.value, s.players, s.nextID) && r.world == s.world
    requires sess.id == s.nextID + 1 == r.nextID && r.players == s.players[sess.id := sess]
    ensures InTheAir(r.world.value, r.players, r.nextID)
  {
  }

  lemma AdmitInv(s: State, r: State, sess: Session, now: int)
    requires Inv(s) && RegistryOk(r) && HistoryOk(r)
    requires sess.id == s.nextID + 1 && sess.id !in s.players
    requires r == s.(drawn := r.drawn, stats := r.stats, players := s.players[sess.id := sess],
                     names := r.names, order := s.order + [sess.id], nextID := sess.id)
    ensures Inv(Admit(r, sess, now))
  {
    hide Registry, OnTheLine, InTheAir;
    match s.st
    case Waiting =>
      BeginCountdownInv(r, now);
    case Countdown =>
      AdmitLate(r, sess, s.players, s.order);
    case Racing =>
      Spectate(s, r, sess);
    case Finished =>
      Spectate(s, r, sess);
  }

  lemma BroadcastInv(s: State, snapNow: int)
    requires Inv(s)
    ensures Inv(AfterBroadcast(s, snapNow))
  {
    hide Registry, OnTheLine, InTheAir;
  }

  lemma JoinInv(s: State, conn: nat, cleaned: Option<string>, now: int, snapNow: int)
    requires Inv(s)
    requires forall id :: id in s.players ==> s.players[id].conn != conn
    ensures Inv(Join(s, conn, cleaned, now, snapNow).0)
  {
    if Refusal(s, cleaned).None? {
      var (r, sess) := Register(s, conn, cleaned.value);
      RegisterRegistry(s, conn, cleaned.value);
      RegisterHistory(s, r);
      AdmitInv(s, r, sess, now);
      BroadcastInv(Admit(r, sess, now), snapNow);
    }
  }

  lemma InvNeeds(s: State)
    requires Inv(s)
    ensures RegistryOk(s) && (s.st != Waiting ==> s.world.Some?)
  {
  }

  // ----- flaps -----

  lemma FlapFlies(s: State, f: State)
    requires s.st == Racing && Inv(s) && RegistryOk(f)
    requires f == s.(players := f.players, pending := f.pending) && f.players.Keys == s.players.Keys
    requires forall id :: id in s.players ==> f.players[id].name == s.players[id].name
    ensures Inv(f)
  {
    hide Registry, Race.Reachable;
    assert forall id :: id in f.players <==> id in s.players;
  }

  lemma CountFlapKeeps(prior: Session, now: int)
    ensures var sess := CountFlap(prior, now).0;
            sess == prior.(flapSec := sess.flapSec, flapCount := sess.flapCount)
  {
  }

  lemma SessionIds(players: map<nat, Session>, order: seq<nat>, names: map<string, nat>, nextID: nat, id: nat)
    requires Registry(players, order, names, nextID) && id in players
    ensures players[id].id == id
  {
  }

  /** Counting a session's flaps does not touch its identity. */
  lemma ReplaceSession(players: map<nat, Session>, order: seq<nat>, names: map<string, nat>, nextID: nat, sess: Session)
    requires Registry(players, order, names, nextID) && sess.id in players
    requires sess == players[sess.id].(flapSec := sess.flapSec, flapCount := sess.flapCount)
    ensures Registry(players[sess.id := sess], order, names, nextID)
  {
  }

  lemma FlapTouches(s: State, sid: nat, now: int)
    requires sid in s.players && RegistryOk(s)
    ensures var f := Flap(s, sid, now);
            && f == s.(players := f.players, pending := f.pending) && RegistryOk(f)
            && f.players.Keys == s.players.Keys
            && forall id :: id in s.players ==> f.players[id].name == s.players[id].name
  {
    hide CountFlap, Registry;
    var f := Flap(s, sid, now);
    var sess := f.players[sid];
    CountFlapKeeps(s.players[sid], now);
    assert f.players == s.players[sid := sess];
    assert s.players[sid].id == sid by { SessionIds(s.players, s.order, s.names, s.nextID, sid); }
    ReplaceSession(s.players, s.order, s.names, s.nextID, sess);
  }

  lemma FlapInv(s: State, sid: nat, now: int)
    requires Inv(s) && sid in s.players
    ensures Inv(Flap(s, sid, now))
  {
    if s.st == Racing {
      FlapTouches(s, sid, now);
      FlapFlies(s, Flap(s, sid, now));
    }
  }

  // ----- leaving -----

  lemma StrikeRegistry(s: State, sid: nat)
    requires RegistryOk(s) && sid in s.players
    ensures RegistryOk(Strike(s, s.players[sid]))
  {
    WorldSpec.WithoutRemoves(s.order, sid);
  }

  lemma DepartCountdown(s: State, sid: nat, now: int)
    requires CountdownOk(s) && s.st == Countdown && sid in s.players && s.players[sid].id == sid
    ensures PhaseOk(Depart(Strike(s, s.players[sid]), sid, now))
    ensures Depart(Strike(s, s.players[sid]), sid, now).st == Waiting || Depart(Strike(s, s.players[sid]), sid, now).st == Countdown
  {
    var struck := Strike(s, s.players[sid]);
    Race.RemoveFromGrid(s.world.value, sid);
    var w := WorldSpec.RemoveBird(s.world.value, sid);
    assert w.birds.Keys == struck.players.Keys;
    assert OnTheLine(w, struck.players, struck.order);
    if w.birds == map[] {
      assert struck.players.Keys == {};
    } else {
      var id :| id in w.birds;
      assert id in struck.players;
    }
  }

  lemma KillKeeps(w: WorldSpec.State, sid: nat)
    ensures var k := WorldSpec.KillLeft(w, sid);
            && k.birds.Keys == w.birds.Keys && k.track == w.track
            && (forall id :: id in w.birds ==> k.birds[id].name == w.birds[id].name)
            && WorldSpec.Living(k) == WorldSpec.Living(w) - {sid}
  {
  }

  lemma DepartRacing(s: State, sid: nat)
    requires RacingOk(s) && s.st == Racing && sid in s.players && s.players[sid].id == sid && sid in s.world.value.birds
    ensures var killed := Strike(s, s.players[sid]).(world := Some(WorldSpec.KillLeft(s.world.value, sid)));
            && Rankable(killed)
            && (WorldSpec.Living(killed.world.value) != {} ==> RacingOk(killed))
  {
    Race.LeftReachable(s.world.value, sid);
    KillKeeps(s.world.value, sid);
  }

  /** A spectator's departure leaves the race alone. */
  lemma SpectatorLeaves(s: State, sid: nat)
    requires s.world.Some? && InTheAir(s.world.value, s.players, s.nextID) && sid in s.players && s.players[sid].id == sid
    ensures InTheAir(s.world.value, s.players - {sid}, s.nextID)
  {
  }

  lemma SessionId(s: State, sid: nat)
    requires RegistryOk(s) && sid in s.players
    ensures s.players[sid].id == sid
  {
  }

  lemma DepartRacingInv(s: State, sid: nat, now: int)
    requires Inv(s) && s.st == Racing && sid in s.players && s.players[sid].id == sid
    requires RegistryOk(Strike(s, s.players[sid]))
    ensures Inv(Depart(Strike(s, s.players[sid]), sid, now))
  {
    hide Registry, InTheAir, WorldSpec.KillLeft;
    var struck := Strike(s, s.players[sid]);
    if sid in s.world.value.birds {
      DepartRacing(s, sid);
      var killed := struck.(world := Some(WorldSpec.KillLeft(s.world.value, sid)));
      if WorldSpec.Living(killed.world.value) == {} {
        FinishRaceInv(killed, now);
      }
    } else {
      SpectatorLeaves(s, sid);
    }
  }

  lemma DepartCountdownInv(s: State, sid: nat, now: int)
    requires Inv(s) && s.st == Countdown && sid in s.players && s.players[sid].id == sid
    requires RegistryOk(Strike(s, s.players[sid]))
    ensures Inv(Depart(Strike(s, s.players[sid]), sid, now))
  {
    hide Registry, OnTheLine, InTheAir, WorldSpec.RemoveBird;
    DepartCountdown(s, sid, now);
  }

  lemma DepartFinishedInv(s: State, sid: nat, now: int)
    requires Inv(s) && s.st == Finished && sid in s.players && s.players[sid].id == sid
    requires RegistryOk(Strike(s, s.players[sid]))
    ensures Inv(Depart(Strike(s, s.players[sid]), sid, now))
  {
    hide Registry, OnTheLine, InTheAir;
    SpectatorLeaves(s, sid);
  }

  lemma DepartInv(s: State, sid: nat, now: int)
    requires Inv(s) && sid in s.players
    ensures Inv(Depart(Strike(s, s.players[sid]), sid, now))
  {
    hide Inv, RegistryOk, Depart, Strike;
    InvNeeds(s);
    WaitingMeansEmpty(s);
    SessionId(s, sid);
    StrikeRegistry(s, sid);
    match s.st
    case Waiting =>
    case Countdown => DepartCountdownInv(s, sid, now);
    case Racing => DepartRacingInv(s, sid, now);
    case Finished => DepartFinishedInv(s, sid, now);
  }

  lemma LeaveInv(s: State, conn: nat, sid: Option<nat>, now: int, snapNow: int)
    requires Inv(s) && (sid.Some? ==> sid.value in s.players)
    ensures Inv(Leave(s, conn, sid, now, snapNow).0)
  {
    hide Inv, Depart;
    if sid.Some? {
      DepartInv(s, sid.value, now);
      BroadcastInv(Depart(Strike(s, s.players[sid.value]), sid.value, now), snapNow);
    }
  }

  // ----- ticking -----

  lemma StepKeeps(w: WorldSpec.State, flaps: set<nat>)
    ensures var k := WorldSpec.Step(w, flaps);
            && k.birds.Keys == w.birds.Keys
            && (forall id :: id in w.birds ==> k.birds[id].name == w.birds[id].name)
            && WorldSpec.Living(k) <= WorldSpec.Living(w)
  {
    var k := WorldSpec.Step(w, flaps);
    forall id | id in w.birds
      ensures k.birds[id].name == w.birds[id].name && (w.birds[id].dead ==> k.birds[id].dead)
    {
      Race.TickKeepsId(w.birds[id], id in flaps, k.track.tick, k.track.pipes);
    }
  }

  lemma TickRacing(s: State)
    requires RacingOk(s) && s.st == Racing
    ensures var stepped := s.(world := Some(WorldSpec.Step(s.world.value, s.pending)), pending := {});
            && Rankable(stepped)
            && (WorldSpec.Living(stepped.world.value) != {} && stepped.world.value.track.tick < MAX_RACE_TICKS
                ==> RacingOk(stepped))
  {
    Race.StepReachable(s.world.value, s.pending);
    Race.StepTrack(s.world.value, s.pending);
    StepKeeps(s.world.value, s.pending);
  }

  lemma TakeOff(s: State)
    requires CountdownOk(s) && RegistryOk(s) && s.st == Countdown
    ensures RacingOk(s.(st := Racing, started := s.started + 1))
  {
    hide Race.Reachable;
    var w := s.world.value;
    Race.GridReachable(w);
    var id :| id in s.players;
    assert id in WorldSpec.Living(w);
  }

  lemma TickCountdownInv(s: State, now: int)
    requires Inv(s) && s.st == Countdown
    ensures Inv(TickState(s, now))
  {
    hide Registry, OnTheLine, InTheAir, WorldSpec.Living;
    if now >= s.goAt {
      InvNeeds(s);
      TakeOff(s);
    }
  }

  lemma TickRacingInv(s: State, now: int)
    requires Inv(s) && s.st == Racing
    ensures Inv(TickState(s, now))
  {
    hide Registry, InTheAir, WorldSpec.Step, FinishRace;
    TickRacing(s);
    if RaceIsOver(Flown(s).world.value) {
      FinishRaceInv(Flown(s), now);
    }
  }

  lemma TickFinishedInv(s: State, now: int)
    requires Inv(s) && s.st == Finished
    ensures Inv(TickState(s, now))
  {
    hide RegistryOk, InTheAir, BeginCountdown;
    if now >= s.finishAt {
      BeginCountdownInv(s, now);
    }
  }

  lemma TickStateInv(s: State, now: int)
    requires Inv(s)
    ensures Inv(TickState(s, now))
  {
    hide Inv;
    match s.st
    case Waiting =>
    case Countdown => TickCountdownInv(s, now);
    case Racing => TickRacingInv(s, now);
    case Finished => TickFinishedInv(s, now);
  }

  lemma TickInv(s: State, now: int, snapNow: int)
    requires Inv(s)
    ensures Inv(Tick(s, now, snapNow).0)
  {
    TickStateInv(s, now);
    BroadcastInv(TickState(s, now), snapNow);
  }
}
