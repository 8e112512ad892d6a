/** The hub: the program of hub.go, proved against `HubSpec`.

    Queue operations are appended to `outbox`; the queues themselves are in `SendQueue`. */
module Hub {
  import opened Options
  import opened Protocol
  import opened StoreSpec
  import Rng
  import WorldSpec
  import World
  import Store
  import Rank
  import Names
  import opened HubSpec
  import opened HubInvariant

  /** One close for each of the given players, and nothing else. */
  ghost predicate ClosesAll(players: map<nat, Session>, ids: set<nat>, acts: seq<Act>) {
    && |acts| == |ids|
    && (forall id :: id in ids && id in players ==> Close(players[id].conn) in acts)
    && (forall i :: 0 <= i < |acts| ==> exists id :: id in ids && id in players && acts[i] == Close(players[id].conn))
  }

  lemma NobodyClosed(players: map<nat, Session>)
    ensures ClosesAll(players, {}, [])
  {
  }

  lemma CloseOneMore(players: map<nat, Session>, ids: set<nat>, acts: seq<Act>, id: nat)
    requires ClosesAll(players, ids, acts) && id !in ids && id in players
    ensures ClosesAll(players, ids + {id}, acts + [Close(players[id].conn)])
  {
    var more := acts + [Close(players[id].conn)];
    assert more[|acts|] == Close(players[id].conn);
    forall x | x in ids && x in players
      ensures Close(players[x].conn) in more
    {
      assert Close(players[x].conn) in acts;
    }
  }

  lemma IdleTick(s: State, now: int, snapNow: int)
    requires s.st == Waiting
    ensures HubSpec.Tick(s, now, snapNow) == (s, [])
  {
  }

  lemma FlownKeeps(s: State)
    requires s.world.Some?
    ensures Flown(s) == s.(world := Flown(s).world, pending := {})
    ensures Flown(s).world == Some(WorldSpec.Step(s.world.value, s.pending))
  {
  }

  lemma FinishChangesPhase(s: State, now: int)
    requires s.world.Some? && s.st == Racing
    ensures HubSpec.FinishRace(s, now).st != Racing
  {
  }

  lemma BeginChangesPhase(s: State, now: int)
    ensures HubSpec.BeginCountdown(s, now).st == Countdown
  {
  }

  lemma StrikeKeepsPhase(s: State, sess: Session)
    ensures HubSpec.Strike(s, sess).st == s.st && HubSpec.Strike(s, sess).world == s.world
  {
  }

  lemma DrawKeeps(s: State, now: int)
    ensures HubSpec.DrawRace(s, now).players == s.players && HubSpec.DrawRace(s, now).order == s.order
  {
  }

  lemma OrderIsKnown(s: State)
    requires RegistryOk(s)
    ensures forall i :: 0 <= i < |s.order| ==> s.order[i] in s.players
    ensures forall i, j :: 0 <= i < j < |s.order| ==> s.order[i] != s.order[j]
    ensures forall id :: id in s.players ==> s.players[id].id == id
  {
  }

  lemma IdleBroadcast(s: State, snapNow: int)
    requires s.st == Waiting
    ensures AfterBroadcast(s, snapNow) == s && HubSpec.Broadcast(s, snapNow) == []
  {
  }

  class Hub {
    const cfg: Config
    var players: map<nat, Session>
    var order: seq<nat>
    var names: map<string, nat>
    var nextID: nat
    var st: Phase
    var goAt: int
    var finishAt: int
    var lastSnap: int
    var world: World.World?
    var raceInfo: map<nat, RaceInfo>
    var results: seq<ResultSnap>
    var theme: nat
    var seed: Rng.Word
    var lastTheme: nat
    var pendingFlaps: set<nat>
    const rng: Rng.RNG
    const store: Store.Store
    var outbox: seq<Act>
    ghost var begun: seq<nat>
    ghost var started: nat
    ghost var finished: nat

    ghost function Footprint(): set<object>
      reads this
    {
      if world == null then {this, rng, store} else {this, rng, store, world, world.rng}
    }

    /** The objects a hub owns are valid and its generator is its own. */
    ghost predicate Sound()
      reads Footprint()
    {
      && rng.Valid() && store.Valid()
      && (world != null ==> world.Valid() && world.rng != rng)
    }

    ghost function WorldView(): Option<WorldSpec.State>
      reads Footprint()
    {
      if world == null then None else Some(world.Value())
    }

    ghost function View(): State
      reads Footprint()
    {
      State(cfg, players, order, names, nextID, st, goAt, finishAt, lastSnap, WorldView(), raceInfo, results,
            theme, seed, lastTheme, pendingFlaps, SeedWords(rng.seed), rng.drawn, store.players,
            begun, started, finished)
    }

    ghost predicate Valid()
      reads Footprint()
    {
      Sound() && Inv(View())
    }

    constructor (cfg: Config, store: Store.Store, seed: Rng.Word)
      requires store.Valid()
      ensures Valid() && fresh(Footprint() - {store})
      ensures View() == New(cfg, SeedWords(seed), store.players) && outbox == []
    {
      this.cfg, this.store := cfg, store;
      rng := new Rng.RNG(seed);
      players, order, names, nextID := map[], [], map[], 0;
      st, goAt, finishAt, lastSnap := Waiting, 0, 0, 0;
      world, raceInfo, results := null, map[], [];
      theme, this.seed, lastTheme := 0, 0, 0;
      pendingFlaps, outbox := {}, [];
      begun, started, finished := [], 0, 0;
      new;
      NewInv(cfg, SeedWords(seed), store.players);
    }

    // ----- broadcasting -----

    method CountSpectators() returns (n: nat)
      requires Sound()
      ensures n == SpectatorCount(View(), order)
    {
      n := 0;
      for i := 0 to |order|
        invariant n == SpectatorCount(View(), order[..i])
      {
        var id := order[i];
        assert order[..i + 1][..i] == order[..i];
        if id in players && (world == null || id !in world.birds) {
          n := n + 1;
        }
      }
      assert order[..|order|] == order;
    }

    method Snapshot(now: int) returns (snap: Protocol.Snapshot)
      requires Sound()
      ensures snap == SnapshotOf(View(), now)
    {
      var wait := CountSpectators();
      var res := if st == Finished then results else [];
      if world != null {
        var birds := world.BirdSnaps();
        var pipes := world.PipeSnaps();
        snap := Protocol.Snapshot(now, world.tick, st, goAt, theme, seed, world.dist, wait, birds, pipes, res);
      } else {
        snap := Protocol.Snapshot(now, 0, st, goAt, theme, seed, 0.0, wait, [], [], res);
      }
    }

    /** One snapshot, the same for everybody. */
    method Broadcast(snapNow: int)
      requires Sound()
      modifies this`lastSnap, this`outbox
      ensures Sound()
      ensures View() == AfterBroadcast(old(View()), snapNow)
      ensures outbox == old(outbox) + HubSpec.Broadcast(old(View()), snapNow)
    {
      hide SnapshotOf, World.World.Value, WorldSpec.Registered, IsTop, Rng.StateAt;
      if st == Waiting || players == map[] {
        return;
      }
      var snap := Snapshot(snapNow);
      lastSnap := snapNow;
      for i := 0 to |order|
        invariant lastSnap == snapNow
        invariant outbox == old(outbox) + ToAll(players, order[..i], Snap(snap))
      {
        var id := order[i];
        assert order[..i + 1][..i] == order[..i];
        if id in players {
          outbox := outbox + [Enqueue(players[id].conn, Snap(snap))];
        }
      }
      assert order[..|order|] == order;
    }

    method MaybeSnapshot(now: int, snapNow: int)
      requires Sound()
      modifies this`lastSnap, this`outbox
      ensures Sound()
      ensures View() == if SnapshotDue(old(View()), now) then AfterBroadcast(old(View()), snapNow) else old(View())
      ensures outbox == old(outbox) + if SnapshotDue(old(View()), now) then HubSpec.Broadcast(old(View()), snapNow) else []
    {
      hide AfterBroadcast, HubSpec.Broadcast;
      if now - lastSnap >= cfg.snapshotEvery {
        Broadcast(snapNow);
      }
    }

    // ----- starting and finishing races -----

    method PickTheme() returns (t: nat)
      requires Sound()
      modifies rng
      ensures Sound() && rng.drawn == old(rng.drawn) + 1
      ensures t == HubSpec.PickTheme(SeedWords(rng.seed)(rng.drawn), lastTheme)
    {
      var word := rng.Next();
      t := word % THEME_COUNT;
      if t == lastTheme {
        t := (t + 1) % THEME_COUNT;
      }
    }

    method FillLine(seed: Rng.Word) returns (w: World.World)
      requires forall i :: 0 <= i < |order| ==> order[i] in players
      ensures w.Valid() && fresh(w) && fresh(w.rng)
      ensures w.Value() == LineUp(players, order, WorldSpec.New(WorldSpec.SeedDraws(seed)))
    {
      hide WorldSpec.AddBird, WorldSpec.SeedDraws, WorldSpec.Registered;
      w := new World.World(seed);
      ghost var w0 := w.Value();
      for i := 0 to |order|
        invariant w.Valid() && fresh(w) && fresh(w.rng)
        invariant w.Value() == LineUp(players, order[..i], w0)
      {
        var id := order[i];
        assert order[..i + 1][..i] == order[..i];
        var s := players[id];
        w.AddBird(id, s.name, s.bird.palette, s.bird.accessory);
      }
      assert order[..|order|] == order;
    }

    method CollectInfo() returns (infos: map<nat, RaceInfo>)
      requires forall i :: 0 <= i < |order| ==> order[i] in players
      ensures infos == InfosOf(players, order)
    {
      infos := map[];
      for i := 0 to |order|
        invariant infos == InfosOf(players, order[..i])
      {
        var id := order[i];
        assert order[..i + 1] == order[..i] + [id];
        infos := infos[id := InfoOf(players[id])];
      }
      assert order[..|order|] == order;
    }

    method SetUpRace()
      requires Sound() && forall i :: 0 <= i < |order| ==> order[i] in players
      modifies this`world, this`raceInfo
      ensures Sound() && world != null && fresh(world) && fresh(world.rng)
      ensures View() == HubSpec.SetUpRace(old(View()))
    {
      hide LineUp, InfosOf, WorldSpec.Registered, IsTop, World.World.Value, WorldSpec.SeedDraws, HubSpec.SeedWords,
           Rng.StateAt;
      var infos := CollectInfo();
      var line := FillLine(seed);
      world, raceInfo := line, infos;
    }

    method DrawSeedAndTheme() returns (word: Rng.Word, picked: nat)
      requires Sound()
      modifies rng
      ensures Sound() && rng.drawn == old(rng.drawn) + 2
      ensures word == SeedWords(rng.seed)(old(rng.drawn) + 1)
      ensures picked == HubSpec.PickTheme(SeedWords(rng.seed)(old(rng.drawn) + 2), lastTheme)
    {
      hide HubSpec.PickTheme, WorldSpec.Registered, IsTop, Rng.StateAt, Rng.Draw;
      word := rng.Next();
      picked := PickTheme();
    }

    method OpenCountdown(now: int, word: Rng.Word, picked: nat)
      requires rng.drawn >= 1
      modifies this`st, this`goAt, this`seed, this`theme, this`results, this`begun
      ensures st == Countdown && goAt == now + cfg.countdown && seed == word && theme == picked && results == []
      ensures begun == old(begun) + [rng.drawn - 1]
    {
      st, goAt, seed, theme, results := Countdown, now + cfg.countdown, word, picked, [];
      begun := begun + [rng.drawn - 1];
    }

    /** The new race's clock, seed and theme. */
    method DrawRace(now: int)
      requires Sound()
      modifies this`st, this`goAt, this`seed, this`theme, this`results, this`begun, rng
      ensures Sound()
      ensures View() == HubSpec.DrawRace(old(View()), now)
    {
      hide HubSpec.PickTheme, WorldSpec.Registered, IsTop, World.World.Value, Rng.StateAt, Rng.Draw;
      var word, picked := DrawSeedAndTheme();
      OpenCountdown(now, word, picked);
    }

    /** A fresh world with a new seed and theme, and every connected player on its line. */
    method BeginCountdown(now: int)
      requires Sound() && RegistryOk(View())
      modifies this`st, this`goAt, this`seed, this`theme, this`world, this`raceInfo, this`results, this`begun, rng
      ensures Sound() && world != null && fresh(world) && fresh(world.rng)
      ensures View() == HubSpec.BeginCountdown(old(View()), now)
    {
      hide RegistryOk, HubSpec.DrawRace, HubSpec.SetUpRace, World.World.Value, World.World.Valid, HubSpec.SeedWords,
           WorldSpec.Registered, IsTop, Rng.StateAt;
      OrderIsKnown(View());
      DrawKeeps(View(), now);
      DrawRace(now);
      SetUpRace();
    }

    method CollectEntries() returns (entries: seq<RaceEntry>)
      ensures entries == EntriesOf(results, raceInfo)
    {
      entries := [];
      for i := 0 to |results|
        invariant |entries| == i
        invariant forall k :: 0 <= k < i ==> entries[k] == EntriesOf(results, raceInfo)[k]
      {
        var r := results[i];
        var bird := if r.id in raceInfo then raceInfo[r.id].bird else Plumage(0, 0);
        entries := entries + [RaceEntry(r.name, r.score, r.rank, bird)];
      }
    }

    method RateRace(now: int)
      requires Sound() && world != null
      modifies this`results, this`lastTheme, this`finished, store
      ensures Sound()
      ensures View() == Rate(old(View()), now)
    {
      hide Rank.Results, Record, WorldSpec.Registered, IsTop, EntriesOf, Rng.StateAt, HubSpec.SeedWords;
      ghost var before := View();
      results := world.Results();
      lastTheme := theme;
      finished := finished + 1;
      var entries := CollectEntries();
      store.RecordRace(entries, theme, now);
    }

    method GoIdle()
      requires Sound()
      modifies this`st, this`world, this`raceInfo, this`results
      ensures Sound() && world == null && View() == Idle(old(View()))
    {
      hide WorldSpec.Registered, IsTop, Rng.StateAt, World.World.Value;
      st := Waiting;
      world, raceInfo, results := null, map[], [];
    }

    method CloseRace(now: int)
      requires Sound() && world != null
      modifies this`results, this`lastTheme, this`finished, this`st, this`world, this`raceInfo, this`finishAt, store
      ensures Sound() && (world == old(world) || world == null)
      ensures View() == HubSpec.FinishRace(old(View()), now)
    {
      hide Rate, World.World.Value, WorldSpec.Registered, IsTop, Rng.StateAt;
      RateRace(now);
      if players == map[] {
        GoIdle();
      } else {
        st := Finished;
        finishAt := now + cfg.results;
      }
    }

    /** Ranks and records the race, then opens the results window or goes idle. */
    method FinishRace(now: int, snapNow: int)
      requires Sound() && world != null
      modifies this`results, this`lastTheme, this`finished, this`st, this`world, this`raceInfo, this`finishAt,
               this`lastSnap, this`outbox, store
      ensures Sound() && (world == old(world) || world == null)
      ensures View() == AfterBroadcast(HubSpec.FinishRace(old(View()), now), snapNow)
      ensures outbox == old(outbox) + HubSpec.Broadcast(HubSpec.FinishRace(old(View()), now), snapNow)
    {
      hide AfterBroadcast, HubSpec.Broadcast, HubSpec.FinishRace;
      CloseRace(now);
      if st == Waiting {
        IdleBroadcast(View(), snapNow);
        return;
      }
      Broadcast(snapNow);
    }

    // ----- joining -----

    method UniqueName(base: string) returns (name: string)
      ensures name == Names.UniqueName(base, names)
    {
      name := Names.FindUniqueName(base, names);
    }

    method BirdTaken(bird: Plumage) returns (taken: bool)
      ensures taken <==> bird in TakenBirds(players)
    {
      taken := false;
      var todo := players.Keys;
      while todo != {}
        invariant todo <= players.Keys
        invariant taken <==> exists id :: id in players.Keys - todo && players[id].bird == bird
        decreases todo
      {
        var id :| id in todo;
        todo := todo - {id};
        if players[id].bird == bird {
          taken := true;
        }
      }
    }

    method DrawBird() returns (bird: Plumage)
      requires rng.Valid()
      modifies rng
      ensures rng.Valid() && rng.drawn == old(rng.drawn) + 2
      ensures bird == BirdAt(SeedWords(rng.seed), old(rng.drawn))
    {
      hide Rng.StateAt, Rng.Draw;
      var p := rng.Next();
      var a := rng.Next();
      bird := Plumage(p % PALETTE_COUNT, a % ACCESSORY_COUNT);
    }

    method RandomBird() returns (bird: Plumage)
      requires rng.Valid()
      modifies rng
      ensures rng.Valid()
      ensures (bird, rng.drawn) == RollBird(SeedWords(rng.seed), old(rng.drawn), TakenBirds(players), 32)
    {
      hide TakenBirds, BirdAt, SeedWords, Rng.StateAt;
      ghost var words, taken := SeedWords(rng.seed), TakenBirds(players);
      for tries := 32 downto 0
        invariant rng.Valid()
        invariant RollBird(words, rng.drawn, taken, tries) == RollBird(words, old(rng.drawn), taken, 32)
      {
        bird := DrawBird();
        var worn := BirdTaken(bird);
        if !worn {
          return;
        }
      }
      bird := DrawBird();
    }

    method Dress(name: string) returns (bird: Plumage)
      requires Sound()
      modifies rng, store
      ensures Sound()
      ensures (View(), bird) == HubSpec.Dress(old(View()), name)
    {
      hide RollBird, TakenBirds, WorldSpec.Registered, IsTop, Rng.StateAt, World.World.Value, Remember;
      var (remembered, known) := store.LookupBird(name);
      if known {
        return remembered;
      }
      bird := RandomBird();
      store.RememberBird(name, bird);
    }

    method Enlist(sess: Session)
      requires Sound()
      modifies this`players, this`names, this`order, this`nextID
      ensures Sound() && View() == HubSpec.Enlist(old(View()), sess)
    {
      hide WorldSpec.Registered, IsTop, Rng.StateAt;
      players, names := players[sess.id := sess], names[sess.name := sess.id];
      order, nextID := order + [sess.id], sess.id;
    }

    method Register(conn: nat, base: string) returns (sess: Session)
      requires Sound()
      modifies this`players, this`names, this`order, this`nextID, rng, store
      ensures Sound()
      ensures (View(), sess) == HubSpec.Register(old(View()), conn, base)
    {
      hide HubSpec.Dress, HubSpec.Enlist, WorldSpec.Registered, IsTop, Rng.StateAt;
      var name := UniqueName(base);
      var id := nextID + 1;
      var bird := Dress(name);
      sess := Session(id, name, bird, conn, 0, 0);
      DressKeeps(old(View()), name);
      Enlist(sess);
    }

    method AdmitRacer(sess: Session)
      requires Sound() && world != null
      modifies this`raceInfo, world
      ensures Sound() && world.rng == old(world.rng)
      ensures View() == HubSpec.AdmitRacer(old(View()), sess)
    {
      hide WorldSpec.AddBird, IsTop, Rng.StateAt;
      world.AddBird(sess.id, sess.name, sess.bird.palette, sess.bird.accessory);
      raceInfo := raceInfo[sess.id := InfoOf(sess)];
    }

    method Reject(conn: nat, msg: string)
      modifies this`outbox
      ensures outbox == old(outbox) + HubSpec.Reject(conn, msg)
    {
      outbox := outbox + [Enqueue(conn, Error(msg))];
      outbox := outbox + [Close(conn)];
    }

    method SendWelcome(sess: Session, now: int)
      requires Sound()
      modifies this`outbox
      ensures Sound() && View() == old(View())
      ensures outbox == old(outbox) + [Enqueue(sess.conn, WelcomeFor(View(), sess, now))]
    {
      var goAt, seed := if st != Waiting then goAt else 0, if st != Waiting then seed else 0;
      outbox := outbox + [Enqueue(sess.conn, Welcome(sess.id, sess.name, sess.bird, now, st, goAt, theme, seed,
                                                     st == Racing || st == Finished))];
    }

    /** The first connection starts the race cycle; until the go, a late one still races. */
    method Admit(sess: Session, now: int)
      requires Sound() && RegistryOk(View()) && (st == Countdown ==> world != null)
      modifies this`st, this`goAt, this`seed, this`theme, this`world, this`raceInfo, this`results, this`begun, rng, world
      ensures Sound() && fresh(Footprint() - old(Footprint()))
      ensures View() == HubSpec.Admit(old(View()), sess, now)
    {
      hide Registry, HubSpec.BeginCountdown, HubSpec.AdmitRacer, WorldSpec.Registered, IsTop, Rng.StateAt;
      if st == Waiting {
        BeginCountdown(now);
      } else if st == Countdown {
        AdmitRacer(sess);
      }
    }

    method Greet(sess: Session, now: int, snapNow: int)
      requires Sound()
      modifies this`lastSnap, this`outbox
      ensures Sound()
      ensures View() == AfterBroadcast(old(View()), snapNow)
      ensures outbox == old(outbox) + ([Enqueue(sess.conn, WelcomeFor(old(View()), sess, now))]
                                       + HubSpec.Broadcast(old(View()), snapNow))
    {
      hide HubSpec.Broadcast, AfterBroadcast, WelcomeFor, WorldSpec.Registered, IsTop, Rng.StateAt;
      SendWelcome(sess, now);
      Broadcast(snapNow);
    }

    method Accept(conn: nat, base: string, now: int, snapNow: int)
      requires Sound() && RegistryOk(View()) && (st == Countdown ==> world != null)
      requires forall id :: id in players ==> players[id].conn != conn
      modifies this, rng, store, world
      ensures Sound() && fresh(Footprint() - old(Footprint()))
      ensures View() == HubSpec.Accept(old(View()), conn, base, now, snapNow).0
      ensures outbox == old(outbox) + HubSpec.Accept(old(View()), conn, base, now, snapNow).1
    {
      hide RegistryOk, HubSpec.Admit, HubSpec.Register, HubSpec.Broadcast, AfterBroadcast, WelcomeFor,
           WorldSpec.Registered, IsTop, Rng.StateAt, World.World.Value;
      RegisterRegistry(View(), conn, base);
      var sess := Register(conn, base);
      Admit(sess, now);
      Greet(sess, now, snapNow);
    }

    /** Refuses, or registers and admits the newcomer, and welcomes it before anybody hears of it. */
    method HandleJoin(conn: nat, cleaned: Option<string>, now: int, snapNow: int) returns (joined: bool)
      requires Valid()
      requires forall id :: id in players ==> players[id].conn != conn
      modifies this, rng, store, world
      ensures Valid() && fresh(Footprint() - old(Footprint()))
      ensures View() == Join(old(View()), conn, cleaned, now, snapNow).0
      ensures outbox == old(outbox) + Join(old(View()), conn, cleaned, now, snapNow).1
      ensures joined <==> Refusal(old(View()), cleaned).None?
    {
      hide Inv, HubSpec.Accept, RegistryOk, WorldSpec.Registered, IsTop, Rng.StateAt;
      JoinInv(View(), conn, cleaned, now, snapNow);
      InvNeeds(View());
      joined := |players| < cfg.maxPlayers && cleaned.Some?;
      if |players| >= cfg.maxPlayers {
        Reject(conn, FULL);
      } else if cleaned.None? {
        Reject(conn, NAMELESS);
      } else {
        Accept(conn, cleaned.value, now, snapNow);
      }
    }

    // ----- flaps -----

    method RateLimit(sid: nat, now: int) returns (counts: bool)
      requires Sound() && sid in players
      modifies this`players
      ensures Sound()
      ensures var (sess, counted) := HubSpec.CountFlap(old(players[sid]), now);
              players == old(players)[sid := sess] && counts == counted
    {
      hide WorldSpec.Registered, IsTop, Rng.StateAt;
      var sess := players[sid];
      if sess.flapSec != Seconds(now) {
        sess := sess.(flapSec := Seconds(now), flapCount := 0);
      }
      counts := sess.flapCount < FLAP_RATE_LIMIT;
      if counts {
        sess := sess.(flapCount := sess.flapCount + 1);
      }
      players := players[sid := sess];
    }

    method HandleFlap(sid: nat, now: int)
      requires Valid() && sid in players
      modifies this`players, this`pendingFlaps
      ensures Valid() && View() == Flap(old(View()), sid, now)
    {
      hide Inv, CountFlap, WorldSpec.Registered, IsTop, Rng.StateAt;
      FlapInv(View(), sid, now);
      InvNeeds(View());
      if st == Racing {
        var counts := RateLimit(sid, now);
        if counts && sid in world.birds {
          pendingFlaps := pendingFlaps + {sid};
        }
      }
    }

    // ----- leaving -----

    method DropFromOrder(id: nat)
      requires forall i, j :: 0 <= i < j < |order| ==> order[i] != order[j]
      modifies this`order
      ensures order == WorldSpec.Without(old(order), id)
    {
      WorldSpec.WithoutRemoves(order, id);
      for i := 0 to |order|
        invariant order == old(order) && id !in order[..i]
      {
        if order[i] == id {
          WorldSpec.WithoutAt(order, i);
          order := order[..i] + order[i + 1..];
          return;
        }
      }
      WorldSpec.WithoutAbsent(order, id);
    }

    method Strike(sess: Session)
      requires Sound() && forall i, j :: 0 <= i < j < |order| ==> order[i] != order[j]
      modifies this`players, this`names, this`order
      ensures Sound() && View() == HubSpec.Strike(old(View()), sess)
    {
      hide WorldSpec.Registered, IsTop, Rng.StateAt, World.World.Value, WorldSpec.Without;
      players, names := players - {sess.id}, names - {sess.name};
      DropFromOrder(sess.id);
    }

    /** A racer leaves the starting line; the last one takes the race with it. */
    method LeaveLine(id: nat)
      requires Sound() && st == Countdown && world != null && id in world.birds
      modifies this`st, this`world, this`raceInfo, this`results, world
      ensures Sound() && (world == old(world) || world == null)
      ensures forall now :: View() == HubSpec.Depart(old(View()), id, now)
    {
      hide WorldSpec.Registered, IsTop, Rng.StateAt, WorldSpec.RemoveBird;
      world.RemoveBird(id);
      raceInfo := raceInfo - {id};
      if world.birds == map[] {
        GoIdle();
      }
    }

    /** Whoever stays is shown the line without it. */
    method LeaveGrid(id: nat, now: int, snapNow: int)
      requires Sound() && st == Countdown && world != null && id in world.birds
      modifies this`st, this`world, this`raceInfo, this`results, this`lastSnap, this`outbox, world
      ensures Sound() && (world == old(world) || world == null)
      ensures View() == AfterBroadcast(HubSpec.Depart(old(View()), id, now), snapNow)
      ensures outbox == old(outbox) + HubSpec.Broadcast(HubSpec.Depart(old(View()), id, now), snapNow)
    {
      hide WorldSpec.Registered, IsTop, Rng.StateAt, HubSpec.Depart, AfterBroadcast, HubSpec.Broadcast, World.World.Value;
      LeaveLine(id);
      Broadcast(snapNow);
    }

    /** A racer leaves in flight: its bird dies, and the last one to die ends the race. */
    method LeaveAir(id: nat, now: int, snapNow: int)
      requires Sound() && st == Racing && world != null && id in world.birds
      modifies this`results, this`lastTheme, this`finished, this`st, this`world, this`raceInfo, this`finishAt,
               this`lastSnap, this`outbox, store, world
      ensures Sound() && (world == old(world) || world == null)
      ensures View() == AfterBroadcast(HubSpec.Depart(old(View()), id, now), snapNow)
      ensures outbox == old(outbox) + HubSpec.Broadcast(HubSpec.Depart(old(View()), id, now), snapNow)
    {
      hide WorldSpec.Registered, IsTop, Rng.StateAt, WorldSpec.KillLeft, HubSpec.FinishRace, AfterBroadcast,
           HubSpec.Broadcast, WorldSpec.Living;
      world.KillLeft(id);
      var alive := world.Alive();
      if alive == 0 {
        FinishRace(now, snapNow);
      } else {
        Broadcast(snapNow);
      }
    }

    method Depart(id: nat, now: int, snapNow: int)
      requires Sound() && (st != Waiting ==> world != null)
      modifies this`results, this`lastTheme, this`finished, this`st, this`world, this`raceInfo, this`finishAt,
               this`lastSnap, this`outbox, store, world
      ensures Sound() && (world == old(world) || world == null)
      ensures View() == Departed(old(View()), id, now, snapNow).0
      ensures outbox == old(outbox) + Departed(old(View()), id, now, snapNow).1
    {
      hide WorldSpec.Registered, IsTop, Rng.StateAt, HubSpec.FinishRace, AfterBroadcast,
           HubSpec.Broadcast, WorldSpec.Living, WorldSpec.RemoveBird, WorldSpec.KillLeft, World.World.TrackState;
      if st == Countdown && id in world.birds {
        LeaveGrid(id, now, snapNow);
      } else if st == Racing && id in world.birds {
        LeaveAir(id, now, snapNow);
      } else if st == Finished && players == map[] {
        GoIdle();
      }
    }

    method Release(sid: nat, now: int, snapNow: int)
      requires Sound() && RegistryOk(View()) && (st != Waiting ==> world != null) && sid in players
      modifies this, store, world
      ensures Sound() && (world == old(world) || world == null)
      ensures View() == Departed(HubSpec.Strike(old(View()), old(players[sid])), sid, now, snapNow).0
      ensures outbox == old(outbox) + Departed(HubSpec.Strike(old(View()), old(players[sid])), sid, now, snapNow).1
    {
      hide RegistryOk, WorldSpec.Registered, IsTop, Rng.StateAt, Departed, HubSpec.Strike, World.World.Value;
      OrderIsKnown(View());
      var sess := players[sid];
      StrikeKeepsPhase(View(), sess);
      Strike(sess);
      Depart(sid, now, snapNow);
    }

    /** The leaver is struck first and its queue closed last: no broadcast in between can reach it. */
    method HandleLeave(conn: nat, sid: Option<nat>, now: int, snapNow: int)
      requires Valid() && (sid.Some? ==> sid.value in players)
      modifies this, store, world
      ensures Valid() && (world == old(world) || world == null)
      ensures View() == Leave(old(View()), conn, sid, now, snapNow).0
      ensures outbox == old(outbox) + Leave(old(View()), conn, sid, now, snapNow).1
    {
      hide Inv, RegistryOk, WorldSpec.Registered, IsTop, Rng.StateAt, Departed, HubSpec.Strike, World.World.Value;
      LeaveInv(View(), conn, sid, now, snapNow);
      InvNeeds(View());
      if sid.Some? {
        Release(sid.value, now, snapNow);
      }
      outbox := outbox + [Close(conn)];
    }

    // ----- ticking -----

    method TakeOff()
      requires Sound()
      modifies this`st, this`started
      ensures Sound() && View() == old(View()).(st := Racing, started := old(started) + 1)
    {
      hide World.World.Valid, Store.Store.Valid, Rng.RNG.Valid, World.World.Value, HubSpec.SeedWords;
      st, started := Racing, started + 1;
    }

    method TickCountdown(now: int, snapNow: int)
      requires Sound() && st == Countdown
      modifies this`st, this`started, this`lastSnap, this`outbox
      ensures Sound()
      ensures View() == HubSpec.Tick(old(View()), now, snapNow).0
      ensures outbox == old(outbox) + HubSpec.Tick(old(View()), now, snapNow).1
    {
      hide World.World.Valid, Store.Store.Valid, Rng.RNG.Valid, AfterBroadcast, HubSpec.Broadcast, World.World.Value,
           HubSpec.SeedWords;
      if now >= goAt {
        TakeOff();
        Broadcast(snapNow);
      } else {
        MaybeSnapshot(now, snapNow);
      }
    }

    method Fly()
      requires Sound() && st == Racing && world != null
      modifies this`pendingFlaps, world, world.rng
      ensures Sound()
      ensures View() == Flown(old(View()))
    {
      hide WorldSpec.Registered, IsTop, Rng.StateAt, WorldSpec.Step;
      var flaps := pendingFlaps;
      pendingFlaps := {};
      world.Step(flaps);
    }

    method TickRacing(now: int, snapNow: int)
      requires Sound() && st == Racing && world != null
      modifies this`pendingFlaps, this`results, this`lastTheme, this`finished, this`st, this`world, this`raceInfo,
               this`finishAt, this`lastSnap, this`outbox, store, world, world.rng
      ensures Sound() && (world == old(world) || world == null)
      ensures View() == HubSpec.Tick(old(View()), now, snapNow).0
      ensures outbox == old(outbox) + HubSpec.Tick(old(View()), now, snapNow).1
    {
      hide WorldSpec.Registered, IsTop, Rng.StateAt, AfterBroadcast, HubSpec.Broadcast, HubSpec.FinishRace,
           Flown, WorldSpec.Living;
      FlownKeeps(View());
      FinishChangesPhase(Flown(View()), now);
      Fly();
      var alive := world.Alive();
      if alive == 0 || world.tick >= MAX_RACE_TICKS {
        FinishRace(now, snapNow);
      } else {
        MaybeSnapshot(now, snapNow);
      }
    }

    method TickFinished(now: int, snapNow: int)
      requires Sound() && RegistryOk(View()) && st == Finished
      modifies this`st, this`goAt, this`seed, this`theme, this`world, this`raceInfo, this`results, this`begun,
               this`lastSnap, this`outbox, rng
      ensures Sound() && fresh(Footprint() - old(Footprint()))
      ensures View() == HubSpec.Tick(old(View()), now, snapNow).0
      ensures outbox == old(outbox) + HubSpec.Tick(old(View()), now, snapNow).1
    {
      hide RegistryOk, World.World.Valid, Store.Store.Valid, Rng.RNG.Valid, AfterBroadcast, HubSpec.Broadcast,
           HubSpec.BeginCountdown, World.World.Value, HubSpec.SeedWords, SnapshotDue;
      BeginChangesPhase(View(), now);
      if now < finishAt {
        MaybeSnapshot(now, snapNow);
      } else if players != map[] {
        BeginCountdown(now);
        Broadcast(snapNow);
      } else {
        GoIdle();
        IdleBroadcast(View(), snapNow);
      }
    }

    /** One tick, sixty times a second. */
    method Tick(now: int, snapNow: int)
      requires Valid()
      modifies this, rng, store, world, if world != null then {world.rng} else {}
      ensures Valid() && fresh(Footprint() - old(Footprint()))
      ensures View() == HubSpec.Tick(old(View()), now, snapNow).0
      ensures outbox == old(outbox) + HubSpec.Tick(old(View()), now, snapNow).1
    {
      hide Inv, RegistryOk, WorldSpec.Registered, IsTop, Rng.StateAt, World.World.Value, HubSpec.Tick;
      TickInv(View(), now, snapNow);
      InvNeeds(View());
      match st
      case Waiting => IdleTick(View(), now, snapNow);
      case Countdown => TickCountdown(now, snapNow);
      case Racing => TickRacing(now, snapNow);
      case Finished => TickFinished(now, snapNow);
    }

    /** Closes every player's queue once; the order of the visits does not matter. */
    method Shutdown() returns (ghost closes: seq<Act>)
      requires Sound()
      modifies this`outbox
      ensures Sound() && View() == old(View()) && outbox == old(outbox) + closes
      ensures ClosesAll(players, players.Keys, closes)
    {
      hide WorldSpec.Registered, IsTop, Rng.StateAt, World.World.Value, ClosesAll;
      NobodyClosed(players);
      closes := [];
      var todo := players.Keys;
      assert players.Keys - todo == {};
      while todo != {}
        invariant todo <= players.Keys
        invariant outbox == old(outbox) + closes && ClosesAll(players, players.Keys - todo, closes)
        decreases todo
      {
        var id :| id in todo;
        CloseOneMore(players, players.Keys - todo, closes, id);
        assert players.Keys - (todo - {id}) == (players.Keys - todo) + {id};
        todo := todo - {id};
        outbox := outbox + [Close(players[id].conn)];
        closes := closes + [Close(players[id].conn)];
      }
      assert players.Keys - todo == players.Keys;
    }
  }
}
