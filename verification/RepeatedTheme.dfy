/** A run in which two countdowns in a row share a theme: somebody joins, leaves and joins again.

    The seed is chosen so that the generator is at state zero for the second theme; the first one is
    worked out digit by digit. */
module RepeatedTheme {
  import opened Options
  import opened Protocol
  import opened StoreSpec
  import opened Rng
  import Names
  import WorldSpec
  import Race
  import opened HubSpec
  import opened HubInvariant
  import opened HubRuns

  // ----- two draws of one seed -----

  const SEED: nat := 0x4ab325a704411782

  lemma XorDigit(a: nat, b: nat, x: nat, y: nat)
    requires x < 2 && y < 2
    ensures Xor(2 * a + x, 2 * b + y) == 2 * Xor(a, b) + Xor(x, y)
  {
    assert (2 * a + x) / 2 == a && (2 * b + y) / 2 == b;
    assert (2 * a + x) % 2 == x && (2 * b + y) % 2 == y;
    assert Xor(0, 0) == 0;
  }

  lemma XorPair(a: nat, b: nat, c: nat, d: nat)
    requires c < 4 && d < 4
    ensures Xor(4 * a + c, 4 * b + d) == 4 * Xor(a, b) + Xor(c, d)
  {
    hide Xor;
    var p, x := c / 2, c % 2;
    var q, y := d / 2, d % 2;
    XorDigit(2 * a + p, 2 * b + q, x, y);
    XorDigit(a, b, p, q);
    XorDigit(p, q, x, y);
  }

  lemma XorNibble(a: nat, b: nat, c: nat, d: nat)
    requires c < 16 && d < 16
    ensures Xor(16 * a + c, 16 * b + d) == 16 * Xor(a, b) + Xor(c, d)
  {
    hide Xor;
    var p, x := c / 4, c % 4;
    var q, y := d / 4, d % 4;
    XorPair(4 * a + p, 4 * b + q, x, y);
    XorPair(a, b, p, q);
    XorPair(p, q, x, y);
  }

  lemma PairTable()
    ensures Xor(0, 0) == 0
    ensures Xor(0, 1) == 1
    ensures Xor(0, 2) == 2
    ensures Xor(0, 3) == 3
    ensures Xor(1, 0) == 1
    ensures Xor(1, 1) == 0
    ensures Xor(1, 2) == 3
    ensures Xor(1, 3) == 2
    ensures Xor(2, 0) == 2
    ensures Xor(2, 1) == 3
    ensures Xor(2, 2) == 0
    ensures Xor(2, 3) == 1
    ensures Xor(3, 0) == 3
    ensures Xor(3, 1) == 2
    ensures Xor(3, 2) == 1
    ensures Xor(3, 3) == 0
  {
  }

  lemma LowNibbles()
    ensures Xor(0, 0) == 0
    ensures Xor(0, 3) == 3
    ensures Xor(1, 0) == 1
    ensures Xor(1, 10) == 11
    ensures Xor(1, 14) == 15
    ensures Xor(2, 13) == 15
    ensures Xor(3, 0) == 3
    ensures Xor(5, 0) == 5
    ensures Xor(5, 1) == 4
    ensures Xor(6, 0) == 6
    ensures Xor(6, 4) == 2
    ensures Xor(7, 0) == 7
  {
    hide Xor;
    PairTable();
    XorPair(0, 2, 1, 2);
    XorPair(0, 3, 1, 2);
    XorPair(0, 3, 2, 1);
    XorPair(1, 0, 1, 0);
    XorPair(1, 0, 1, 1);
    XorPair(1, 0, 2, 0);
    XorPair(1, 1, 2, 0);
    XorPair(1, 0, 3, 0);
  }

  lemma HighNibbles()
    ensures Xor(7, 2) == 5
    ensures Xor(8, 0) == 8
    ensures Xor(8, 15) == 7
    ensures Xor(9, 0) == 9
    ensures Xor(9, 14) == 7
    ensures Xor(10, 13) == 7
    ensures Xor(11, 4) == 15
    ensures Xor(12, 0) == 12
    ensures Xor(13, 3) == 14
    ensures Xor(14, 0) == 14
    ensures Xor(14, 13) == 3
    ensures Xor(15, 0) == 15
  {
    hide Xor;
    PairTable();
    XorPair(1, 0, 3, 2);
    XorPair(2, 0, 0, 0);
    XorPair(2, 3, 0, 3);
    XorPair(2, 0, 1, 0);
    XorPair(2, 3, 1, 2);
    XorPair(2, 3, 2, 1);
    XorPair(2, 1, 3, 0);
    XorPair(3, 0, 0, 0);
    XorPair(3, 0, 1, 3);
    XorPair(3, 0, 2, 0);
    XorPair(3, 3, 2, 1);
    XorPair(3, 0, 3, 0);
  }

  lemma FirstXor()
    ensures Xor(0xc3910c8d016b07d6, 0x30e443234) == 0xc3910c8e0f2f35e2
  {
    hide Xor;
    LowNibbles();
    HighNibbles();
    XorNibble(0xc, 0x0, 0x3, 0x0);
    XorNibble(0xc3, 0x0, 0x9, 0x0);
    XorNibble(0xc39, 0x0, 0x1, 0x0);
    XorNibble(0xc391, 0x0, 0x0, 0x0);
    XorNibble(0xc3910, 0x0, 0xc, 0x0);
    XorNibble(0xc3910c, 0x0, 0x8, 0x0);
    XorNibble(0xc3910c8, 0x0, 0xd, 0x3);
    XorNibble(0xc3910c8d, 0x3, 0x0, 0x0);
    XorNibble(0xc3910c8d0, 0x30, 0x1, 0xe);
    XorNibble(0xc3910c8d01, 0x30e, 0x6, 0x4);
    XorNibble(0xc3910c8d016, 0x30e4, 0xb, 0x4);
    XorNibble(0xc3910c8d016b, 0x30e44, 0x0, 0x3);
    XorNibble(0xc3910c8d016b0, 0x30e443, 0x7, 0x2);
    XorNibble(0xc3910c8d016b07, 0x30e4432, 0xd, 0x3);
    XorNibble(0xc3910c8d016b07d, 0x30e44323, 0x6, 0x4);
  }

  lemma SecondXor()
    ensures Xor(0x7ef77568e9991a52, 0xfdeeead1d) == 0x7ef775673777b74f
  {
    hide Xor;
    LowNibbles();
    HighNibbles();
    XorNibble(0x7, 0x0, 0xe, 0x0);
    XorNibble(0x7e, 0x0, 0xf, 0x0);
    XorNibble(0x7ef, 0x0, 0x7, 0x0);
    XorNibble(0x7ef7, 0x0, 0x7, 0x0);
    XorNibble(0x7ef77, 0x0, 0x5, 0x0);
    XorNibble(0x7ef775, 0x0, 0x6, 0x0);
    XorNibble(0x7ef7756, 0x0, 0x8, 0xf);
    XorNibble(0x7ef77568, 0xf, 0xe, 0xd);
    XorNibble(0x7ef77568e, 0xfd, 0x9, 0xe);
    XorNibble(0x7ef77568e9, 0xfde, 0x9, 0xe);
    XorNibble(0x7ef77568e99, 0xfdee, 0x9, 0xe);
    XorNibble(0x7ef77568e999, 0xfdeee, 0x1, 0xa);
    XorNibble(0x7ef77568e9991, 0xfdeeea, 0xa, 0xd);
    XorNibble(0x7ef77568e9991a, 0xfdeeead, 0x5, 0x1);
    XorNibble(0x7ef77568e9991a5, 0xfdeeead1, 0x2, 0xd);
  }

  lemma Powers()
    ensures Power2(27) == 134217728 && Power2(30) == 1073741824 && Power2(31) == 2147483648
  {
    assert Power2(4) == 16;
    Power2Adds(4, 4);
    Power2Adds(8, 8);
    Power2Adds(16, 8);
    Power2Adds(24, 4);
    assert Power2(28) == 2 * Power2(27);
    assert Power2(29) == 2 * Power2(28) && Power2(30) == 2 * Power2(29) && Power2(31) == 2 * Power2(30);
  }

  lemma FirstDraw()
    ensures Mix(0xc3910c8d016b07d6) % 4 == 0
  {
    hide Xor, ShiftRight, Power2;
    Powers();
    ShiftIsDivision(0xc3910c8d016b07d6, 30);
    FirstXor();
    assert Times(0xc3910c8e0f2f35e2, MULTIPLIER_1) == 0x7ef77568e9991a52;
    ShiftIsDivision(0x7ef77568e9991a52, 27);
    SecondXor();
    assert Times(0x7ef775673777b74f, MULTIPLIER_2) == 0x61bc8ea8d1308485;
    ShiftIsDivision(0x61bc8ea8d1308485, 31);
    PairTable();
    XorPair(0x186f23aa344c2121, 0x30de4754, 1, 1);
  }

  lemma MixOfZero()
    ensures Mix(0) == 0
  {
    hide Xor, ShiftRight;
    XorZero(0);
    ShiftShrinks(0, 30);
    ShiftShrinks(0, 27);
    ShiftShrinks(0, 31);
  }

  /** The fourth and the sixth draw of this seed are both multiples of four. */
  lemma DrawsOfSeed()
    ensures Draw(SEED, 4) % 4 == 0 && Draw(SEED, 6) == 0
  {
    hide Mix, Xor;
    assert StateAt(SEED, 4) == 0xc3910c8d016b07d6 && StateAt(SEED, 6) == 0;
    FirstDraw();
    MixOfZero();
  }

  // ----- join, leave, join -----

  /** Nobody is there, and the last theme is still the initial one. */
  predicate Fresh(s: State) {
    && s.st == Waiting && s.players == map[] && s.names == map[] && s.order == []
    && s.lastTheme == 0 && s.cfg.maxPlayers >= 1
  }

  const NAME := "a"

  predicate Known(s: State) {
    NAME in s.stats && s.stats[NAME].bird.Valid()
  }

  /** A newcomer's appearance takes two draws, a known player's none. */
  lemma DressDraws(s: State)
    requires s.players == map[] && (NAME in s.stats ==> Known(s))
    ensures var d := Dress(s, NAME).0;
            Known(d) && d.drawn == s.drawn + (if Known(s) then 0 else 2)
  {
    assert TakenBirds(s.players) == {};
  }

  lemma KnownByStats(s: State, t: State)
    requires s.stats == t.stats
    ensures Known(s) <==> Known(t)
  {
  }

  lemma RegisterFresh(s: State, c: nat)
    requires Fresh(s) && (NAME in s.stats ==> Known(s))
    ensures var (r, sess) := Register(s, c, NAME);
            && r == s.(players := map[s.nextID + 1 := sess], names := r.names, order := r.order,
                       nextID := s.nextID + 1, drawn := s.drawn + (if Known(s) then 0 else 2), stats := r.stats)
            && sess.conn == c && Known(r)
  {
    hide Dress, Known;
    DressDraws(s);
    DressKeeps(s, NAME);
    KnownByStats(HubSpec.Dress(s, NAME).0, Register(s, c, NAME).0);
  }

  lemma BeginTheme(s: State, now: int)
    ensures var t := BeginCountdown(s, now);
            && t.theme == PickTheme(s.words(s.drawn + 2), s.lastTheme) && |t.begun| == |s.begun| + 1
            && t == s.(st := Countdown, goAt := t.goAt, seed := t.seed, theme := t.theme, drawn := s.drawn + 2,
                       begun := t.begun, world := t.world, raceInfo := t.raceInfo, results := t.results)
  {
    hide LineUp, InfosOf, PickTheme;
  }

  lemma JoinFresh(s: State, c: nat, now: int)
    requires Fresh(s) && (NAME in s.stats ==> Known(s))
    ensures var t := Join(s, c, Some(NAME), now, now).0;
            var drawn := s.drawn + if Known(s) then 0 else 2;
            && t.st == Countdown && t.players.Keys == {s.nextID + 1} && t.players[s.nextID + 1].conn == c
            && t.theme == PickTheme(s.words(drawn + 2), 0) && t.drawn == drawn + 2 && |t.begun| == |s.begun| + 1
            && t.words == s.words && t.lastTheme == 0 && t.cfg == s.cfg && Known(t)
  {
    hide BeginCountdown, PickTheme, Broadcast, WelcomeFor, Register, Known;
    RegisterFresh(s, c);
    BeginTheme(Register(s, c, NAME).0, now);
    KnownByStats(Register(s, c, NAME).0, Join(s, c, Some(NAME), now, now).0);
  }

  lemma HasMember(order: seq<nat>)
    requires order != []
    ensures exists id :: id in order
  {
    assert order[0] in order;
  }

  lemma EmptyRegistry(s: State)
    requires RegistryOk(s) && s.players.Keys == {}
    ensures s.players == map[] && s.names == map[] && s.order == []
  {
    assert forall name :: name in s.names ==> s.names[name] in s.players;
    if s.order != [] {
      HasMember(s.order);
    }
  }

  lemma LeaveAlone(s: State, c: nat, id: nat, now: int)
    requires Inv(s) && s.st == Countdown && s.players.Keys == {id} && s.players[id].conn == c
    requires s.lastTheme == 0 && s.cfg.maxPlayers >= 1
    ensures var t := Leave(s, c, Some(id), now, now).0;
            && Fresh(t) && t.stats == s.stats && t.drawn == s.drawn && t.words == s.words
            && t.begun == s.begun && t.cfg == s.cfg
  {
    hide Registry, Race.Grid, HistoryOk, Broadcast;
    SessionId(s, id);
    var t := Leave(s, c, Some(id), now, now).0;
    LeaveInv(s, c, Some(id), now, now);
    assert t.players.Keys == {};
    EmptyRegistry(t);
    WaitingMeansEmpty(t);
  }

  lemma NewIsFresh(s: State)
    requires s == New(s.cfg, s.words, map[]) && s.cfg.maxPlayers >= 1
    ensures Fresh(s) && NAME !in s.stats && !Known(s)
  {
  }

  lemma FreshKnows(s: State)
    requires Fresh(s) && Known(s)
    ensures NAME in s.stats
  {
  }

  lemma PickOfMultiple(word: Word)
    requires word % 4 == 0
    ensures PickTheme(word, 0) == 1
  {
  }

  lemma ThreeAtOnce(e1: Event, e2: Event, e3: Event, now: int)
    requires e1.now == Ended(e1) == now && e2.now == Ended(e2) == now && e3.now == Ended(e3) == now
    ensures OnClock([e1, e2, e3], now, now)
  {
    hide OnClock;
    OneOnClock(e1, now, now);
    OneOnClock(e2, now, now);
    OneOnClock(e3, now, now);
    OnClockAppend([e1], [e2], now, now, now);
    OnClockAppend([e1] + [e2], [e3], now, now, now);
    assert [e1] + [e2] + [e3] == [e1, e2, e3];
  }

  /** The countdowns of the first and the second joiner have the same theme, on an ordinary clock and
      with a seed that a nanosecond clock can show. */
  lemma ThemeRepeats(cfg: Config, now: int) returns (y: System, events: seq<Event>)
    requires cfg.maxPlayers >= 1
    ensures Initial(y) && y.hub.words == SeedWords(SEED) && y.hub.cfg == cfg && |events| == 3
    ensures SEED < 0x8000_0000_0000_0000 && OnClock(events, now, now)
    ensures var first, second := Run(y, events[..1]).hub, Run(y, events).hub;
            && first.st == Countdown && second.st == Countdown && |second.begun| == |first.begun| + 1
            && first.theme == second.theme
  {
    hide Inv, Join, Leave, Fresh, Known, PickTheme, Draw, TraceOk, ShapeOk, OnClock;
    y := System(New(cfg, SeedWords(SEED), map[]), map[], []);
    var e1, e2, e3 := EvJoin(0, Some(NAME), now, now), EvLeave(0, Some(1), now, now), EvJoin(1, Some(NAME), now, now);
    events := [e1, e2, e3];
    assert events[..2][..1] == events[..1] == [e1] && events[..2] == [e1, e2] && events[..1][..0] == [];
    NewIsFresh(y.hub);
    JoinFresh(y.hub, 0, now);
    InitialInv(y);
    RunInv(y, [e1]);
    var s1 := Run(y, [e1]);
    LeaveAlone(s1.hub, 0, 1, now);
    var s2 := Run(y, [e1, e2]);
    KnownByStats(s1.hub, s2.hub);
    FreshKnows(s2.hub);
    JoinFresh(s2.hub, 1, now);
    DrawsOfSeed();
    PickOfMultiple(Draw(SEED, 4));
    PickOfMultiple(Draw(SEED, 6));
    ThreeAtOnce(e1, e2, e3, now);
  }
}
