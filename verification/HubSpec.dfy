/** The hub of hub.go as a state machine on values: each handler maps a state and an event to
    a new state and the queue operations it performs, in order.

    Clock readings are parameters: `now` is the handler's own reading and `snapNow` the one
    taken by the broadcast it may make. `words(k)` is the k-th draw of the hub's generator. */
module HubSpec {
  import opened Options
  import opened Protocol
  import opened StoreSpec
  import Rng
  import Track
  import Flight
  import WorldSpec
  import Rank
  import Names

  datatype Session = Session(id: nat, name: string, bird: Plumage, conn: nat, flapSec: int, flapCount: nat)

  datatype RaceInfo = RaceInfo(name: string, bird: Plumage)

  datatype Config = Config(countdown: nat, results: nat, snapshotEvery: nat, maxPlayers: nat)

  /** `begun`, `started` and `finished` are history: the draws used as race seeds, and how many
      races have started to fly and been finished. */
  datatype State = State(
    cfg: Config,
    players: map<nat, Session>,
    order: seq<nat>,
    names: map<string, nat>,
    nextID: nat,
    st: Phase,
    goAt: int,
    finishAt: int,
    lastSnap: int,
    world: Option<WorldSpec.State>,
    raceInfo: map<nat, RaceInfo>,
    results: seq<ResultSnap>,
    theme: nat,
    seed: Rng.Word,
    lastTheme: nat,
    pending: set<nat>,
    words: nat -> Rng.Word,
    drawn: nat,
    stats: Players,
    begun: seq<nat>,
    started: nat,
    finished: nat)

  datatype Frame =
    | Welcome(you: nat, name: string, bird: Plumage, now: int, st: Phase, goAt: int, theme: nat, seed: nat, spect: bool)
    | Snap(snapshot: Snapshot)
    | Error(msg: string)

  datatype Act = Enqueue(conn: nat, frame: Frame) | Close(conn: nat)

  const FLAP_RATE_LIMIT: nat := 20

  /** The draws of a hub whose generator was started from `seed`. */
  function SeedWords(seed: Rng.Word): nat -> Rng.Word {
    (k: nat) => Rng.Draw(seed, k)
  }

  function New(cfg: Config, words: nat -> Rng.Word, stats: Players): State {
    State(cfg, map[], [], map[], 0, Waiting, 0, 0, 0, None, map[], [], 0, 0, 0, {}, words, 0, stats, [], 0, 0)
  }

  // ----- broadcasting -----

  ghost function BirdsShown(w: WorldSpec.State): seq<BirdSnap> {
    if WorldSpec.Registered(w.order, w.birds) then WorldSpec.BirdSnaps(w) else []
  }

  function SpectatorCount(s: State, order: seq<nat>): nat {
    if order == [] then 0
    else
      var id := order[|order| - 1];
      SpectatorCount(s, order[..|order| - 1])
      + if id in s.players && (s.world.None? || id !in s.world.value.birds) then 1 else 0
  }

  ghost function SnapshotOf(s: State, now: int): Snapshot {
    var wait := SpectatorCount(s, s.order);
    var res := if s.st == Finished then s.results else [];
    match s.world
    case None => Snapshot(now, 0, s.st, s.goAt, s.theme, s.seed, 0.0, wait, [], [], res)
    case Some(w) =>
      Snapshot(now, w.track.tick, s.st, s.goAt, s.theme, s.seed, w.track.dist, wait,
               BirdsShown(w), WorldSpec.PipeSnaps(w.track.pipes), res)
  }

  function ToAll(players: map<nat, Session>, order: seq<nat>, frame: Frame): seq<Act> {
    if order == [] then []
    else
      var id := order[|order| - 1];
      ToAll(players, order[..|order| - 1], frame) + if id in players then [Enqueue(players[id].conn, frame)] else []
  }

  function Announced(s: State): bool {
    s.st != Waiting && s.players != map[]
  }

  function AfterBroadcast(s: State, snapNow: int): State {
    if Announced(s) then s.(lastSnap := snapNow) else s
  }

  ghost function Broadcast(s: State, snapNow: int): seq<Act> {
    if Announced(s) then ToAll(s.players, s.order, Snap(SnapshotOf(s, snapNow))) else []
  }

  predicate SnapshotDue(s: State, now: int) {
    now - s.lastSnap >= s.cfg.snapshotEvery
  }

  function WelcomeFor(s: State, sess: Session, now: int): Frame {
    var raced := s.st != Waiting;
    Welcome(sess.id, sess.name, sess.bird, now, s.st, if raced then s.goAt else 0, s.theme,
            if raced then s.seed else 0, s.st == Racing || s.st == Finished)
  }

  // ----- starting and finishing races -----

  /** A uniform pick, moved on by one if it would repeat the last finished race's theme. */
  function PickTheme(word: Rng.Word, lastTheme: nat): nat {
    var t := word % THEME_COUNT;
    if t == lastTheme then (t + 1) % THEME_COUNT else t
  }

  /** Every listed player on the starting line, in order. */
  function LineUp(players: map<nat, Session>, order: seq<nat>, w: WorldSpec.State): WorldSpec.State {
    if order == [] then w
    else
      var id := order[|order| - 1];
      var before := LineUp(players, order[..|order| - 1], w);
      if id in players
      then WorldSpec.AddBird(before, id, players[id].name, players[id].bird.palette, players[id].bird.accessory)
      else before
  }

  function InfoOf(sess: Session): RaceInfo {
    RaceInfo(sess.name, sess.bird)
  }

  function InfosOf(players: map<nat, Session>, order: seq<nat>): map<nat, RaceInfo> {
    map id | id in players && id in order :: InfoOf(players[id])
  }

  /** The new race's clock, seed and theme. */
  function DrawRace(s: State, now: int): State {
    s.(st := Countdown,
       goAt := now + s.cfg.countdown,
       seed := s.words(s.drawn + 1),
       theme := PickTheme(s.words(s.drawn + 2), s.lastTheme),
       drawn := s.drawn + 2,
       begun := s.begun + [s.drawn + 1],
       results := [])
  }

  /** A fresh world of the race's seed, with every player on its line. */
  function SetUpRace(s: State): State {
    s.(world := Some(LineUp(s.players, s.order, WorldSpec.New(WorldSpec.SeedDraws(s.seed)))),
       raceInfo := InfosOf(s.players, s.order))
  }

  function BeginCountdown(s: State, now: int): State {
    SetUpRace(DrawRace(s, now))
  }

  function AdmitRacer(s: State, sess: Session): State
    requires s.world.Some?
  {
    s.(world := Some(WorldSpec.AddBird(s.world.value, sess.id, sess.name, sess.bird.palette, sess.bird.accessory)),
       raceInfo := s.raceInfo[sess.id := InfoOf(sess)])
  }

  function EntriesOf(results: seq<ResultSnap>, raceInfo: map<nat, RaceInfo>): seq<RaceEntry> {
    seq(|results|, i requires 0 <= i < |results| =>
      var r := results[i];
      RaceEntry(r.name, r.score, r.rank, if r.id in raceInfo then raceInfo[r.id].bird else Plumage(0, 0)))
  }

  ghost function PodiumOf(w: WorldSpec.State): seq<ResultSnap> {
    if WorldSpec.Registered(w.order, w.birds) then Rank.Results(w) else []
  }

  function Idle(s: State): State {
    s.(st := Waiting, world := None, raceInfo := map[], results := [])
  }

  /** The race is ranked and recorded. */
  ghost function Rate(s: State, now: int): State
    requires s.world.Some?
  {
    var results := PodiumOf(s.world.value);
    s.(results := results,
       lastTheme := s.theme,
       stats := Record(s.stats, EntriesOf(results, s.raceInfo), s.theme, now),
       finished := s.finished + 1)
  }

  /** After the ranking the results window opens, unless nobody is left to watch it. */
  ghost function FinishRace(s: State, now: int): State
    requires s.world.Some?
  {
    if s.players == map[] then Idle(Rate(s, now))
    else Rate(s, now).(st := Finished, finishAt := now + s.cfg.results)
  }

  // ----- joining -----

  /** The appearance made of two consecutive draws. */
  function BirdAt(words: nat -> Rng.Word, drawn: nat): (b: Plumage)
    ensures b.Valid()
  {
    Plumage(words(drawn + 1) % PALETTE_COUNT, words(drawn + 2) % ACCESSORY_COUNT)
  }

  /** Thirty-two tries for an appearance nobody wears, then whatever comes. */
  function RollBird(words: nat -> Rng.Word, drawn: nat, taken: set<Plumage>, tries: nat): (r: (Plumage, nat))
    ensures r.0.Valid() && r.1 > drawn
    decreases tries
  {
    var b := BirdAt(words, drawn);
    if tries == 0 || b !in taken then (b, drawn + 2) else RollBird(words, drawn + 2, taken, tries - 1)
  }

  /** The roll stops at the first appearance nobody wears, and only runs out of tries if all were worn. */
  lemma {:induction false} RollBirdIsFirstFree(words: nat -> Rng.Word, drawn: nat, taken: set<Plumage>, tries: nat)
      returns (k: nat)
    ensures k <= tries && RollBird(words, drawn, taken, tries) == (BirdAt(words, drawn + 2 * k), drawn + 2 * k + 2)
    ensures forall j :: 0 <= j < k ==> BirdAt(words, drawn + 2 * j) in taken
    ensures k < tries ==> BirdAt(words, drawn + 2 * k) !in taken
    decreases tries
  {
    hide BirdAt;
    if tries == 0 || BirdAt(words, drawn) !in taken {
      k := 0;
    } else {
      var m := RollBirdIsFirstFree(words, drawn + 2, taken, tries - 1);
      k := m + 1;
      forall j | 0 <= j < k
        ensures BirdAt(words, drawn + 2 * j) in taken
      {
        assert j == 0 || drawn + 2 * j == (drawn + 2) + 2 * (j - 1);
      }
    }
  }

  function TakenBirds(players: map<nat, Session>): set<Plumage> {
    set id | id in players :: players[id].bird
  }

  /** The remembered appearance of a name, or a fresh one that is remembered from now on. */
  function Dress(s: State, name: string): (State, Plumage) {
    if name in s.stats && s.stats[name].bird.Valid() then (s, s.stats[name].bird)
    else
      var (bird, drawn) := RollBird(s.words, s.drawn, TakenBirds(s.players), 32);
      (s.(drawn := drawn, stats := Remember(s.stats, name, bird)), bird)
  }

  function Enlist(s: State, sess: Session): State {
    s.(players := s.players[sess.id := sess],
       names := s.names[sess.name := sess.id],
       order := s.order + [sess.id],
       nextID := sess.id)
  }

  const FULL := "server full"
  const NAMELESS := "please pick a name (1-16 characters)"

  function Reject(conn: nat, msg: string): seq<Act> {
    [Enqueue(conn, Error(msg)), Close(conn)]
  }

  function Refusal(s: State, cleaned: Option<string>): Option<string> {
    if |s.players| >= s.cfg.maxPlayers then Some(FULL)
    else if cleaned.None? then Some(NAMELESS)
    else None
  }

  /** The newcomer's session and the state that has registered it. */
  function Register(s: State, conn: nat, base: string): (State, Session) {
    var name := Names.UniqueName(base, s.names);
    var (dressed, bird) := Dress(s, name);
    var sess := Session(s.nextID + 1, name, bird, conn, 0, 0);
    (Enlist(dressed, sess), sess)
  }

  function Admit(s: State, sess: Session, now: int): State {
    match s.st
    case Waiting => BeginCountdown(s, now)
    case Countdown => if s.world.Some? then AdmitRacer(s, sess) else s
    case _ => s
  }

  /** The newcomer is welcomed before the first snapshot is sent to it. */
  ghost function Accept(s: State, conn: nat, base: string, now: int, snapNow: int): (State, seq<Act>) {
    var (registered, sess) := Register(s, conn, base);
    var admitted := Admit(registered, sess, now);
    (AfterBroadcast(admitted, snapNow),
     [Enqueue(conn, WelcomeFor(admitted, sess, now))] + Broadcast(admitted, snapNow))
  }

  /** `cleaned` is the trimmed name if it is acceptable. */
  ghost function Join(s: State, conn: nat, cleaned: Option<string>, now: int, snapNow: int): (State, seq<Act>) {
    match Refusal(s, cleaned)
    case Some(msg) => (s, Reject(conn, msg))
    case None => Accept(s, conn, cleaned.value, now, snapNow)
  }

  // ----- flaps -----

  /** Division rounding toward zero. */
  function Seconds(ms: int): int {
    if ms >= 0 then ms / 1000 else -((-ms) / 1000)
  }

  /** A session's flap count restarts every second and stops at the limit; the flag says whether it counted. */
  function CountFlap(prior: Session, now: int): (Session, bool) {
    var sess := if prior.flapSec != Seconds(now) then prior.(flapSec := Seconds(now), flapCount := 0) else prior;
    if sess.flapCount >= FLAP_RATE_LIMIT then (sess, false) else (sess.(flapCount := sess.flapCount + 1), true)
  }

  function Flap(s: State, sid: nat, now: int): State
    requires sid in s.players
  {
    if s.st != Racing || s.world.None? then s
    else
      var (sess, counts) := CountFlap(s.players[sid], now);
      var counted := s.(players := s.players[sid := sess]);
      if counts && sid in s.world.value.birds then counted.(pending := s.pending + {sid}) else counted
  }

  // ----- leaving -----

  function Strike(s: State, sess: Session): State {
    s.(players := s.players - {sess.id},
       names := s.names - {sess.name},
       order := WorldSpec.Without(s.order, sess.id))
  }

  /** What a departure does to the race, once the session is gone from the registry. */
  ghost function Depart(s: State, sid: nat, now: int): State {
    match s.st
    case Waiting => s
    case Countdown =>
      if s.world.Some? && sid in s.world.value.birds then
        var w := WorldSpec.RemoveBird(s.world.value, sid);
        var less := s.(world := Some(w), raceInfo := s.raceInfo - {sid});
        if w.birds == map[] then Idle(less) else less
      else s
    case Racing =>
      if s.world.Some? && sid in s.world.value.birds then
        var w := WorldSpec.KillLeft(s.world.value, sid);
        var killed := s.(world := Some(w));
        if WorldSpec.Living(w) == {} then FinishRace(killed, now) else killed
      else s
    case Finished =>
      if s.players == map[] then Idle(s) else s
  }

  /** Whether a departure in this phase is followed by a broadcast. */
  predicate DepartAnnounces(s: State, sid: nat) {
    (s.st == Countdown || s.st == Racing) && s.world.Some? && sid in s.world.value.birds
  }

  ghost function Departed(s: State, sid: nat, now: int, snapNow: int): (State, seq<Act>) {
    var left := Depart(s, sid, now);
    if DepartAnnounces(s, sid) then (AfterBroadcast(left, snapNow), Broadcast(left, snapNow)) else (left, [])
  }

  ghost function Leave(s: State, conn: nat, sid: Option<nat>, now: int, snapNow: int): (State, seq<Act>)
    requires sid.Some? ==> sid.value in s.players
  {
    match sid
    case None => (s, [Close(conn)])
    case Some(id) =>
      var (left, acts) := Departed(Strike(s, s.players[id]), id, now, snapNow);
      (left, acts + [Close(conn)])
  }

  // ----- ticking -----

  /** One tick of the race, with the flaps that arrived since the last one. */
  function Flown(s: State): State
    requires s.world.Some?
  {
    s.(world := Some(WorldSpec.Step(s.world.value, s.pending)), pending := {})
  }

  predicate RaceIsOver(w: WorldSpec.State) {
    WorldSpec.Living(w) == {} || w.track.tick >= MAX_RACE_TICKS
  }

  ghost function TickState(s: State, now: int): State {
    match s.st
    case Waiting => s
    case Countdown => if now >= s.goAt then s.(st := Racing, started := s.started + 1) else s
    case Racing =>
      if s.world.None? then s
      else
        var flown := Flown(s);
        if RaceIsOver(flown.world.value) then FinishRace(flown, now) else flown
    case Finished =>
      if now < s.finishAt then s
      else if s.players != map[] then BeginCountdown(s, now)
      else Idle(s)
  }

  /** A change of phase is announced at once; otherwise snapshots keep their cadence. */
  ghost function Tick(s: State, now: int, snapNow: int): (State, seq<Act>) {
    var ticked := TickState(s, now);
    if s.st != Waiting && (ticked.st != s.st || SnapshotDue(s, now))
    then (AfterBroadcast(ticked, snapNow), Broadcast(ticked, snapNow))
    else (ticked, [])
  }
}
