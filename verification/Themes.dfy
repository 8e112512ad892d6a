/** Which themes follow one another over whole runs of the hub. */
module Themes {
  import opened Options
  import opened Protocol
  import opened StoreSpec
  import Rng
  import opened HubSpec
  import opened HubInvariant
  import opened HubRuns
  import opened HubTheorems

  /** The pick excludes the last finished race's theme, and no other. */
  lemma ThemeExclusion(theme: nat, lastTheme: nat)
    requires theme < THEME_COUNT
    ensures (forall word: Rng.Word :: PickTheme(word, lastTheme) != theme) <==> theme == lastTheme
  {
    var word: Rng.Word := theme;
    if theme != lastTheme {
      assert PickTheme(word, lastTheme) == theme;
    }
  }

  /** In every run a coming or flying race differs in theme from the last finished one, and the
      theme numbered zero is never flown before a race is finished. */
  lemma ThemesChange(y: System, events: seq<Event>)
    requires Initial(y)
    ensures var s := Run(y, events).hub;
            && (s.st == Countdown || s.st == Racing ==> s.theme < THEME_COUNT && s.theme != s.lastTheme)
            && ((s.st == Countdown || s.st == Racing) && s.finished == 0 ==> s.theme != 0)
  {
    hide Run, Registry, OnTheLine, InTheAir;
    RunHubInv(y, events);
  }

  // ----- two countdowns in a row -----

  /** A theme stays until a new race begins, and a new race's is picked against the last finished one's. */
  ghost predicate ThemeFollows(s: State, t: State) {
    if t.begun == s.begun then t.theme == s.theme
    else |t.begun| == |s.begun| + 1
         && exists word: Rng.Word :: t.theme == PickTheme(word, s.lastTheme)
  }

  lemma BeginTheme(s: State, now: int)
    ensures ThemeFollows(s, BeginCountdown(s, now))
  {
    hide LineUp, InfosOf, PickTheme;
    assert BeginCountdown(s, now).theme == PickTheme(s.words(s.drawn + 2), s.lastTheme);
  }

  /** Themes follow as well between states that agree on themes and races begun. */
  lemma SameTheme(s: State, t: State, r: State, a: State)
    requires s.begun == r.begun && s.theme == r.theme && s.lastTheme == r.lastTheme
    requires t.begun == a.begun && t.theme == a.theme
    requires ThemeFollows(r, a) || (a.begun == r.begun && a.theme == r.theme)
    ensures ThemeFollows(s, t)
  {
  }

  lemma JoinTheme(s: State, c: nat, cleaned: Option<string>, now: int, snapNow: int)
    ensures ThemeFollows(s, Join(s, c, cleaned, now, snapNow).0)
  {
    hide Register, BeginCountdown, ThemeFollows, Broadcast, WelcomeFor;
    if Refusal(s, cleaned).None? {
      RegisterEffect(s, c, cleaned.value);
      var (r, sess) := Register(s, c, cleaned.value);
      BeginTheme(r, now);
      SameTheme(s, AfterBroadcast(Admit(r, sess, now), snapNow), r, Admit(r, sess, now));
    } else {
      SameTheme(s, s, s, s);
    }
  }

  lemma FinishTheme(s: State, now: int)
    requires s.world.Some?
    ensures FinishRace(s, now).theme == s.theme && FinishRace(s, now).begun == s.begun
  {
    hide EntriesOf, PodiumOf, Record;
  }

  lemma LeaveTheme(s: State, c: nat, who: Option<nat>, now: int, snapNow: int)
    requires who.Some? ==> who.value in s.players
    ensures ThemeFollows(s, Leave(s, c, who, now, snapNow).0)
  {
    hide FinishRace, WorldSpec.KillLeft, WorldSpec.RemoveBird, WorldSpec.Living, WorldSpec.Without, Broadcast;
    if who.Some? && s.st == Racing && s.world.Some? {
      var w := WorldSpec.KillLeft(s.world.value, who.value);
      FinishTheme(Strike(s, s.players[who.value]).(world := Some(w)), now);
    }
  }

  lemma TickTheme(s: State, now: int, snapNow: int)
    ensures ThemeFollows(s, Tick(s, now, snapNow).0)
  {
    hide FinishRace, BeginCountdown, WorldSpec.Step, RaceIsOver, Broadcast, ThemeFollows;
    BeginTheme(s, now);
    if s.world.Some? {
      FinishTheme(Flown(s), now);
    }
    SameTheme(s, Tick(s, now, snapNow).0, s, TickState(s, now));
  }

  lemma HandleTheme(s: State, e: Event)
    requires e.EvFlap? ==> e.sid in s.players
    requires e.EvLeave? && e.who.Some? ==> e.who.value in s.players
    ensures ThemeFollows(s, Handle(s, e).0)
  {
    hide Join, Flap, Leave, Tick;
    match e
    case EvJoin(c, cleaned, now, snapNow) => JoinTheme(s, c, cleaned, now, snapNow);
    case EvFlap(sid, now) => FlapPhase(s, sid, now);
    case EvLeave(c, who, now, snapNow) => LeaveTheme(s, c, who, now, snapNow);
    case EvTick(now, snapNow) => TickTheme(s, now, snapNow);
  }

  lemma NextTheme(y: System, e: Event)
    requires SystemInv(y)
    ensures var s, t := y.hub, Next(y, e).hub;
            && ThemeFollows(s, t) && s.begun <= t.begun && s.finished <= t.finished
            && t.lastTheme == if t.finished == s.finished then s.lastTheme else s.theme
  {
    hide Inv, Handle, TraceOk, ShapeOk;
    if Allowed(y, e) {
      HandleTheme(y.hub, e);
      HandleDraws(y.hub, e);
      HandleFinished(y.hub, e);
    }
  }

  /** While no new race begins, the theme stays, and it becomes the last finished one's when the race is finished. */
  lemma {:induction false} ThemeUntilNextRace(x: System, events: seq<Event>)
    requires SystemInv(x) && Run(x, events).hub.begun == x.hub.begun
    ensures var t := Run(x, events).hub;
            && t.theme == x.hub.theme && t.finished >= x.hub.finished
            && t.lastTheme == if t.finished == x.hub.finished then x.hub.lastTheme else x.hub.theme
  {
    hide SystemInv, Next;
    if events != [] {
      var m := |events| - 1;
      RunInv(x, events[..m]);
      RunDraws(x, events[..m]);
      NextTheme(Run(x, events[..m]), events[m]);
      ThemeUntilNextRace(x, events[..m]);
    }
  }

  /** From a coming or flying race of some theme, as long as no new race has begun: the next one can
      have the same theme exactly if this one was not finished, but broken off on the line. */
  lemma ThemeMayRepeatIff(x: System, events: seq<Event>)
    requires SystemInv(x) && (x.hub.st == Countdown || x.hub.st == Racing)
    requires Run(x, events).hub.begun == x.hub.begun
    ensures var t := Run(x, events).hub;
            (exists word: Rng.Word :: PickTheme(word, t.lastTheme) == x.hub.theme) <==> t.finished == x.hub.finished
  {
    hide Run, PickTheme, RegistryOk, OnTheLine, InTheAir;
    ThemeUntilNextRace(x, events);
    ThemeExclusion(x.hub.theme, Run(x, events).hub.lastTheme);
  }

  /** Two countdowns in a row share a theme only if the first race was never finished. */
  lemma RepeatMeansUnfinished(x: System, events: seq<Event>, e: Event)
    requires SystemInv(x) && (x.hub.st == Countdown || x.hub.st == Racing)
    requires Run(x, events).hub.begun == x.hub.begun
    requires Next(Run(x, events), e).hub.begun != x.hub.begun
    requires Next(Run(x, events), e).hub.theme == x.hub.theme
    ensures Run(x, events).hub.finished == x.hub.finished
  {
    hide Run, Next, PickTheme, Inv;
    RunInv(x, events);
    ThemeMayRepeatIff(x, events);
    NextTheme(Run(x, events), e);
  }
}
