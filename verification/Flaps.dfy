/** Which flaps a race applies, over whole runs of the hub. */
module Flaps {
  import opened Options
  import opened Protocol
  import Flight
  import Track
  import WorldSpec
  import Race
  import opened HubSpec
  import opened HubInvariant
  import opened HubRuns
  import opened HubTheorems

  /** Outside a race flaps are ignored; in it only a racer's own counts; a race ended by a tick
      leaves none pending, but one ended by a departure leaves them all for the next race. */
  lemma PendingFlaps(s: State, e: Event)
    requires Inv(s)
    requires e.EvFlap? ==> e.sid in s.players
    requires e.EvLeave? && e.who.Some? ==> e.who.value in s.players
    ensures var t := Handle(s, e).0;
            && (s.st != Racing ==> t.pending == s.pending)
            && (s.st == Racing && e.EvTick? ==> t.pending == {})
            && (s.st == Racing && (e.EvLeave? || e.EvJoin?) ==> t.pending == s.pending)
            && (s.st == Racing && e.EvFlap? ==>
                  t.pending == s.pending
                  || (t.pending == s.pending + {e.sid} && e.sid in s.world.value.birds))
  {
    hide Inv, Join, Leave, Tick;
    if s.st == Racing {
      RacingHasWorld(s);
    }
    match e
    case EvJoin(c, cleaned, now, snapNow) => JoinPhase(s, c, cleaned, now, snapNow);
    case EvFlap(sid, now) => FlapPhase(s, sid, now);
    case EvLeave(c, who, now, snapNow) => LeaveCounters(s, c, who, now, snapNow);
    case EvTick(now, snapNow) => TickCounters(s, now, snapNow);
  }

  lemma OnlyTicksAndLeavesEnd(s: State, e: Event)
    requires Inv(s) && s.st == Racing
    requires e.EvFlap? ==> e.sid in s.players
    requires e.EvLeave? && e.who.Some? ==> e.who.value in s.players
    ensures Handle(s, e).0.st != Racing ==> e.EvTick? || e.EvLeave?
  {
    hide Inv, Join, Flap, Leave, Tick;
    match e
    case EvJoin(c, cleaned, now, snapNow) => JoinPhase(s, c, cleaned, now, snapNow);
    case EvFlap(sid, now) => FlapPhase(s, sid, now);
    case _ =>
  }

  lemma NextPending(y: System, e: Event)
    requires SystemInv(y)
    ensures y.hub.st != Racing ==> Next(y, e).hub.pending == y.hub.pending
    ensures y.hub.st == Racing && Next(y, e).hub.st != Racing ==>
              Allowed(y, e) && (e.EvTick? || e.EvLeave?)
              && Next(y, e).hub.pending == if e.EvTick? then {} else y.hub.pending
  {
    hide Inv, Handle, TraceOk, ShapeOk;
    if Allowed(y, e) {
      OpenAll(y.hub.players, y.conns);
      PendingFlaps(y.hub, e);
      if y.hub.st == Racing {
        OnlyTicksAndLeavesEnd(y.hub, e);
      }
    }
  }

  /** While no race flies, pending flaps stay as they are. */
  lemma {:induction false} PendingSurvives(y: System, events: seq<Event>)
    requires SystemInv(y)
    requires forall n :: 0 <= n < |events| ==> Run(y, events[..n]).hub.st != Racing
    ensures Run(y, events).hub.pending == y.hub.pending
  {
    hide SystemInv, Inv;
    if events != [] {
      var m := |events| - 1;
      forall n | 0 <= n < m
        ensures Run(y, events[..m][..n]).hub.st != Racing
      {
        assert events[..m][..n] == events[..n];
      }
      PendingSurvives(y, events[..m]);
      RunInv(y, events[..m]);
      NextPending(Run(y, events[..m]), events[m]);
    }
  }

  // ----- taking off -----

  lemma TickTakesOff(s: State, now: int, snapNow: int)
    requires Inv(s) && s.st != Racing && Tick(s, now, snapNow).0.st == Racing
    ensures var t := Tick(s, now, snapNow).0;
            s.st == Countdown && t.world == s.world && t.players == s.players && t.pending == s.pending
  {
    hide Registry, InTheAir, OnTheLine, Broadcast, LineUp, InfosOf, PickTheme;
  }

  lemma LeaveLandsNobody(s: State, c: nat, who: Option<nat>, now: int, snapNow: int)
    requires (who.Some? ==> who.value in s.players) && s.st != Racing
    ensures Leave(s, c, who, now, snapNow).0.st != Racing
  {
    hide Broadcast, WorldSpec.RemoveBird;
  }

  /** Only a tick of the countdown makes a race fly, with the birds of all players on the line. */
  lemma TakesOff(y: System, f: Event)
    requires SystemInv(y) && y.hub.st != Racing && Next(y, f).hub.st == Racing
    ensures var s, t := y.hub, Next(y, f).hub;
            && t.players == s.players && t.pending == s.pending
            && t.world.Some? && Race.Grid(t.world.value) && t.world.value.birds.Keys == t.players.Keys
  {
    hide RegistryOk, HistoryOk, Join, Flap, Leave, Tick, TraceOk, ShapeOk, Race.Grid, InTheAir, ConnsOk;
    WaitingMeansEmpty(y.hub);
    match f
    case EvJoin(c, cleaned, now, snapNow) => JoinPhase(y.hub, c, cleaned, now, snapNow);
    case EvFlap(sid, now) => FlapPhase(y.hub, sid, now);
    case EvLeave(c, who, now, snapNow) => LeavePhase(y.hub, c, who, now, snapNow); LeaveLandsNobody(y.hub, c, who, now, snapNow);
    case EvTick(now, snapNow) => TickTakesOff(y.hub, now, snapNow);
  }

  // ----- the first tick of a race -----

  /** A flap on the first tick leaves a fresh bird higher than no flap does. */
  lemma FirstFlapShows(b: Flight.Bird, tick: nat, pipes: seq<Track.Pipe>)
    requires b.y == SPAWN_Y && b.vy == 0.0 && !b.dead
    ensures Flight.Tick(b, true, tick, pipes).y < SPAWN_Y < Flight.Tick(b, false, tick, pipes).y
  {
    hide Flight.Crashes;
    assert Flight.Fly(b, true, tick).y == 393.22 && Flight.Fly(b, false, tick).y == 400.42;
  }

  /** The first tick of a race shows its flaps exactly if one of them is a racer's. */
  lemma FirstStepIgnores(w: WorldSpec.State, flaps: set<nat>)
    requires Race.Grid(w)
    ensures WorldSpec.Step(w, flaps) == WorldSpec.Step(w, {}) <==> flaps * w.birds.Keys == {}
  {
    hide Flight.Tick, Track.Step;
    var track := Track.Step(w.track);
    if id :| id in flaps && id in w.birds {
      assert id in flaps * w.birds.Keys;
      FirstFlapShows(w.birds[id], track.tick, track.pipes);
      assert WorldSpec.Step(w, flaps).birds[id] != WorldSpec.Step(w, {}).birds[id];
    } else {
      assert WorldSpec.Step(w, flaps).birds == WorldSpec.Step(w, {}).birds;
    }
  }

  lemma StartOfRun(y: System, events: seq<Event>)
    requires forall n :: 0 <= n <= |events| ==> Run(y, events[..n]).hub.st != Racing
    ensures y.hub.st != Racing && Run(y, events).hub.st != Racing
  {
    assert events[..0] == [] && events[..|events|] == events;
  }

  lemma StaleIff(kept: set<nat>, pending: set<nat>, players: map<nat, Session>, birds: map<nat, Flight.Bird>, ticked: bool)
    requires birds.Keys == players.Keys && pending == if ticked then {} else kept
    ensures pending * birds.Keys == {} <==> ticked || forall id :: id in kept ==> id !in players
  {
    if id :| id in pending && id in birds.Keys {
      assert id in pending * birds.Keys;
    }
  }

  /** A flap applied in a race need not have been sent in it. When a race ends and the next one takes
      off, no flap of a racer is pending exactly if a tick ended the old race, or nobody who had a flap
      pending when it ended is still there; and exactly then the first tick is that of a race without
      flaps. */
  lemma RaceStartsCleanIff(x: System, e: Event, events: seq<Event>, f: Event)
    requires SystemInv(x) && x.hub.st == Racing
    requires forall n :: 0 <= n <= |events| ==> Run(Next(x, e), events[..n]).hub.st != Racing
    requires Next(Run(Next(x, e), events), f).hub.st == Racing
    ensures var r := Next(Run(Next(x, e), events), f).hub;
            var clean := e.EvTick? || forall id :: id in x.hub.pending ==> id !in r.players;
            && r.world.Some?
            && (r.pending * r.world.value.birds.Keys == {} <==> clean)
            && (WorldSpec.Step(r.world.value, r.pending) == WorldSpec.Step(r.world.value, {}) <==> clean)
  {
    hide SystemInv, Next, Run, Allowed, WorldSpec.Step, Race.Grid;
    StartOfRun(Next(x, e), events);
    NextInv(x, e);
    NextPending(x, e);
    PendingSurvives(Next(x, e), events);
    RunInv(Next(x, e), events);
    var y := Run(Next(x, e), events);
    TakesOff(y, f);
    var r := Next(y, f).hub;
    FirstStepIgnores(r.world.value, r.pending);
    StaleIff(x.hub.pending, r.pending, r.players, r.world.value.birds, e.EvTick?);
  }

  // ----- the rate limit -----

  /** The event is a flap of this player that passes the rate limit. */
  predicate Counts(s: State, e: Event, sid: nat) {
    && e.EvFlap? && e.sid == sid && sid in s.players && s.st == Racing
    && CountFlap(s.players[sid], e.now).1
  }

  ghost function Counted(y: System, events: seq<Event>, sid: nat): nat {
    if events == [] then 0
    else
      var front, e := events[..|events| - 1], events[|events| - 1];
      Counted(y, front, sid) + if Counts(Run(y, front).hub, e, sid) then 1 else 0
  }

  predicate InSecond(events: seq<Event>, sid: nat, sec: int) {
    forall i :: 0 <= i < |events| && events[i].EvFlap? && events[i].sid == sid ==> Seconds(events[i].now) == sec
  }

  ghost predicate WithinLimit(s: State) {
    forall id :: id in s.players ==> s.players[id].flapCount <= FLAP_RATE_LIMIT
  }

  /** What an event does to one player's flap counter. */
  ghost predicate CounterFollows(s: State, t: State, e: Event, sid: nat) {
    sid in t.players ==>
      if sid in s.players then
        if e.EvFlap? && e.sid == sid && s.st == Racing
        then t.players[sid] == CountFlap(s.players[sid], e.now).0
        else t.players[sid] == s.players[sid]
      else t.players[sid].flapCount == 0 && sid > s.nextID
  }

  lemma JoinCounter(s: State, c: nat, cleaned: Option<string>, now: int, snapNow: int, sid: nat)
    requires RegistryOk(s) && forall id :: id in s.players ==> s.players[id].conn != c
    ensures var t := Join(s, c, cleaned, now, snapNow).0;
            sid in t.players ==>
              if sid in s.players then t.players[sid] == s.players[sid]
              else t.players[sid].flapCount == 0 && sid > s.nextID
  {
    hide RegistryOk, Broadcast, Admit, Dress, Names.UniqueName, WelcomeFor, Join;
    if Refusal(s, cleaned).None? {
      JoinEffect(s, c, cleaned, now, snapNow);
    } else {
      JoinRefused(s, c, cleaned, now, snapNow);
    }
  }

  lemma FlapCounter(s: State, who: nat, now: int, sid: nat)
    requires who in s.players && (s.st == Racing ==> s.world.Some?)
    ensures CounterFollows(s, Flap(s, who, now), EvFlap(who, now), sid)
  {
    hide CountFlap;
  }

  lemma NextCounter(y: System, e: Event, sid: nat)
    requires SystemInv(y)
    ensures Allowed(y, e) ==> CounterFollows(y.hub, Next(y, e).hub, e, sid)
  {
    hide Inv, Join, Flap, Leave, Tick, TraceOk, ShapeOk, CountFlap, RegistryOk;
    if Allowed(y, e) {
      RegistryPart(y.hub);
      InvNeeds(y.hub);
      OpenAll(y.hub.players, y.conns);
      match e
      case EvJoin(c, cleaned, now, snapNow) => JoinCounter(y.hub, c, cleaned, now, snapNow, sid);
      case EvFlap(who, now) => FlapCounter(y.hub, who, now, sid);
      case EvLeave(c, Some(id), now, snapNow) => LeaveEffect(y.hub, c, id, now, snapNow);
      case EvLeave(c, None, now, snapNow) => GoneEffect(y.hub, c, now, snapNow);
      case EvTick(now, snapNow) => TickEffect(y.hub, now, snapNow);
    }
  }

  /** `n` flaps counted so far, all in second `sec`: the session's counter knows of them. */
  ghost predicate Tallied(s: State, sid: nat, sec: int, n: nat) {
    && n <= FLAP_RATE_LIMIT
    && (n > 0 ==> sid <= s.nextID)
    && (sid in s.players ==>
          && s.players[sid].flapCount <= FLAP_RATE_LIMIT
          && (n == 0 || (s.players[sid].flapSec == sec && n <= s.players[sid].flapCount)))
  }

  lemma CounterTallies(s: State, t: State, e: Event, sid: nat, sec: int, n: nat)
    requires CounterFollows(s, t, e, sid) && Tallied(s, sid, sec, n) && s.nextID <= t.nextID
    requires sid in s.players ==> sid <= s.nextID
    requires e.EvFlap? && e.sid == sid ==> Seconds(e.now) == sec
    ensures Tallied(t, sid, sec, n + if Counts(s, e, sid) then 1 else 0)
  {
  }

  lemma IdsKnown(y: System, e: Event, sid: nat)
    requires SystemInv(y)
    ensures sid in y.hub.players ==> sid <= y.hub.nextID
    ensures y.hub.nextID <= Next(y, e).hub.nextID
  {
    hide Handle, PhaseOk, HistoryOk, TraceOk, ShapeOk;
    if Allowed(y, e) {
      OpenAll(y.hub.players, y.conns);
      HandleIds(y.hub, e);
    }
  }

  lemma NoFlapOfNobody(y: System, e: Event, sid: nat)
    requires !Allowed(y, e)
    ensures !Counts(y.hub, e, sid)
  {
  }

  lemma {:induction false} RunTallies(y: System, events: seq<Event>, sid: nat, sec: int)
    requires SystemInv(y) && Tallied(y.hub, sid, sec, 0) && InSecond(events, sid, sec)
    ensures Tallied(Run(y, events).hub, sid, sec, Counted(y, events, sid))
  {
    hide SystemInv, Handle, Tallied, Counts, CounterFollows;
    if events != [] {
      var m := |events| - 1;
      var before, e := Run(y, events[..m]), events[m];
      assert forall i :: 0 <= i < m ==> events[..m][i] == events[i];
      RunTallies(y, events[..m], sid, sec);
      RunInv(y, events[..m]);
      NextCounter(before, e, sid);
      IdsKnown(before, e, sid);
      if Allowed(before, e) {
        CounterTallies(before.hub, Next(before, e).hub, e, sid, sec, Counted(y, events[..m], sid));
      } else {
        NoFlapOfNobody(before, e, sid);
      }
    }
  }

  lemma {:induction false} CountersWithinLimit(y: System, events: seq<Event>)
    requires SystemInv(y) && WithinLimit(y.hub)
    ensures WithinLimit(Run(y, events).hub)
  {
    hide SystemInv, Handle;
    if events != [] {
      var m := |events| - 1;
      var before, e := Run(y, events[..m]), events[m];
      CountersWithinLimit(y, events[..m]);
      RunInv(y, events[..m]);
      forall id | id in Next(before, e).hub.players
        ensures Next(before, e).hub.players[id].flapCount <= FLAP_RATE_LIMIT
      {
        NextCounter(before, e, id);
      }
    }
  }

  lemma NobodyFlapped(y: System)
    requires Initial(y)
    ensures WithinLimit(y.hub)
  {
  }

  /** In every run, of all flaps a player sends while the server's clock shows one and the same second at
      most twenty count, however they are mixed with other events. */
  lemma FlapsAreLimited(y: System, before: seq<Event>, events: seq<Event>, sid: nat, sec: int)
    requires Initial(y) && InSecond(events, sid, sec)
    ensures Counted(Run(y, before), events, sid) <= FLAP_RATE_LIMIT
  {
    hide SystemInv, Run, Counted, InSecond;
    InitialInv(y);
    NobodyFlapped(y);
    RunInv(y, before);
    CountersWithinLimit(y, before);
    RunTallies(Run(y, before), events, sid, sec);
  }

  lemma {:induction false} CountedAppend(y: System, a: seq<Event>, b: seq<Event>, sid: nat)
    ensures Counted(y, a + b, sid) == Counted(y, a, sid) + Counted(Run(y, a), b, sid)
  {
    hide Counts, Next;
    if b == [] {
      assert a + b == a;
    } else {
      var m := |b| - 1;
      assert (a + b)[..|a + b| - 1] == a + b[..m];
      CountedAppend(y, a, b[..m], sid);
      RunAppend(y, a, b[..m]);
    }
  }

  lemma SecondsGrow(a: int, b: int)
    requires a <= b
    ensures Seconds(a) <= Seconds(b)
    ensures b <= a + 999 ==> Seconds(b) <= Seconds(a) + 1
  {
  }

  lemma {:induction false} ReadingsWithin(events: seq<Event>, from: int, to: int)
    requires OnClock(events, from, to)
    ensures from <= to && forall i :: 0 <= i < |events| ==> from <= events[i].now <= to
  {
    if events != [] {
      var m := |events| - 1;
      ReadingsWithin(events[..m], from, events[m].now);
      assert forall i :: 0 <= i < m ==> events[..m][i] == events[i];
    }
  }

  /** Less than a second on an ordinary clock shows at most two of its seconds, one after the other. */
  lemma {:induction false} TwoSeconds(events: seq<Event>, from: int, to: int) returns (k: nat)
    requires OnClock(events, from, to) && to <= from + 999
    ensures k <= |events|
    ensures forall i :: 0 <= i < k ==> Seconds(events[i].now) == Seconds(from)
    ensures forall i :: k <= i < |events| ==> Seconds(events[i].now) == Seconds(from) + 1
  {
    hide Seconds;
    ReadingsWithin(events, from, to);
    forall i | 0 <= i < |events|
      ensures Seconds(from) <= Seconds(events[i].now) <= Seconds(from) + 1
    {
      SecondsGrow(from, events[i].now);
    }
    if events == [] {
      k := 0;
    } else {
      var m := |events| - 1;
      if Seconds(events[m].now) == Seconds(from) {
        k := m + 1;
        ReadingsWithin(events[..m], from, events[m].now);
        forall i | 0 <= i < m
          ensures Seconds(events[i].now) == Seconds(from)
        {
          assert events[..m][i] == events[i];
          SecondsGrow(events[i].now, events[m].now);
        }
      } else {
        k := TwoSeconds(events[..m], from, events[m].now);
        assert forall i :: 0 <= i < m ==> events[..m][i] == events[i];
      }
    }
  }

  /** On an ordinary clock at most forty flaps of a player count within any second. */
  lemma FlapsInAnySecond(y: System, before: seq<Event>, events: seq<Event>, sid: nat, from: int)
    requires Initial(y) && OnClock(events, from, from + 999)
    ensures Counted(Run(y, before), events, sid) <= 2 * FLAP_RATE_LIMIT
  {
    hide Counted, Run, OnClock, Seconds, Initial;
    var k := TwoSeconds(events, from, from + 999);
    var first, second := events[..k], events[k..];
    assert events == first + second;
    FlapsAreLimited(y, before, first, sid, Seconds(from));
    FlapsAreLimited(y, before + first, second, sid, Seconds(from) + 1);
    RunAppend(y, before, first);
    CountedAppend(Run(y, before), first, second, sid);
  }
}
