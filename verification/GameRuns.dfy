/** Whole runs of the client: its clock, its ring and its dials, told by the events alone. */
module GameRuns {
  import opened Options
  import opened Protocol
  import RingSpec
  import Clock
  import opened GameSpec

  /** A frame of this state reads the connection. */
  predicate Reads(s: State) {
    !s.entering && s.fatal == "" && s.net.Some?
  }

  /** What the frames of a run have taken from their connections, in order. */
  function Taken(s: State, events: seq<Event>): seq<Arrival> {
    if events == [] then []
    else
      var front, e := events[..|events| - 1], events[|events| - 1];
      Taken(s, front) + if e.Framed? && Reads(Run(s, front)) then e.input.arrivals else []
  }

  /** Server time minus local time. */
  function Offsets(arrivals: seq<Arrival>): seq<real> {
    seq(|arrivals|, i requires 0 <= i < |arrivals| => (arrivals[i].snap.now - arrivals[i].local) as real)
  }

  // ----- the clock -----

  lemma {:induction false} AbsorbClock(s: State, arrivals: seq<Arrival>)
    requires s.net.Some?
    ensures Absorb(s, arrivals).clock == Clock.Follow(s.clock, Offsets(arrivals))
  {
    hide Clock.Sampled;
    if arrivals != [] {
      var m := |arrivals| - 1;
      AbsorbClock(s, arrivals[..m]);
      assert Offsets(arrivals)[..m] == Offsets(arrivals[..m]);
    }
  }

  lemma UpdateClock(s: State, i: Input)
    ensures Update(s, i).clock == if Reads(s) then Clock.Follow(s.clock, Offsets(i.arrivals)) else s.clock
  {
    hide Clock.Follow, RetryDelay;
    if Reads(s) {
      AbsorbClock(s, i.arrivals);
    }
  }

  lemma OffsetsAppend(a: seq<Arrival>, b: seq<Arrival>)
    ensures Offsets(a + b) == Offsets(a) + Offsets(b)
  {
  }

  lemma NothingFollowed(e: Clock.Estimate)
    ensures Clock.Follow(e, []) == e && Clock.Follow(e, Offsets([])) == e
  {
    assert Offsets([]) == [];
  }

  /** In every run the clock has followed the offsets of the snapshots taken, one after the other. */
  lemma {:induction false} ClockFollows(s: State, events: seq<Event>)
    ensures Run(s, events).clock == Clock.Follow(s.clock, Offsets(Taken(s, events)))
  {
    hide Update, Clock.Follow, Reads;
    if events == [] {
      NothingFollowed(s.clock);
    } else {
      var front, e := events[..|events| - 1], events[|events| - 1];
      var before := Run(s, front);
      ClockFollows(s, front);
      if e.Framed? {
        UpdateClock(before, e.input);
      }
      var more := if e.Framed? && Reads(before) then e.input.arrivals else [];
      OffsetsAppend(Taken(s, front), more);
      Clock.FollowAppend(s.clock, Offsets(Taken(s, front)), Offsets(more));
      NothingFollowed(before.clock);
    }
  }

  /** If every snapshot a game took told the server's time to within the jitter, its estimate is as near
      from the first one on. */
  lemma ClockIsRight(name: string, events: seq<Event>, truth: real, jitter: real)
    requires var offsets := Offsets(Taken(Start(name), events));
             0.0 <= jitter && Clock.Near(offsets, truth, jitter) && offsets != []
    ensures var clock := Run(Start(name), events).clock;
            clock.have && Clock.Error(clock, truth) <= jitter
  {
    hide Run, Taken, Clock.Error, Clock.Near;
    ClockFollows(Start(name), events);
    Clock.StartsNear(Clock.UNKNOWN, Offsets(Taken(Start(name), events)), truth, jitter);
  }

  /** Whatever happened before, and whatever the clocks did: from then on `30 * n` snapshots within the
      jitter take `n` fifths of what the error exceeds it by. */
  lemma ClockRecovers(name: string, before: seq<Event>, events: seq<Event>, truth: real, jitter: real, n: nat)
    requires var s := Run(Start(name), before);
             var offsets := Offsets(Taken(s, events));
             && s.clock.have && 0.0 <= jitter && Clock.Near(offsets, truth, jitter)
             && |offsets| >= Clock.JUMPS_BEFORE_RESYNC * n
    ensures var s := Run(Start(name), before);
            var clock := Run(s, events).clock;
            && clock.have
            && Clock.Error(clock, truth) <= jitter + Clock.Shrunk(Max(0.0, Clock.Error(s.clock, truth) - jitter), n)
  {
    hide Run, Taken, Clock.Error, Clock.Near, Clock.Shrunk;
    var s := Run(Start(name), before);
    StartOk(name);
    RunOk(Start(name), before);
    ClockFollows(s, events);
    Clock.Stabilises(s.clock, Offsets(Taken(s, events)), truth, jitter, n);
  }

  // ----- the ring -----

  /** What was taken since the connection now read, or last read, came about. */
  function TakenSince(s: State, events: seq<Event>): seq<Arrival> {
    if events == [] then []
    else
      var front, e := events[..|events| - 1], events[|events| - 1];
      var before := Run(s, front);
      if before.net.None? && Next(before, e).net.Some? then []
      else TakenSince(s, front) + if e.Framed? && Reads(before) then e.input.arrivals else []
  }

  function SnapsOf(arrivals: seq<Arrival>): seq<Snapshot> {
    seq(|arrivals|, i requires 0 <= i < |arrivals| => arrivals[i].snap)
  }

  lemma SnapsOfAppend(a: seq<Arrival>, b: seq<Arrival>)
    ensures SnapsOf(a + b) == SnapsOf(a) + SnapsOf(b) && SnapsOf([]) == []
  {
  }

  lemma {:induction false} AbsorbFeeds(s: State, arrivals: seq<Arrival>)
    requires s.net.Some?
    ensures Snaps(Absorb(s, arrivals).fed) == Snaps(s.fed) + SnapsOf(arrivals)
  {
    hide Clock.Sampled, RingSpec.Pushed;
    if arrivals != [] {
      var m := |arrivals| - 1;
      var before, a := Absorb(s, arrivals[..m]), arrivals[m];
      AbsorbFeeds(s, arrivals[..m]);
      assert Snaps(before.fed + [Tagged(s.net.value, a.snap)]) == Snaps(before.fed) + [a.snap];
      assert SnapsOf(arrivals) == SnapsOf(arrivals[..m]) + [a.snap];
    }
  }

  lemma PumpFeeds(s: State, i: Input)
    requires s.net.Some?
    ensures var t := PumpNet(s, i);
            t.fed == Absorb(s, i.arrivals).fed && t.dialing == s.dialing && t.entering == s.entering
  {
    hide Absorb, RetryDelay;
  }

  lemma ReconnectResets(s: State, i: Input)
    requires s.net.None?
    ensures var t := Reconnected(s, i);
            if s.dialing && t.net.Some? then t.fed == [] else t.fed == s.fed && t.net.None?
  {
    hide RetryDelay, DialName;
  }

  lemma UpdateFeeds(s: State, i: Input)
    requires s.net.Some? ==> !s.dialing
    ensures var t := Update(s, i);
            Snaps(t.fed) == if s.net.None? && t.net.Some? then []
                            else Snaps(s.fed) + SnapsOf(if Reads(s) then i.arrivals else [])
  {
    hide PumpNet, Reconnected;
    SnapsOfAppend([], []);
    if Reads(s) {
      AbsorbFeeds(s, i.arrivals);
      PumpFeeds(s, i);
    }
    if !s.entering && s.fatal == "" {
      var pumped := if s.net.Some? then PumpNet(s, i) else s;
      if pumped.net.None? && pumped.fatal == "" {
        ReconnectResets(pumped, i);
      }
    }
  }

  lemma {:induction false} FedIsTaken(s: State, events: seq<Event>)
    requires GameOk(s) && s.fed == []
    ensures Snaps(Run(s, events).fed) == SnapsOf(TakenSince(s, events))
  {
    hide Update, Reads, RingFromOne, Numbered, BackoffOk;
    if events != [] {
      var front, e := events[..|events| - 1], events[|events| - 1];
      var before := Run(s, front);
      FedIsTaken(s, front);
      RunOk(s, front);
      if e.Framed? {
        UpdateFeeds(before, e.input);
        SnapsOfAppend(TakenSince(s, front), e.input.arrivals);
      }
      SnapsOfAppend(TakenSince(s, front), []);
    }
  }

  /** In every run the ring is what the snapshots taken since the connection came about make of an
      empty ring. */
  lemma RingHoldsTaken(name: string, events: seq<Event>)
    ensures Run(Start(name), events).ring == RingSpec.Fed(SnapsOf(TakenSince(Start(name), events)))
  {
    hide Run, TakenSince, RingSpec.Fed, GameOk;
    RingNeverMixes(name, events);
    StartOk(name);
    FedIsTaken(Start(name), events);
  }

  // ----- the dials -----

  /** The name the server confirmed last. */
  function Confirmed(events: seq<Event>): string {
    if events == [] then ""
    else if events[|events| - 1].Welcomed? then events[|events| - 1].name
    else Confirmed(events[..|events| - 1])
  }

  /** The name the game was started with, or else the first one submitted. */
  function Chosen(name: string, events: seq<Event>): string {
    if events == [] then name
    else
      var before := Chosen(name, events[..|events| - 1]);
      var e := events[|events| - 1];
      if before == "" && e.Framed? then e.input.submitted else before
  }

  /** One more dial, of this time and under the name the state calls for. */
  predicate Dials(s: State, t: State, at: int) {
    && |t.dials| == |s.dials| + 1 && s.dials <= t.dials
    && t.dials[|s.dials|].at == at
    && t.dials[|s.dials|].name == if s.sessName != "" then s.sessName else s.name
  }

  lemma PumpNames(s: State, i: Input)
    requires s.net.Some?
    ensures var t := PumpNet(s, i);
            && t.sessName == s.sessName && t.name == s.name && t.entering == s.entering && t.dials == s.dials
  {
    hide Absorb, RetryDelay;
  }

  lemma ReconnectNames(s: State, i: Input)
    ensures var t := Reconnected(s, i);
            && t.sessName == s.sessName && t.name == s.name && t.entering == s.entering
            && (t.dials != s.dials ==> Dials(s, t, i.checkNow))
  {
    hide RetryDelay;
  }

  lemma UpdateNames(s: State, i: Input)
    requires s.entering <==> s.name == ""
    ensures var t := Update(s, i);
            && t.sessName == s.sessName && t.name == (if s.name == "" then i.submitted else s.name)
            && (t.entering <==> t.name == "")
            && (t.dials != s.dials ==> Dials(s, t, i.checkNow))
  {
    hide PumpNet, Reconnected;
    if !s.entering && s.fatal == "" {
      if s.net.Some? {
        PumpNames(s, i);
      }
      ReconnectNames(if s.net.Some? then PumpNet(s, i) else s, i);
    }
  }

  lemma {:induction false} RunNames(name: string, events: seq<Event>)
    ensures var s := Run(Start(name), events);
            s.sessName == Confirmed(events) && s.name == Chosen(name, events) && (s.entering <==> s.name == "")
  {
    hide Update;
    if events != [] {
      var front, e := events[..|events| - 1], events[|events| - 1];
      RunNames(name, front);
      if e.Framed? {
        UpdateNames(Run(Start(name), front), e.input);
      }
    }
  }

  lemma NextDial(s: State, e: Event)
    requires s.entering <==> s.name == ""
    requires Next(s, e).dials != s.dials
    ensures e.Framed? && Dials(s, Next(s, e), e.input.checkNow)
  {
    hide Update;
    if e.Framed? {
      UpdateNames(s, e.input);
    }
  }

  /** In every run a dial joins under the name the server confirmed last, or else the player's own. */
  lemma DialsJoinAs(name: string, events: seq<Event>, e: Event)
    requires Run(Start(name), events + [e]).dials != Run(Start(name), events).dials
    ensures var dials := Run(Start(name), events + [e]).dials;
            var last := |Run(Start(name), events).dials|;
            && e.Framed? && |dials| == last + 1 && dials[last].at == e.input.checkNow
            && dials[last].name == if Confirmed(events) != "" then Confirmed(events) else Chosen(name, events)
  {
    hide Next, Confirmed, Chosen;
    assert (events + [e])[..|events|] == events;
    RunNames(name, events);
    NextDial(Run(Start(name), events), e);
  }
}
