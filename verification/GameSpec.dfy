/** The client's connection state machine: the non-drawing part of client/game.go, with the dial
    goroutine as a separate step. */
module GameSpec {
  import opened Options
  import opened Protocol
  import RingSpec
  import Clock

  datatype DialRes = Connected(conn: nat) | Failed(msg: string)

  datatype NetErr = Fatal(msg: string) | Lost

  /** A snapshot taken from the connection's channel, and the local clock as it was folded in. */
  datatype Arrival = Arrival(snap: Snapshot, local: int)

  datatype Tagged = Tagged(conn: nat, snap: Snapshot)

  /** A dial: when it started, after how many failures in a row and when the last was, and the name it joins with. */
  datatype Dial = Dial(at: int, failures: nat, lastFail: int, name: string)

  /** `inflight` counts running dial goroutines, `dialRes` is the channel their results go to, and
      `sessName` is the name the server last confirmed. The rest from `nextConn` on is history:
      connections are numbered, `fed` is what went into the ring since the last reset, `lastFail` is
      when the last failure was recorded, `outcomes` says how attempts and connections ended, and
      `dials` lists the attempts. */
  datatype State = State(
    entering: bool,
    name: string,
    fatal: string,
    lastErr: string,
    net: Option<nat>,
    dialing: bool,
    attempts: nat,
    nextTry: Option<int>,
    everConnected: bool,
    ring: seq<Snapshot>,
    clock: Clock.Estimate,
    dialRes: seq<DialRes>,
    inflight: nat,
    sessName: string,
    nextConn: nat,
    epoch: nat,
    fed: seq<Tagged>,
    lastFail: int,
    outcomes: seq<bool>,
    dials: seq<Dial>)

  /** What one call of Update meets: the name typed in, the snapshots and the error waiting on the
      connection, and the clock when a failure is recorded and when the next attempt is considered. */
  datatype Input = Input(submitted: string, arrivals: seq<Arrival>, err: Option<NetErr>, failNow: int, checkNow: int)

  function Start(name: string): State {
    State(name == "", name, "", "", None, false, 0, None, false, [], Clock.UNKNOWN, [], 0, "", 0, 0, [], 0, [], [])
  }

  // ----- backoff -----

  function Pow2(n: nat): nat {
    if n == 0 then 1 else 2 * Pow2(n - 1)
  }

  const RETRY_BASE_MS: nat := 500
  const RETRY_MAX_MS: nat := 8000

  /** Half a second after the first failure, doubling with each further one, eight seconds at most. */
  function RetryDelay(attempts: nat): nat {
    var d := if attempts <= 1 then RETRY_BASE_MS else RETRY_BASE_MS * Pow2(attempts - 1);
    if d <= RETRY_MAX_MS then d else RETRY_MAX_MS
  }

  lemma {:induction false} Pow2Grows(n: nat, m: nat)
    requires n <= m
    ensures 1 <= Pow2(n) <= Pow2(m)
  {
    if m > 0 {
      if n < m {
        Pow2Grows(n, m - 1);
      } else {
        Pow2Grows(n - 1, m - 1);
      }
    }
  }

  lemma DelayGrows(n: nat, m: nat)
    requires n <= m
    ensures RETRY_BASE_MS <= RetryDelay(n) <= RetryDelay(m) <= RETRY_MAX_MS
    ensures 5 <= n ==> RetryDelay(n) == RETRY_MAX_MS
  {
    Pow2Grows(if n == 0 then 0 else n - 1, if m == 0 then 0 else m - 1);
    if 5 <= n {
      Pow2Grows(4, n - 1);
      assert Pow2(4) == 16;
    }
  }

  /** The program's loop doubles until it reaches the cap. */
  method ComputeRetryDelay(attempts: nat) returns (d: nat)
    ensures d == RetryDelay(attempts)
  {
    d := RETRY_BASE_MS;
    var round := 0;
    while round < attempts - 1
      invariant 0 <= round && (round <= attempts - 1 || round == 0)
      invariant d == RETRY_BASE_MS * Pow2(round) < RETRY_MAX_MS
    {
      d, round := d * 2, round + 1;
      if d >= RETRY_MAX_MS {
        Pow2Grows(round, attempts - 1);
        return RETRY_MAX_MS;
      }
    }
  }

  // ----- one frame -----

  function ScheduleRetry(s: State, now: int): State {
    s.(attempts := s.attempts + 1, nextTry := Some(now + RetryDelay(s.attempts + 1)), lastFail := now,
       outcomes := s.outcomes + [false])
  }

  /** Fold the arrivals into the clock and the ring, oldest first. */
  function Absorb(s: State, arrivals: seq<Arrival>): State
    requires s.net.Some?
    ensures Absorb(s, arrivals) == s.(ring := Absorb(s, arrivals).ring, clock := Absorb(s, arrivals).clock,
                                      fed := Absorb(s, arrivals).fed)
  {
    if arrivals == [] then s
    else
      var before, a := Absorb(s, arrivals[..|arrivals| - 1]), arrivals[|arrivals| - 1];
      before.(clock := Clock.Sampled(before.clock, (a.snap.now - a.local) as real),
              ring := RingSpec.Pushed(before.ring, a.snap),
              fed := before.fed + [Tagged(s.net.value, a.snap)])
  }

  const LOST := "connection lost"

  /** Snapshots first; then an error ends the connection, for good if it is a rejection. */
  function PumpNet(s: State, i: Input): State
    requires s.net.Some?
  {
    var fresher := Absorb(s, i.arrivals);
    match i.err
    case None => fresher
    case Some(Fatal(msg)) => fresher.(net := None, fatal := msg)
    case Some(Lost) => ScheduleRetry(fresher.(net := None, lastErr := LOST), i.failNow)
  }

  function DialName(s: State): string {
    if s.sessName == "" then s.name else s.sessName
  }

  predicate Due(s: State, now: int) {
    s.nextTry.None? || now >= s.nextTry.value
  }

  /** Start a dial when one is due, or take the result of the one that runs. */
  function Reconnected(s: State, i: Input): State {
    if !s.dialing then
      if Due(s, i.checkNow)
      then s.(dialing := true, inflight := s.inflight + 1,
              dials := s.dials + [Dial(i.checkNow, s.attempts, s.lastFail, DialName(s))])
      else s
    else if s.dialRes == [] then s
    else
      var taken := s.(dialing := false, dialRes := s.dialRes[1..]);
      match s.dialRes[0]
      case Failed(msg) => ScheduleRetry(taken.(lastErr := msg), i.failNow)
      case Connected(conn) =>
        taken.(net := Some(conn), attempts := 0, lastErr := "", everConnected := true, ring := [],
               epoch := conn, fed := [], outcomes := s.outcomes + [true])
  }

  function Update(s: State, i: Input): State {
    if s.entering then
      if i.submitted == "" then s else s.(name := i.submitted, entering := false)
    else if s.fatal != "" then s
    else
      var pumped := if s.net.Some? then PumpNet(s, i) else s;
      if pumped.net.None? && pumped.fatal == "" then Reconnected(pumped, i) else pumped
  }

  // ----- runs -----

  /** A frame of the game; the end of a dial, with the failure if it failed; a welcome being read. */
  datatype Event =
    | Framed(input: Input)
    | DialEnds(failure: Option<string>)
    | Welcomed(name: string)

  /** Sending a result blocks while the channel's one place is taken. */
  predicate CanSend(s: State) {
    |s.dialRes| < 1
  }

  function Next(s: State, e: Event): State {
    match e
    case Framed(i) => Update(s, i)
    case Welcomed(name) => s.(sessName := name)
    case DialEnds(failure) =>
      if s.inflight == 0 || !CanSend(s) then s
      else
        match failure
        case None => s.(inflight := s.inflight - 1, dialRes := s.dialRes + [Connected(s.nextConn)], nextConn := s.nextConn + 1)
        case Some(msg) => s.(inflight := s.inflight - 1, dialRes := s.dialRes + [Failed(msg)])
  }

  function Run(s: State, events: seq<Event>): State {
    if events == [] then s else Next(Run(s, events[..|events| - 1]), events[|events| - 1])
  }

  function Snaps(fed: seq<Tagged>): seq<Snapshot> {
    seq(|fed|, i requires 0 <= i < |fed| => fed[i].snap)
  }

  /** How many of the last outcomes were failures. */
  function TrailingFailures(outcomes: seq<bool>): nat {
    if outcomes == [] || outcomes[|outcomes| - 1] then 0 else 1 + TrailingFailures(outcomes[..|outcomes| - 1])
  }

  /** One dial at a time, and none beside a live connection or after a rejection. */
  ghost predicate DialOk(s: State) {
    && s.inflight + |s.dialRes| == (if s.dialing then 1 else 0)
    && (s.net.Some? ==> !s.dialing && s.fatal == "")
    && (s.fatal != "" ==> !s.dialing)
    && (s.entering ==> s == Start("").(sessName := s.sessName))
  }

  /** The ring holds what one connection sent, and nothing else. */
  ghost predicate RingFromOne(s: State) {
    && s.ring == RingSpec.Fed(Snaps(s.fed))
    && (forall i :: 0 <= i < |s.fed| ==> s.fed[i].conn == s.epoch)
    && (s.net.Some? ==> s.net.value == s.epoch)
    && (s.net.Some? ==> s.outcomes != [])
  }

  /** Connection numbers are used once. */
  ghost predicate Numbered(s: State) {
    && (s.everConnected ==> s.epoch < s.nextConn)
    && (s.net.Some? ==> s.everConnected)
    && (forall i :: 0 <= i < |s.dialRes| && s.dialRes[i].Connected? ==>
          s.dialRes[i].conn < s.nextConn && (s.everConnected ==> s.epoch < s.dialRes[i].conn))
  }

  /** `attempts` counts the failures since the last success, and the wait follows from it. */
  ghost predicate BackoffOk(s: State) {
    && s.attempts == TrailingFailures(s.outcomes)
    && (s.attempts > 0 ==> s.nextTry == Some(s.lastFail + RetryDelay(s.attempts)))
    && (forall i :: 0 <= i < |s.dials| && s.dials[i].failures > 0 ==>
          s.dials[i].at >= s.dials[i].lastFail + RetryDelay(s.dials[i].failures))
    && Clock.Ok(s.clock)
  }

  ghost predicate GameOk(s: State) {
    DialOk(s) && RingFromOne(s) && Numbered(s) && BackoffOk(s)
  }

  lemma StartOk(name: string)
    ensures GameOk(Start(name))
  {
  }

  lemma {:induction false} AbsorbOk(s: State, arrivals: seq<Arrival>)
    requires s.net.Some? && RingFromOne(s) && Clock.Ok(s.clock) && s.outcomes != []
    ensures RingFromOne(Absorb(s, arrivals)) && Clock.Ok(Absorb(s, arrivals).clock)
  {
    if arrivals != [] {
      var m := |arrivals| - 1;
      AbsorbOk(s, arrivals[..m]);
      var before, after := Absorb(s, arrivals[..m]), Absorb(s, arrivals);
      assert Snaps(after.fed) == Snaps(before.fed) + [arrivals[m].snap];
      assert Snaps(after.fed)[..|after.fed| - 1] == Snaps(before.fed);
    }
  }

  lemma OneMoreOutcome(outcomes: seq<bool>, ok: bool)
    ensures TrailingFailures(outcomes + [ok]) == if ok then 0 else TrailingFailures(outcomes) + 1
  {
    assert (outcomes + [ok])[..|outcomes|] == outcomes;
  }

  lemma PumpOk(s: State, i: Input)
    requires GameOk(s) && s.net.Some? && s.outcomes != []
    ensures GameOk(PumpNet(s, i)) && !PumpNet(s, i).dialing
  {
    hide RingSpec.Fed, Clock.Sampled, RetryDelay;
    AbsorbOk(s, i.arrivals);
    OneMoreOutcome(s.outcomes, false);
  }

  lemma EmptyFed()
    ensures Snaps([]) == [] && RingSpec.Fed([]) == []
  {
  }

  lemma ReconnectDials(s: State, i: Input)
    requires DialOk(s) && Numbered(s) && s.net.None? && s.fatal == "" && !s.entering
    ensures DialOk(Reconnected(s, i)) && Numbered(Reconnected(s, i))
  {
    hide RetryDelay;
  }

  lemma ReconnectFeeds(s: State, i: Input)
    requires RingFromOne(s) && s.net.None?
    ensures RingFromOne(Reconnected(s, i))
  {
    hide RetryDelay, RingSpec.Fed, DialName;
    EmptyFed();
  }

  lemma ReconnectBacksOff(s: State, i: Input)
    requires BackoffOk(s)
    ensures BackoffOk(Reconnected(s, i))
  {
    hide RetryDelay, Clock.Ok, TrailingFailures, DialName;
    OneMoreOutcome(s.outcomes, false);
    OneMoreOutcome(s.outcomes, true);
  }

  lemma ReconnectOk(s: State, i: Input)
    requires GameOk(s) && s.net.None? && s.fatal == "" && !s.entering
    ensures GameOk(Reconnected(s, i))
  {
    hide Reconnected, DialOk, RingFromOne, Numbered, BackoffOk;
    ReconnectDials(s, i);
    ReconnectFeeds(s, i);
    ReconnectBacksOff(s, i);
  }

  lemma PumpKeepsPlaying(s: State, i: Input)
    requires s.net.Some? && DialOk(s)
    ensures !PumpNet(s, i).entering
  {
  }

  lemma PumpedOk(s: State, i: Input)
    requires GameOk(s) && s.net.Some?
    ensures GameOk(PumpNet(s, i)) && !PumpNet(s, i).entering
  {
    hide PumpNet, RingSpec.Fed;
    PumpOk(s, i);
    PumpKeepsPlaying(s, i);
  }

  lemma TypingOk(s: State, name: string)
    requires GameOk(s) && s.entering
    ensures GameOk(s.(name := name, entering := false))
  {
  }

  lemma UpdateOk(s: State, i: Input)
    requires GameOk(s)
    ensures GameOk(Update(s, i))
  {
    hide RingFromOne, Numbered, BackoffOk, PumpNet, Reconnected, GameOk;
    if s.entering {
      TypingOk(s, i.submitted);
    } else if s.fatal == "" {
      if s.net.Some? {
        PumpedOk(s, i);
      }
      var pumped := if s.net.Some? then PumpNet(s, i) else s;
      if pumped.net.None? && pumped.fatal == "" {
        ReconnectOk(pumped, i);
      }
    }
  }

  lemma DialEndsOk(s: State, failure: Option<string>)
    requires GameOk(s)
    ensures GameOk(Next(s, DialEnds(failure)))
  {
    hide RingSpec.Fed, TrailingFailures;
  }

  lemma RenameOk(s: State, name: string)
    requires GameOk(s)
    ensures GameOk(s.(sessName := name))
  {
  }

  lemma NextOk(s: State, e: Event)
    requires GameOk(s)
    ensures GameOk(Next(s, e))
  {
    match e
    case Framed(i) => UpdateOk(s, i);
    case DialEnds(failure) => DialEndsOk(s, failure);
    case Welcomed(name) => RenameOk(s, name);
  }

  lemma {:induction false} RunOk(s: State, events: seq<Event>)
    requires GameOk(s)
    ensures GameOk(Run(s, events))
  {
    hide GameOk, Next;
    if events != [] {
      RunOk(s, events[..|events| - 1]);
      NextOk(Run(s, events[..|events| - 1]), events[|events| - 1]);
    }
  }

  /** In every run the dials in flight and the results waiting are one while dialing and none
      otherwise, so a dial's send never blocks; and a live connection excludes dialing. */
  lemma OneDialAtATime(name: string, events: seq<Event>)
    ensures var s := Run(Start(name), events);
            && s.inflight + |s.dialRes| == (if s.dialing then 1 else 0)
            && (s.inflight > 0 ==> CanSend(s))
            && (s.net.Some? ==> !s.dialing)
            && (s.fatal != "" ==> !s.dialing && s.net.None?)
  {
    hide Run;
    StartOk(name);
    RunOk(Start(name), events);
  }

  /** In every run the ring is what one connection's snapshots make of an empty ring. */
  lemma RingNeverMixes(name: string, events: seq<Event>)
    ensures var s := Run(Start(name), events);
            && RingSpec.RingOk(s.ring) && s.ring == RingSpec.Fed(Snaps(s.fed))
            && (forall i :: 0 <= i < |s.fed| ==> s.fed[i].conn == s.epoch)
            && (s.net.Some? ==> s.net.value == s.epoch)
  {
    hide Run, RingSpec.Fed, RingSpec.RingOk;
    StartOk(name);
    RunOk(Start(name), events);
    RingSpec.RingIsOrdered(Snaps(Run(Start(name), events).fed));
  }

  /** After a rejection nothing happens any more. */
  lemma {:induction false} FatalIsForever(s: State, events: seq<Event>)
    requires GameOk(s) && s.fatal != ""
    ensures var t := Run(s, events);
            t == s.(sessName := t.sessName)
  {
    if events != [] {
      FatalIsForever(s, events[..|events| - 1]);
    }
  }

  /** In every run the n-th failure in a row is followed by a pause of at least the n-th delay. */
  lemma AttemptsAreSpaced(name: string, events: seq<Event>, k: nat)
    requires k < |Run(Start(name), events).dials|
    ensures var d := Run(Start(name), events).dials[k];
            d.failures > 0 ==> d.at >= d.lastFail + RetryDelay(d.failures)
    ensures var s := Run(Start(name), events);
            s.attempts == TrailingFailures(s.outcomes)
  {
    hide Run, RetryDelay;
    StartOk(name);
    RunOk(Start(name), events);
  }

  // ----- a failure is followed by another attempt -----

  /** Neither connected, nor rejected, nor dialing: the game waits for the time of the next attempt. */
  predicate Waits(s: State) {
    !s.entering && s.fatal == "" && s.net.None? && !s.dialing
  }

  lemma DialStartsWhenDue(s: State, e: Event)
    requires GameOk(s) && Waits(s)
    ensures if e.Framed? && Due(s, e.input.checkNow)
            then Next(s, e).dials == s.dials + [Dial(e.input.checkNow, s.attempts, s.lastFail, DialName(s))]
            else Next(s, e) == s.(sessName := Next(s, e).sessName)
  {
  }

  lemma PumpKeepsDials(s: State, i: Input)
    requires s.net.Some?
    ensures PumpNet(s, i).dials == s.dials && s.outcomes <= PumpNet(s, i).outcomes
  {
    hide RetryDelay;
  }

  lemma ReconnectKeepsDials(s: State, i: Input)
    ensures s.dials <= Reconnected(s, i).dials && s.outcomes <= Reconnected(s, i).outcomes
  {
    hide RetryDelay, DialName;
  }

  lemma NextKeepsDials(s: State, e: Event)
    ensures s.dials <= Next(s, e).dials && s.outcomes <= Next(s, e).outcomes
  {
    hide PumpNet, Reconnected;
    if e.Framed? {
      if s.net.Some? {
        PumpKeepsDials(s, e.input);
        ReconnectKeepsDials(PumpNet(s, e.input), e.input);
      }
      ReconnectKeepsDials(s, e.input);
    }
  }

  lemma {:induction false} RunKeepsDials(s: State, events: seq<Event>)
    ensures s.dials <= Run(s, events).dials && s.outcomes <= Run(s, events).outcomes
  {
    hide Next;
    if events != [] {
      RunKeepsDials(s, events[..|events| - 1]);
      NextKeepsDials(Run(s, events[..|events| - 1]), events[|events| - 1]);
    }
  }

  /** A waiting game stays as it is until it dials. */
  lemma {:induction false} WaitsUntilItDials(s: State, events: seq<Event>)
    requires GameOk(s) && Waits(s)
    ensures var t := Run(s, events);
            |t.dials| == |s.dials| ==> t == s.(sessName := t.sessName)
  {
    hide Next, GameOk;
    if events != [] {
      var m := |events| - 1;
      var before := Run(s, events[..m]);
      WaitsUntilItDials(s, events[..m]);
      RunKeepsDials(s, events[..m]);
      NextKeepsDials(before, events[m]);
      RunOk(s, events[..m]);
      if |before.dials| == |s.dials| {
        DialStartsWhenDue(before, events[m]);
      }
    }
  }

  /** Whatever else happens, a frame at or after the time of the next attempt finds a dial started. */
  lemma {:induction false} DialFollows(s: State, events: seq<Event>, k: nat)
    requires GameOk(s) && Waits(s)
    requires k < |events| && events[k].Framed? && Due(s, events[k].input.checkNow)
    ensures |Run(s, events).dials| > |s.dials|
  {
    hide Next, GameOk;
    var m := |events| - 1;
    var before := Run(s, events[..m]);
    RunKeepsDials(s, events[..m]);
    NextKeepsDials(before, events[m]);
    if k < m {
      DialFollows(s, events[..m], k);
    } else if |before.dials| == |s.dials| {
      WaitsUntilItDials(s, events[..m]);
      RunOk(s, events[..m]);
      DialStartsWhenDue(before, events[m]);
    }
  }

  /** In every run, a failed attempt or lost connection is followed by another dial by the first frame
      eight seconds later, unless the player was rejected. */
  lemma EveryFailureIsRetried(name: string, events: seq<Event>, more: seq<Event>, k: nat)
    requires var s := Run(Start(name), events);
             && s.attempts > 0 && s.net.None? && s.fatal == "" && !s.dialing
             && k < |more| && more[k].Framed? && more[k].input.checkNow >= s.lastFail + RETRY_MAX_MS
    ensures var s := Run(Start(name), events);
            |Run(s, more).dials| > |s.dials|
  {
    hide Run, RetryDelay;
    var s := Run(Start(name), events);
    StartOk(name);
    RunOk(Start(name), events);
    DelayGrows(s.attempts, s.attempts);
    DialFollows(s, more, k);
  }

  lemma ResultIsTaken(s: State, e: Event)
    requires GameOk(s) && s.dialRes != [] && !s.entering
    ensures if e.Framed? then |Next(s, e).outcomes| > |s.outcomes| else Next(s, e) == s.(sessName := Next(s, e).sessName)
  {
  }

  lemma {:induction false} ResultWaits(s: State, events: seq<Event>)
    requires GameOk(s) && s.dialRes != [] && !s.entering
    ensures var t := Run(s, events);
            |t.outcomes| == |s.outcomes| ==> t == s.(sessName := t.sessName)
  {
    hide Next, GameOk;
    if events != [] {
      var m := |events| - 1;
      var before := Run(s, events[..m]);
      ResultWaits(s, events[..m]);
      RunKeepsDials(s, events[..m]);
      NextKeepsDials(before, events[m]);
      RunOk(s, events[..m]);
      if |before.outcomes| == |s.outcomes| {
        ResultIsTaken(before, events[m]);
      }
    }
  }

  /** In every run, the outcome of a dial that has ended is acted upon by the next frame. */
  lemma {:induction false} EveryResultIsTaken(s: State, events: seq<Event>, k: nat)
    requires GameOk(s) && s.dialRes != [] && !s.entering
    requires k < |events| && events[k].Framed?
    ensures |Run(s, events).outcomes| > |s.outcomes|
  {
    hide Next, GameOk;
    var m := |events| - 1;
    var before := Run(s, events[..m]);
    RunKeepsDials(s, events[..m]);
    NextKeepsDials(before, events[m]);
    if k < m {
      EveryResultIsTaken(s, events[..m], k);
    } else if |before.outcomes| == |s.outcomes| {
      ResultWaits(s, events[..m]);
      RunOk(s, events[..m]);
      ResultIsTaken(before, events[m]);
    }
  }

  // ----- connections come one after the other -----

  lemma {:induction false} AbsorbExtends(s: State, arrivals: seq<Arrival>)
    requires s.net.Some?
    ensures s.fed <= Absorb(s, arrivals).fed
  {
    if arrivals != [] {
      AbsorbExtends(s, arrivals[..|arrivals| - 1]);
    }
  }

  /** The same connection, of which more was fed, or a later one. */
  ghost predicate FollowsOn(s: State, t: State) {
    && t.everConnected
    && (t.epoch == s.epoch ==> s.fed <= t.fed)
    && s.epoch <= t.epoch
  }

  lemma NextEpoch(s: State, e: Event)
    requires GameOk(s) && s.everConnected
    ensures FollowsOn(s, Next(s, e))
  {
    hide RetryDelay, Clock.Sampled, RingSpec.Pushed, RingFromOne, BackoffOk;
    if s.net.Some? && e.Framed? {
      AbsorbExtends(s, e.input.arrivals);
    }
  }

  /** In every run connection numbers only grow: a ring once reset for a newer connection is never
      fed by an older one again. */
  lemma {:induction false} ConnectionsFollow(s: State, events: seq<Event>)
    requires GameOk(s) && s.everConnected
    ensures FollowsOn(s, Run(s, events))
  {
    hide Next, GameOk;
    if events != [] {
      var before := Run(s, events[..|events| - 1]);
      ConnectionsFollow(s, events[..|events| - 1]);
      RunOk(s, events[..|events| - 1]);
      NextEpoch(before, events[|events| - 1]);
    }
  }
}
