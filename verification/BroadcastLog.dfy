/** What a whole run of the hub broadcasts, and what a client's ring shows of it in the end. */
module BroadcastLog {
  import opened Options
  import opened Protocol
  import opened Subsequences
  import QueueSpec
  import RingSpec
  import WorldSpec
  import Race
  import opened HubSpec
  import opened HubInvariant
  import opened HubRuns
  import opened Delivery

  ghost function Told(s: State, snapNow: int): Option<Snapshot> {
    if Announced(s) then Some(SnapshotOf(s, snapNow)) else None
  }

  /** The snapshot an event makes the hub broadcast, if any. */
  ghost function ToldBy(s: State, e: Event): Option<Snapshot>
    requires e.EvLeave? && e.who.Some? ==> e.who.value in s.players
  {
    match e
    case EvJoin(c, cleaned, now, snapNow) =>
      if Refusal(s, cleaned).Some? then None
      else
        var (r, sess) := Register(s, c, cleaned.value);
        Told(Admit(r, sess, now), snapNow)
    case EvFlap(_, _) => None
    case EvLeave(_, None, _, _) => None
    case EvLeave(_, Some(sid), now, snapNow) =>
      var struck := Strike(s, s.players[sid]);
      if DepartAnnounces(struck, sid) then Told(Depart(struck, sid, now), snapNow) else None
    case EvTick(now, snapNow) =>
      if Tick(s, now, snapNow).1 != [] then Told(TickState(s, now), snapNow) else None
  }

  ghost function AsSeq(o: Option<Snapshot>): seq<Snapshot> {
    if o.Some? then [o.value] else []
  }

  /** Every snapshot broadcast in a run, in order. */
  ghost function Log(y: System, events: seq<Event>): seq<Snapshot> {
    if events == [] then []
    else
      var before, e := Run(y, events[..|events| - 1]), events[|events| - 1];
      Log(y, events[..|events| - 1]) + if Allowed(before, e) then AsSeq(ToldBy(before.hub, e)) else []
  }

  lemma BroadcastFrames(s: State, snapNow: int, conn: nat)
    requires RegistryOk(s)
    ensures var got := FramesFor(Broadcast(s, snapNow), conn);
            got == [] || (Told(s, snapNow).Some? && got == [Snap(Told(s, snapNow).value)])
  {
    if Announced(s) {
      ToAllOnce(s.players, s.order, Snap(SnapshotOf(s, snapNow)), conn);
    }
  }

  /** An announced snapshot goes exactly once to each player's connection, and to no other. */
  lemma BroadcastReachesPlayers(s: State, snapNow: int, conn: nat)
    requires RegistryOk(s) && Announced(s)
    ensures FramesFor(Broadcast(s, snapNow), conn) ==
            if exists id :: id in s.players && s.players[id].conn == conn then [Snap(SnapshotOf(s, snapNow))] else []
  {
    ToAllOnce(s.players, s.order, Snap(SnapshotOf(s, snapNow)), conn);
    if id :| id in s.players && s.players[id].conn == conn {
      assert id in s.order;
    }
  }

  ghost function Racers(s: State): set<nat> {
    if s.world.Some? then s.world.value.birds.Keys else {}
  }

  function Outsiders(order: seq<nat>, racers: set<nat>): set<nat> {
    set id | id in order && id !in racers
  }

  lemma OneMoreOutsider(front: seq<nat>, id: nat, racers: set<nat>)
    requires id !in front
    ensures |Outsiders(front + [id], racers)| == |Outsiders(front, racers)| + if id in racers then 0 else 1
  {
    assert Outsiders(front + [id], racers) == Outsiders(front, racers) + if id in racers then {} else {id};
  }

  lemma SpectatorsOneMore(s: State, front: seq<nat>, id: nat)
    requires id in s.players
    ensures SpectatorCount(s, front + [id]) == SpectatorCount(s, front) + if id in Racers(s) then 0 else 1
  {
    assert (front + [id])[..|front|] == front;
  }

  lemma {:induction false} OutsidersListed(s: State, order: seq<nat>)
    requires forall i, j :: 0 <= i < j < |order| ==> order[i] != order[j]
    requires forall id :: id in order ==> id in s.players
    ensures SpectatorCount(s, order) == |Outsiders(order, Racers(s))|
  {
    if order == [] {
      assert Outsiders([], Racers(s)) == {};
    } else {
      hide SpectatorCount, Outsiders, Racers;
      var m := |order| - 1;
      OutsidersListed(s, order[..m]);
      OneMoreOutsider(order[..m], order[m], Racers(s));
      SpectatorsOneMore(s, order[..m], order[m]);
      assert order == order[..m] + [order[m]];
    }
  }

  lemma PlayersListed(s: State)
    requires RegistryOk(s)
    ensures Outsiders(s.order, Racers(s)) == s.players.Keys - Racers(s)
    ensures forall i, j :: 0 <= i < j < |s.order| ==> s.order[i] != s.order[j]
    ensures forall id :: id in s.order ==> id in s.players
  {
  }

  /** The number of spectators sent is the number of players without a bird in the race; a countdown
      has none. */
  lemma SpectatorsAreOutsiders(s: State)
    requires Inv(s)
    ensures SpectatorCount(s, s.order) == |s.players.Keys - Racers(s)|
    ensures s.st == Countdown ==> SpectatorCount(s, s.order) == 0
  {
    hide Registry, Race.Grid, HistoryOk, FinishedOk, RacingOk, WaitingOk, SpectatorCount, Outsiders;
    PlayersListed(s);
    OutsidersListed(s, s.order);
    assert s.st == Countdown ==> s.players.Keys - Racers(s) == {};
  }

  lemma {:induction false} SnapsOfAppend(a: seq<Frame>, b: seq<Frame>)
    ensures SnapsOf(a + b) == SnapsOf(a) + SnapsOf(b)
  {
    if b == [] {
      assert a + b == a;
    } else {
      assert (a + b)[..|a + b| - 1] == a + b[..|b| - 1];
      SnapsOfAppend(a, b[..|b| - 1]);
    }
  }

  /** Of one event's acts, a connection gets at most one snapshot: the one broadcast. */
  ghost predicate AtMostTold(acts: seq<Act>, conn: nat, told: Option<Snapshot>) {
    var snaps := SnapsOf(FramesFor(acts, conn));
    snaps == [] || snaps == AsSeq(told)
  }

  lemma SnapsOfOne(snap: Snapshot)
    ensures SnapsOf([Snap(snap)]) == [snap]
  {
    assert [Snap(snap)][..0] == [];
  }

  lemma BroadcastAtMost(s: State, snapNow: int, conn: nat)
    requires RegistryOk(s)
    ensures AtMostTold(Broadcast(s, snapNow), conn, Told(s, snapNow))
  {
    hide Broadcast, Told, Registry;
    BroadcastFrames(s, snapNow, conn);
    if Told(s, snapNow).Some? {
      SnapsOfOne(Told(s, snapNow).value);
    }
  }

  lemma WithoutSnaps(acts: seq<Act>, more: seq<Act>, conn: nat, told: Option<Snapshot>)
    requires SnapsOf(FramesFor(more, conn)) == []
    ensures SnapsOf(FramesFor(acts + more, conn)) == SnapsOf(FramesFor(acts, conn))
    ensures SnapsOf(FramesFor(more + acts, conn)) == SnapsOf(FramesFor(acts, conn))
  {
    FramesForAppend(acts, more, conn);
    FramesForAppend(more, acts, conn);
    SnapsOfAppend(FramesFor(acts, conn), FramesFor(more, conn));
    SnapsOfAppend(FramesFor(more, conn), FramesFor(acts, conn));
  }

  lemma OneActNoSnap(a: Act, conn: nat)
    requires a.Enqueue? ==> !a.frame.Snap?
    ensures SnapsOf(FramesFor([a], conn)) == []
  {
    assert [a][..0] == [];
    if a.Enqueue? && a.conn == conn {
      assert [a.frame][..0] == [];
    }
  }

  lemma RejectNoSnap(c: nat, msg: string, conn: nat)
    ensures SnapsOf(FramesFor(Reject(c, msg), conn)) == []
  {
    OneActNoSnap(Enqueue(c, Error(msg)), conn);
    OneActNoSnap(Close(c), conn);
    assert Reject(c, msg) == [Enqueue(c, Error(msg))] + [Close(c)];
    WithoutSnaps([Enqueue(c, Error(msg))], [Close(c)], conn, None);
  }

  lemma SameRegistry(s: State, snapNow: int)
    ensures RegistryOk(AfterBroadcast(s, snapNow)) <==> RegistryOk(s)
  {
    hide Registry;
  }

  lemma JoinTells(s: State, c: nat, cleaned: Option<string>, now: int, snapNow: int, conn: nat)
    requires Inv(s) && forall id :: id in s.players ==> s.players[id].conn != c
    ensures AtMostTold(Join(s, c, cleaned, now, snapNow).1, conn, ToldBy(s, EvJoin(c, cleaned, now, snapNow)))
  {
    hide Inv, RegistryOk, Register, Admit, Broadcast, AfterBroadcast, WelcomeFor, Told, FramesFor, SnapsOf;
    if Refusal(s, cleaned).Some? {
      RejectNoSnap(c, Refusal(s, cleaned).value, conn);
    } else {
      var (r, sess) := Register(s, c, cleaned.value);
      var a := Admit(r, sess, now);
      JoinInv(s, c, cleaned, now, snapNow);
      InvNeeds(AfterBroadcast(a, snapNow));
      SameRegistry(a, snapNow);
      BroadcastAtMost(a, snapNow, conn);
      IsWelcome(a, sess, now);
      OneActNoSnap(Enqueue(c, WelcomeFor(a, sess, now)), conn);
      WithoutSnaps(Broadcast(a, snapNow), [Enqueue(c, WelcomeFor(a, sess, now))], conn, None);
    }
  }

  lemma LeaveTells(s: State, c: nat, who: Option<nat>, now: int, snapNow: int, conn: nat)
    requires Inv(s) && (who.Some? ==> who.value in s.players)
    ensures AtMostTold(Leave(s, c, who, now, snapNow).1, conn, ToldBy(s, EvLeave(c, who, now, snapNow)))
  {
    hide Inv, RegistryOk, Strike, Depart, Broadcast, AfterBroadcast, Told, FramesFor, SnapsOf, DepartAnnounces;
    OneActNoSnap(Close(c), conn);
    if who.Some? {
      var struck := Strike(s, s.players[who.value]);
      var left := Depart(struck, who.value, now);
      if DepartAnnounces(struck, who.value) {
        LeaveInv(s, c, who, now, snapNow);
        InvNeeds(AfterBroadcast(left, snapNow));
        SameRegistry(left, snapNow);
        BroadcastAtMost(left, snapNow, conn);
        WithoutSnaps(Broadcast(left, snapNow), [Close(c)], conn, None);
      } else {
        assert [] + [Close(c)] == [Close(c)];
      }
    }
  }

  lemma TickTells(s: State, now: int, snapNow: int, conn: nat)
    requires Inv(s)
    ensures AtMostTold(Tick(s, now, snapNow).1, conn, ToldBy(s, EvTick(now, snapNow)))
  {
    hide Inv, RegistryOk, TickState, Broadcast, AfterBroadcast, Told, SnapshotDue;
    var ticked := TickState(s, now);
    if Tick(s, now, snapNow).1 != [] {
      TickInv(s, now, snapNow);
      InvNeeds(AfterBroadcast(ticked, snapNow));
      SameRegistry(ticked, snapNow);
      BroadcastAtMost(ticked, snapNow, conn);
    }
  }

  lemma NothingTold(conn: nat, told: Option<Snapshot>)
    ensures AtMostTold([], conn, told)
  {
  }

  lemma EventTells(y: System, e: Event, conn: nat)
    requires SystemInv(y) && Allowed(y, e)
    ensures AtMostTold(Handle(y.hub, e).1, conn, ToldBy(y.hub, e))
  {
    hide Inv, TraceOk, ShapeOk, Join, Leave, Tick, Flap, ToldBy, AtMostTold;
    match e
    case EvJoin(c, cleaned, now, snapNow) =>
      OpenAll(y.hub.players, y.conns);
      JoinTells(y.hub, c, cleaned, now, snapNow, conn);
    case EvFlap(sid, now) => NothingTold(conn, ToldBy(y.hub, e));
    case EvLeave(c, who, now, snapNow) => LeaveTells(y.hub, c, who, now, snapNow, conn);
    case EvTick(now, snapNow) => TickTells(y.hub, now, snapNow, conn);
  }

  lemma HandleAppends(y: System, e: Event)
    requires Allowed(y, e)
    ensures Next(y, e).acts == y.acts + Handle(y.hub, e).1
  {
  }

  lemma LogStep(y: System, e: Event, conn: nat, log: seq<Snapshot>)
    requires SystemInv(y) && Allowed(y, e) && Subseq(SnapsOf(FramesFor(y.acts, conn)), log)
    ensures Subseq(SnapsOf(FramesFor(Next(y, e).acts, conn)), log + AsSeq(ToldBy(y.hub, e)))
  {
    hide Subseq, SystemInv, Handle, ToldBy, FramesFor, SnapsOf;
    EventTells(y, e, conn);
    HandleAppends(y, e);
    var more := Handle(y.hub, e).1;
    var sofar, news := SnapsOf(FramesFor(y.acts, conn)), SnapsOf(FramesFor(more, conn));
    FramesForAppend(y.acts, more, conn);
    SnapsOfAppend(FramesFor(y.acts, conn), FramesFor(more, conn));
    SubseqAppend(sofar, log, AsSeq(ToldBy(y.hub, e)));
    assert news == [] ==> sofar + news == sofar;
  }

  lemma NotAllowed(y: System, e: Event)
    requires !Allowed(y, e)
    ensures Next(y, e) == y
  {
  }

  /** The snapshots queued for a connection in a run are a subsequence of the run's broadcasts. */
  lemma {:induction false} QueuedAreBroadcasts(y: System, events: seq<Event>, conn: nat)
    requires Initial(y)
    ensures Subseq(SnapsOf(FramesFor(Run(y, events).acts, conn)), Log(y, events))
  {
    hide Subseq, SystemInv, Next, ToldBy, Allowed;
    if events == [] {
      SubseqRefl<Snapshot>([]);
    } else {
      var m := |events| - 1;
      var before, e := Run(y, events[..m]), events[m];
      QueuedAreBroadcasts(y, events[..m], conn);
      InitialInv(y);
      RunInv(y, events[..m]);
      if Allowed(before, e) {
        LogStep(before, e, conn, Log(y, events[..m]));
      } else {
        NotAllowed(before, e);
        assert Log(y, events) == Log(y, events[..m]);
      }
    }
  }

  lemma WelcomeIsFirst(steps: seq<Step>, i: nat)
    requires var l := RunLink(steps);
             && i < |l.server.received| && l.server.received[i].Welcome?
             && (l.server.sent == [] || OneError(l.server.sent) || WelcomeFirst(l.server.sent))
    ensures i == 0
  {
    hide RunLink;
    var l := RunLink(steps);
    ReceivedInOrder(steps);
    var places := SubseqPlaces(l.server.received, l.server.sent);
    if WelcomeFirst(l.server.sent) {
      WelcomeArrivesFirst(steps, i);
    }
    assert places[i] < |l.server.sent|;
  }

  /** End to end: for any run of the hub and any schedule of the goroutines that carry one connection's
      frames, the client's ring is a strictly time-ordered subsequence of the hub's broadcasts, and a
      welcome, if it arrives, arrives before everything else. */
  lemma RingShowsBroadcasts(y: System, events: seq<Event>, conn: nat, steps: seq<Step>)
    requires Initial(y)
    requires RunLink(steps).server.sent == FramesFor(Run(y, events).acts, conn)
    ensures var l := RunLink(steps);
            && RingSpec.RingOk(RingOf(l)) && Subseq(RingOf(l), Log(y, events))
            && forall i :: 0 <= i < |l.server.received| && l.server.received[i].Welcome? ==> i == 0
  {
    hide Subseq, RingSpec.RingOk, Run, RunLink, Initial, WelcomeFirst, OneError, FramesFor, SnapsOf;
    var l := RunLink(steps);
    ReceivedInOrder(steps);
    QueuedAreBroadcasts(y, events, conn);
    SubseqTrans(RingOf(l), SnapsOf(l.server.sent), Log(y, events));
    WelcomeComesFirst(y, events, conn);
    forall i | 0 <= i < |l.server.received| && l.server.received[i].Welcome?
      ensures i == 0
    {
      WelcomeIsFirst(steps, i);
    }
  }
}
