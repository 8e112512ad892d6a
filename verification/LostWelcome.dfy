/** A run in which a welcome is never delivered: somebody joins and reads nothing, while somebody else
    comes and goes. */
module LostWelcome {
  import opened Options
  import opened Protocol
  import opened HubSpec
  import opened HubInvariant
  import opened HubRuns
  import opened BroadcastLog
  import Delivery
  import QueueSpec
  import Names
  import StaleFlap
  import WorldSpec
  import Race

  /** A countdown with one player, on connection zero, and room for another; the connections from `c`
      on are unknown yet. */
  ghost predicate Hosting(y: System, c: nat) {
    && SystemInv(y) && y.hub.st == Countdown && y.hub.cfg.maxPlayers >= 2 && c >= 1
    && |y.hub.players| == 1 && (exists id :: id in y.hub.players && y.hub.players[id].conn == 0)
    && (forall d :: d in y.conns ==> d < c)
  }

  lemma OneActElsewhere(a: Act)
    requires a.conn != 0 || a.Close?
    ensures FramesFor([a], 0) == []
  {
    assert [a][..0] == [];
  }

  lemma IdsAreGiven(s: State)
    requires RegistryOk(s)
    ensures forall id :: id in s.players ==> id <= s.nextID
  {
  }

  lemma JoinedIsAnnounced(s: State, a: State, c: nat, now: int)
    requires StaleFlap.Joined(s, AfterBroadcast(a, now), c)
    requires exists id :: id in s.players && s.players[id].conn == 0
    requires forall id :: id in s.players ==> id <= s.nextID
    ensures Announced(a) && exists id :: id in a.players && a.players[id].conn == 0
  {
    var id :| id in s.players && s.players[id].conn == 0;
    assert id in a.players && a.players[id] == s.players[id];
  }

  /** A newcomer's arrival is told to the player who waits. */
  lemma JoinTells(s: State, c: nat, now: int)
    requires Inv(s) && s.st == Countdown && |s.players| < s.cfg.maxPlayers
    requires forall id :: id in s.players ==> s.players[id].conn != c
    requires c != 0 && exists id :: id in s.players && s.players[id].conn == 0
    ensures |FramesFor(Join(s, c, Some("b"), now, now).1, 0)| == 1
  {
    hide Inv, Register, Admit, AfterBroadcast, Broadcast, WelcomeFor, FramesFor, RegistryOk, StaleFlap.Joined;
    InvNeeds(s);
    IdsAreGiven(s);
    var (r, sess) := Register(s, c, "b");
    var a := Admit(r, sess, now);
    JoinEffect(s, c, Some("b"), now, now);
    JoinInv(s, c, Some("b"), now, now);
    InvNeeds(AfterBroadcast(a, now));
    SameRegistry(a, now);
    StaleFlap.Joins(s, c, "b", now);
    JoinedIsAnnounced(s, a, c, now);
    BroadcastReachesPlayers(a, now, 0);
    FramesForAppend([Enqueue(c, WelcomeFor(a, sess, now))], Broadcast(a, now), 0);
    OneActElsewhere(Enqueue(c, WelcomeFor(a, sess, now)));
  }

  lemma LineStays(w: WorldSpec.State, id: nat, other: nat)
    requires id in w.birds && other in w.birds && other != id
    ensures WorldSpec.RemoveBird(w, id).birds != map[]
  {
    assert other in WorldSpec.RemoveBird(w, id).birds;
  }

  /** One of two leaves the line: the countdown goes on, and the other is told. */
  lemma LeaveTells(s: State, c: nat, id: nat, other: nat, now: int)
    requires Inv(s) && s.st == Countdown && id in s.players && s.players[id].conn == c
    requires other in s.players && other != id && s.players[other].conn == 0
    ensures var l := Leave(s, c, Some(id), now, now);
            && l.0.st == Countdown && l.0.players == s.players - {id} && l.0.cfg == s.cfg
            && |FramesFor(l.1, 0)| == 1
  {
    hide Registry, Race.Grid, HistoryOk, Broadcast, FramesFor, WorldSpec.RemoveBird, WorldSpec.Without;
    SessionId(s, id);
    var struck := Strike(s, s.players[id]);
    LineStays(s.world.value, id, other);
    var left := Depart(struck, id, now);
    LeaveInv(s, c, Some(id), now, now);
    SameRegistry(left, now);
    assert left.players[other].conn == 0;
    BroadcastReachesPlayers(left, now, 0);
    FramesForAppend(Broadcast(left, now), [Close(c)], 0);
    OneActElsewhere(Close(c));
  }

  lemma JoinedIs(s: State, t: State, c: nat)
    requires StaleFlap.Joined(s, t, c)
    requires forall id :: id in s.players ==> id <= s.nextID
    ensures t.st == Countdown && t.cfg == s.cfg && s.nextID + 1 in t.players && t.players[s.nextID + 1].conn == c
    ensures t.players - {s.nextID + 1} == s.players
    ensures forall id :: id in s.players ==> id in t.players && t.players[id] == s.players[id] && id != s.nextID + 1
  {
  }

  /** The players `hosts` and one guest. */
  ghost predicate WithGuest(y: System, c: nat, id: nat, hosts: map<nat, Session>) {
    && SystemInv(y) && y.hub.st == Countdown && y.hub.cfg.maxPlayers >= 2 && c >= 1
    && id in y.hub.players && y.hub.players[id].conn == c && y.hub.players - {id} == hosts
    && |hosts| == 1 && (exists h :: h in hosts && hosts[h].conn == 0)
    && (forall d :: d in y.conns ==> d <= c)
  }

  lemma GuestIsTold(y: System, c: nat, now: int)
    requires Hosting(y, c)
    ensures |FramesFor(Next(y, EvJoin(c, Some("b"), now, now)).acts, 0)| == |FramesFor(y.acts, 0)| + 1
  {
    hide Inv, Join, FramesFor, TraceOk, ShapeOk;
    OpenAll(y.hub.players, y.conns);
    JoinTells(y.hub, c, now);
    FramesForAppend(y.acts, Join(y.hub, c, Some("b"), now, now).1, 0);
  }

  lemma HostFacts(y: System, c: nat)
    requires Hosting(y, c)
    ensures SystemInv(y) && c !in y.conns && forall id :: id in y.hub.players ==> id <= y.hub.nextID
  {
    hide PhaseOk, HistoryOk, ConnsOk, TraceOk, ShapeOk;
  }

  lemma GuestComes(y: System, c: nat, now: int)
    requires Hosting(y, c)
    ensures WithGuest(Next(y, EvJoin(c, Some("b"), now, now)), c, y.hub.nextID + 1, y.hub.players)
  {
    hide SystemInv, Next, StaleFlap.Joined;
    HostFacts(y, c);
    StaleFlap.JoinNext(y, c, "b", now);
    JoinedIs(y.hub, Next(y, EvJoin(c, Some("b"), now, now)).hub, c);
  }

  lemma GuestGoes(y: System, c: nat, id: nat, hosts: map<nat, Session>, now: int)
    requires WithGuest(y, c, id, hosts)
    ensures var z := Next(y, EvLeave(c, Some(id), now, now));
            Hosting(z, c + 1) && |FramesFor(z.acts, 0)| == |FramesFor(y.acts, 0)| + 1
  {
    hide Inv, Leave, FramesFor, TraceOk, ShapeOk, ConnsOk;
    var h :| h in hosts && hosts[h].conn == 0;
    LeaveTells(y.hub, c, id, h, now);
    NextInv(y, EvLeave(c, Some(id), now, now));
    FramesForAppend(y.acts, Leave(y.hub, c, Some(id), now, now).1, 0);
  }

  /** Somebody comes and goes: two more snapshots are queued for the one who waits. */
  lemma Visit(y: System, c: nat, now: int) returns (z: System, events: seq<Event>)
    requires Hosting(y, c)
    ensures z == Run(y, events) && Hosting(z, c + 1) && OnClock(events, now, now)
    ensures |FramesFor(z.acts, 0)| == |FramesFor(y.acts, 0)| + 2
  {
    hide Hosting, WithGuest, Next, FramesFor;
    var id := y.hub.nextID + 1;
    var e1, e2 := EvJoin(c, Some("b"), now, now), EvLeave(c, Some(id), now, now);
    GuestComes(y, c, now);
    GuestIsTold(y, c, now);
    GuestGoes(Next(y, e1), c, id, y.hub.players, now);
    z := Next(Next(y, e1), e2);
    events := [e1] + [e2];
    RunTwo(y, e1, e2);
    OneOnClock(e1, now, now);
    OneOnClock(e2, now, now);
    OnClockAppend([e1], [e2], now, now, now);
  }

  lemma {:induction false} Visits(y: System, c: nat, now: int, n: nat) returns (z: System, events: seq<Event>)
    requires Hosting(y, c)
    ensures z == Run(y, events) && Hosting(z, c + n) && OnClock(events, now, now)
    ensures |FramesFor(z.acts, 0)| == |FramesFor(y.acts, 0)| + 2 * n
  {
    hide Hosting, Next, FramesFor;
    if n == 0 {
      z, events := y, [];
    } else {
      var m, front := Visits(y, c, now, n - 1);
      var back;
      z, back := Visit(m, c + n - 1, now);
      events := front + back;
      RunAppend(y, front, back);
      OnClockAppend(front, back, now, now, now);
    }
  }

  lemma HostJoins(y: System, now: int)
    requires Initial(y) && y.hub.cfg.maxPlayers >= 2
    ensures Hosting(Next(y, EvJoin(0, Some("a"), now, now)), 1)
  {
    hide SystemInv, Next;
    InitialInv(y);
    StaleFlap.JoinNext(y, 0, "a", now);
    var z := Next(y, EvJoin(0, Some("a"), now, now));
    assert z.hub.players == map[1 := z.hub.players[1]];
  }

  lemma HostIsWelcomed(y: System, c: nat)
    requires Hosting(y, c)
    ensures WelcomeFirst(FramesFor(y.acts, 0))
  {
    hide Inv, TraceOk, FramesFor;
  }

  /** From every initial state that admits two players, at any time and on an ordinary clock, there is a
      run after which the queue of a client that reads nothing no longer holds its welcome. */
  lemma WelcomeIsLost(y: System, now: int) returns (events: seq<Event>)
    requires Initial(y) && y.hub.cfg.maxPlayers >= 2
    ensures OnClock(events, now, now)
    ensures var frames := FramesFor(Run(y, events).acts, 0);
            && WelcomeFirst(frames)
            && !Delivery.HasWelcome(QueueSpec.Run(QueueSpec.Empty(QueueSpec.SEND_QUEUE_LEN), QueueSpec.Sends(frames)).queue)
  {
    hide Hosting, Initial, Next, FramesFor, QueueSpec.Run, QueueSpec.Sends, Delivery.HasWelcome;
    var e := EvJoin(0, Some("a"), now, now);
    HostJoins(y, now);
    var z, visits := Visits(Next(y, e), 1, now, 33);
    events := [e] + visits;
    RunLast(y, [], e);
    assert [] + [e] == [e];
    RunAppend(y, [e], visits);
    OneOnClock(e, now, now);
    OnClockAppend([e], visits, now, now, now);
    HostIsWelcomed(z, 34);
    Delivery.UnreadWelcomeSurvivesIff(FramesFor(z.acts, 0));
  }
}
