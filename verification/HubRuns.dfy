/** Whole runs of the hub: any events the session protocol allows, at any clock readings. */
module HubRuns {
  import opened Options
  import opened Protocol
  import opened StoreSpec
  import Rng
  import WorldSpec
  import Race
  import Rank
  import opened HubSpec
  import opened HubInvariant

  datatype Event =
    | EvJoin(conn: nat, cleaned: Option<string>, now: int, snapNow: int)
    | EvFlap(sid: nat, now: int)
    | EvLeave(conn: nat, who: Option<nat>, now: int, snapNow: int)
    | EvTick(now: int, snapNow: int)

  /** A connection is open from its join on, or was refused, or is gone. */
  datatype Conn = Open(sid: nat) | Refused | Gone

  datatype System = System(hub: State, conns: map<nat, Conn>, acts: seq<Act>)

  /** A connection joins at most once, flaps only while open, and leaves once: with its session
      if it has one, without if it never joined or was refused. */
  predicate Allowed(y: System, e: Event) {
    match e
    case EvJoin(c, _, _, _) => c !in y.conns
    case EvFlap(sid, _) => sid in y.hub.players
    case EvLeave(c, Some(sid), _, _) => sid in y.hub.players && y.hub.players[sid].conn == c
    case EvLeave(c, None, _, _) => c !in y.conns || y.conns[c] == Refused
    case EvTick(_, _) => true
  }

  ghost function Handle(s: State, e: Event): (State, seq<Act>)
    requires e.EvFlap? ==> e.sid in s.players
    requires e.EvLeave? && e.who.Some? ==> e.who.value in s.players
  {
    match e
    case EvJoin(c, cleaned, now, snapNow) => Join(s, c, cleaned, now, snapNow)
    case EvFlap(sid, now) => (Flap(s, sid, now), [])
    case EvLeave(c, sid, now, snapNow) => Leave(s, c, sid, now, snapNow)
    case EvTick(now, snapNow) => Tick(s, now, snapNow)
  }

  function ConnsAfter(y: System, e: Event): map<nat, Conn> {
    match e
    case EvJoin(c, cleaned, _, _) =>
      y.conns[c := if Refusal(y.hub, cleaned).Some? then Refused else Open(y.hub.nextID + 1)]
    case EvLeave(c, _, _, _) => y.conns[c := Gone]
    case _ => y.conns
  }

  /** Events the protocol rules out do not happen. */
  ghost function Next(y: System, e: Event): System {
    if !Allowed(y, e) then y
    else
      var (hub, acts) := Handle(y.hub, e);
      System(hub, ConnsAfter(y, e), y.acts + acts)
  }

  ghost function Run(y: System, events: seq<Event>): System {
    if events == [] then y else Next(Run(y, events[..|events| - 1]), events[|events| - 1])
  }

  lemma RunLast(y: System, events: seq<Event>, e: Event)
    ensures Run(y, events + [e]) == Next(Run(y, events), e)
  {
    assert (events + [e])[..|events|] == events;
  }

  lemma RunTwo(y: System, a: Event, b: Event)
    ensures Run(y, [a] + [b]) == Next(Next(y, a), b)
  {
    hide Next;
    RunLast(y, [], a);
    RunLast(y, [a], b);
    assert [] + [a] == [a];
  }

  lemma {:induction false} RunAppend(y: System, a: seq<Event>, b: seq<Event>)
    ensures Run(y, a + b) == Run(Run(y, a), b)
  {
    if b == [] {
      assert a + b == a;
    } else {
      assert (a + b)[..|a + b| - 1] == a + b[..|b| - 1];
      RunAppend(y, a, b[..|b| - 1]);
    }
  }

  // ----- runs on an ordinary clock -----

  /** The last reading of the clock while an event is handled; the first is its `now`. */
  function Ended(e: Event): int {
    if e.EvFlap? then e.now else e.snapNow
  }

  /** The readings of a run never decrease, the first is not before `from` and the last not after `to`. */
  predicate OnClock(events: seq<Event>, from: int, to: int) {
    if events == [] then from <= to
    else
      var e := events[|events| - 1];
      OnClock(events[..|events| - 1], from, e.now) && e.now <= Ended(e) <= to
  }

  lemma OneOnClock(e: Event, from: int, to: int)
    requires from <= e.now <= Ended(e) <= to
    ensures OnClock([e], from, to)
  {
    assert [e][..0] == [];
  }

  lemma {:induction false} OnClockAppend(a: seq<Event>, b: seq<Event>, from: int, mid: int, to: int)
    requires OnClock(a, from, mid) && OnClock(b, mid, to)
    ensures OnClock(a + b, from, to)
  {
    if b == [] {
      assert a + b == a;
      if a != [] {
        assert Ended(a[|a| - 1]) <= to;
      }
    } else {
      var e := b[|b| - 1];
      assert (a + b)[..|a + b| - 1] == a + b[..|b| - 1];
      OnClockAppend(a, b[..|b| - 1], from, mid, e.now);
    }
  }

  ghost predicate Initial(y: System) {
    y == System(New(y.hub.cfg, y.hub.words, y.hub.stats), map[], [])
  }

  // ----- every handler keeps the invariant -----

  lemma HandleInv(s: State, e: Event)
    requires Inv(s)
    requires e.EvFlap? ==> e.sid in s.players
    requires e.EvLeave? && e.who.Some? ==> e.who.value in s.players
    requires e.EvJoin? ==> forall id :: id in s.players ==> s.players[id].conn != e.conn
    ensures Inv(Handle(s, e).0)
  {
    hide Inv, Join, Flap, Leave, Tick;
    match e
    case EvJoin(c, cleaned, now, snapNow) => JoinInv(s, c, cleaned, now, snapNow);
    case EvFlap(sid, now) => FlapInv(s, sid, now);
    case EvLeave(c, sid, now, snapNow) => LeaveInv(s, c, sid, now, snapNow);
    case EvTick(now, snapNow) => TickInv(s, now, snapNow);
  }

  // ----- who gets which frames -----

  function FramesFor(acts: seq<Act>, conn: nat): seq<Frame> {
    if acts == [] then []
    else
      var a := acts[|acts| - 1];
      FramesFor(acts[..|acts| - 1], conn) + if a.Enqueue? && a.conn == conn then [a.frame] else []
  }

  lemma {:induction false} FramesForAppend(a: seq<Act>, b: seq<Act>, conn: nat)
    ensures FramesFor(a + b, conn) == FramesFor(a, conn) + FramesFor(b, conn)
  {
    if b == [] {
      assert a + b == a;
    } else {
      var m := |b| - 1;
      assert (a + b)[..|a + b| - 1] == a + b[..m];
      FramesForAppend(a, b[..m], conn);
    }
  }

  /** Some listed player is on this connection. */
  ghost predicate Reaches(players: map<nat, Session>, order: seq<nat>, conn: nat) {
    exists id :: id in order && id in players && players[id].conn == conn
  }

  lemma NobodyReached(players: map<nat, Session>, conn: nat)
    ensures !Reaches(players, [], conn)
  {
  }

  /** If the last listed player is on the connection, no other one is. */
  lemma ReachesLast(players: map<nat, Session>, front: seq<nat>, id: nat, conn: nat)
    requires forall i, j :: 0 <= i < j < |front + [id]| ==> (front + [id])[i] != (front + [id])[j]
    requires forall a, b :: a in players && b in players && players[a].conn == players[b].conn ==> a == b
    ensures Reaches(players, front + [id], conn) <==>
            Reaches(players, front, conn) || (id in players && players[id].conn == conn)
    ensures id in players && players[id].conn == conn ==> !Reaches(players, front, conn)
  {
    assert id !in front by {
      assert (front + [id])[|front|] == id;
      forall i | 0 <= i < |front|
        ensures front[i] != id
      {
        assert (front + [id])[i] == front[i];
      }
    }
  }

  lemma FramesForLast(acts: seq<Act>, a: Act, conn: nat)
    ensures FramesFor(acts + [a], conn) ==
            if a.Enqueue? && a.conn == conn then FramesFor(acts, conn) + [a.frame] else FramesFor(acts, conn)
  {
    assert (acts + [a])[..|acts|] == acts;
  }

  /** A broadcast queues exactly one copy for every listed player, and nothing for anybody else. */
  lemma {:induction false} ToAllOnce(players: map<nat, Session>, order: seq<nat>, frame: Frame, conn: nat)
    requires forall i, j :: 0 <= i < j < |order| ==> order[i] != order[j]
    requires forall a, b :: a in players && b in players && players[a].conn == players[b].conn ==> a == b
    ensures FramesFor(ToAll(players, order, frame), conn) == if Reaches(players, order, conn) then [frame] else []
  {
    hide Reaches;
    if order == [] {
      NobodyReached(players, conn);
    } else {
      var m := |order| - 1;
      var id, front := order[m], order[..m];
      ToAllOnce(players, front, frame, conn);
      assert order == front + [id];
      ReachesLast(players, front, id, conn);
      if id in players {
        hide FramesFor;
        FramesForLast(ToAll(players, front, frame), Enqueue(players[id].conn, frame), conn);
      } else {
        assert ToAll(players, front, frame) + [] == ToAll(players, front, frame);
      }
    }
  }

  /** A broadcast only queues the given frame, and only for listed players. */
  lemma {:induction false} ToAllTargets(players: map<nat, Session>, order: seq<nat>, frame: Frame, i: nat)
    requires i < |ToAll(players, order, frame)|
    ensures var a := ToAll(players, order, frame)[i];
            a.Enqueue? && a.frame == frame && Reaches(players, order, a.conn)
  {
    var m := |order| - 1;
    var id, front := order[m], order[..m];
    assert order == front + [id];
    if i < |ToAll(players, front, frame)| {
      ToAllTargets(players, front, frame, i);
    }
  }

  // ----- no frame on a closed queue, and the welcome first -----

  ghost predicate NoLateEnqueue(acts: seq<Act>) {
    forall i, j :: 0 <= i < j < |acts| && acts[i].Close? && acts[j].Enqueue? ==> acts[i].conn != acts[j].conn
  }

  /** Only known connections are touched, and open ones have not been closed. */
  ghost predicate TraceOk(acts: seq<Act>, conns: map<nat, Conn>) {
    && NoLateEnqueue(acts)
    && forall i :: 0 <= i < |acts| ==> acts[i].conn in conns && (acts[i].Close? ==> !conns[acts[i].conn].Open?)
  }

  /** A welcome, then snapshots only. */
  predicate WelcomeFirst(frames: seq<Frame>) {
    frames != [] && frames[0].Welcome? && forall i :: 1 <= i < |frames| ==> frames[i].Snap?
  }

  predicate OneError(frames: seq<Frame>) {
    |frames| == 1 && frames[0].Error?
  }

  ghost predicate ShapeOk(acts: seq<Act>, conns: map<nat, Conn>) {
    forall c :: c in conns ==>
      match conns[c]
      case Open(_) => WelcomeFirst(FramesFor(acts, c))
      case Refused => OneError(FramesFor(acts, c))
      case Gone => FramesFor(acts, c) == [] || OneError(FramesFor(acts, c)) || WelcomeFirst(FramesFor(acts, c))
  }

  /** Sessions and open connections are the same pairs. */
  ghost predicate ConnsOk(players: map<nat, Session>, conns: map<nat, Conn>) {
    && (forall c :: c in conns && conns[c].Open? ==> conns[c].sid in players && players[conns[c].sid].conn == c)
    && (forall id :: id in players ==> players[id].conn in conns && conns[players[id].conn] == Open(id))
  }

  ghost predicate SystemInv(y: System) {
    && Inv(y.hub)
    && ConnsOk(y.hub.players, y.conns)
    && TraceOk(y.acts, y.conns)
    && ShapeOk(y.acts, y.conns)
  }

  ghost predicate SnapsTo(acts: seq<Act>, conns: map<nat, Conn>) {
    forall i :: 0 <= i < |acts| ==>
      acts[i].Enqueue? && acts[i].frame.Snap? && acts[i].conn in conns && conns[acts[i].conn].Open?
  }

  lemma {:induction false} OnlySnaps(acts: seq<Act>, conns: map<nat, Conn>, conn: nat)
    requires SnapsTo(acts, conns)
    ensures forall f :: f in FramesFor(acts, conn) ==> f.Snap?
    ensures !(conn in conns && conns[conn].Open?) ==> FramesFor(acts, conn) == []
  {
    if acts != [] {
      OnlySnaps(acts[..|acts| - 1], conns, conn);
    }
  }

  lemma {:induction false} UntouchedHasNoFrames(acts: seq<Act>, conn: nat)
    requires forall i :: 0 <= i < |acts| ==> acts[i].conn != conn
    ensures FramesFor(acts, conn) == []
  {
    if acts != [] {
      UntouchedHasNoFrames(acts[..|acts| - 1], conn);
    }
  }

  lemma AppendSnaps(acts: seq<Act>, more: seq<Act>, conns: map<nat, Conn>)
    requires TraceOk(acts, conns) && ShapeOk(acts, conns) && SnapsTo(more, conns)
    ensures TraceOk(acts + more, conns) && ShapeOk(acts + more, conns)
  {
    forall c | c in conns
      ensures FramesFor(acts + more, c) == FramesFor(acts, c) + FramesFor(more, c)
      ensures WelcomeFirst(FramesFor(acts, c)) ==> WelcomeFirst(FramesFor(acts + more, c))
      ensures !conns[c].Open? ==> FramesFor(acts + more, c) == FramesFor(acts, c)
    {
      FramesForAppend(acts, more, c);
      OnlySnaps(more, conns, c);
    }
  }

  lemma AcceptTrace(acts: seq<Act>, conns: map<nat, Conn>, c: nat, sid: nat, welcome: Frame)
    requires TraceOk(acts, conns) && c !in conns
    ensures TraceOk(acts + [Enqueue(c, welcome)], conns[c := Open(sid)])
  {
  }

  lemma UnknownHasNoFrames(acts: seq<Act>, conns: map<nat, Conn>, c: nat)
    requires TraceOk(acts, conns) && c !in conns
    ensures FramesFor(acts, c) == []
  {
    UntouchedHasNoFrames(acts, c);
  }

  lemma IsFirst(welcome: Frame)
    requires welcome.Welcome?
    ensures WelcomeFirst([welcome])
  {
  }

  lemma Accept(acts: seq<Act>, conns: map<nat, Conn>, c: nat, sid: nat, welcome: Frame)
    requires TraceOk(acts, conns) && ShapeOk(acts, conns) && c !in conns && welcome.Welcome?
    ensures TraceOk(acts + [Enqueue(c, welcome)], conns[c := Open(sid)])
    ensures ShapeOk(acts + [Enqueue(c, welcome)], conns[c := Open(sid)])
  {
    hide TraceOk, FramesFor, WelcomeFirst, OneError;
    AcceptTrace(acts, conns, c, sid, welcome);
    UnknownHasNoFrames(acts, conns, c);
    IsFirst(welcome);
    forall d | d in conns[c := Open(sid)]
      ensures FramesFor(acts + [Enqueue(c, welcome)], d) == if d == c then [welcome] else FramesFor(acts, d)
    {
      FramesForLast(acts, Enqueue(c, welcome), d);
    }
  }

  lemma RefuseFrames(acts: seq<Act>, c: nat, msg: string, d: nat)
    ensures FramesFor(acts + Reject(c, msg), d) == if d == c then FramesFor(acts, d) + [Error(msg)] else FramesFor(acts, d)
  {
    var said := acts + [Enqueue(c, Error(msg))];
    assert acts + Reject(c, msg) == said + [Close(c)];
    FramesForLast(acts, Enqueue(c, Error(msg)), d);
    FramesForLast(said, Close(c), d);
  }

  lemma RefuseTrace(acts: seq<Act>, conns: map<nat, Conn>, c: nat, msg: string)
    requires TraceOk(acts, conns) && c !in conns
    ensures TraceOk(acts + Reject(c, msg), conns[c := Refused])
  {
  }

  lemma Refuse(acts: seq<Act>, conns: map<nat, Conn>, c: nat, msg: string)
    requires TraceOk(acts, conns) && ShapeOk(acts, conns) && c !in conns
    ensures TraceOk(acts + Reject(c, msg), conns[c := Refused])
    ensures ShapeOk(acts + Reject(c, msg), conns[c := Refused])
  {
    RefuseTrace(acts, conns, c, msg);
    UntouchedHasNoFrames(acts, c);
    hide TraceOk, FramesFor, Reject;
    forall d
      ensures FramesFor(acts + Reject(c, msg), d) == if d == c then FramesFor(acts, d) + [Error(msg)] else FramesFor(acts, d)
    {
      RefuseFrames(acts, c, msg, d);
    }
  }

  lemma HangUpTrace(acts: seq<Act>, conns: map<nat, Conn>, c: nat)
    requires TraceOk(acts, conns)
    ensures TraceOk(acts + [Close(c)], conns[c := Gone])
  {
  }

  lemma HangUp(acts: seq<Act>, conns: map<nat, Conn>, c: nat)
    requires TraceOk(acts, conns) && ShapeOk(acts, conns)
    ensures TraceOk(acts + [Close(c)], conns[c := Gone]) && ShapeOk(acts + [Close(c)], conns[c := Gone])
  {
    HangUpTrace(acts, conns, c);
    if c !in conns {
      UntouchedHasNoFrames(acts, c);
    }
    hide TraceOk, FramesFor;
    forall d | d in conns[c := Gone]
      ensures FramesFor(acts + [Close(c)], d) == FramesFor(acts, d)
    {
      FramesForLast(acts, Close(c), d);
    }
  }

  /** Whatever a broadcast does goes to open connections. */
  lemma BroadcastReachesOpen(s: State, snapNow: int, conns: map<nat, Conn>)
    requires forall id :: id in s.players ==> s.players[id].conn in conns && conns[s.players[id].conn].Open?
    ensures SnapsTo(Broadcast(s, snapNow), conns)
  {
    if Announced(s) {
      var frame := Snap(SnapshotOf(s, snapNow));
      forall i | 0 <= i < |ToAll(s.players, s.order, frame)|
        ensures var a := ToAll(s.players, s.order, frame)[i];
                a.Enqueue? && a.frame.Snap? && a.conn in conns && conns[a.conn].Open?
      {
        ToAllTargets(s.players, s.order, frame, i);
      }
    }
  }

  lemma NextIsNew(s: State)
    requires RegistryOk(s)
    ensures s.nextID + 1 !in s.players
  {
  }

  lemma JoinEffect(s: State, conn: nat, cleaned: Option<string>, now: int, snapNow: int)
    requires RegistryOk(s) && forall id :: id in s.players ==> s.players[id].conn != conn
    requires Refusal(s, cleaned).None?
    ensures var (r, sess) := Register(s, conn, cleaned.value);
            var a := Admit(r, sess, now);
            && a.players == s.players[s.nextID + 1 := sess] && sess.conn == conn
            && s.nextID + 1 !in s.players
            && Join(s, conn, cleaned, now, snapNow).0.players == a.players
            && Join(s, conn, cleaned, now, snapNow).1
               == [Enqueue(conn, WelcomeFor(a, sess, now))] + Broadcast(a, snapNow)
  {
    hide Registry, Broadcast, WelcomeFor;
    RegisterRegistry(s, conn, cleaned.value);
    NextIsNew(s);
  }

  lemma OpenAll(players: map<nat, Session>, conns: map<nat, Conn>)
    requires ConnsOk(players, conns)
    ensures forall id :: id in players ==> players[id].conn in conns && conns[players[id].conn].Open?
  {
  }

  lemma JoinRefused(s: State, conn: nat, cleaned: Option<string>, now: int, snapNow: int)
    requires Refusal(s, cleaned).Some?
    ensures Join(s, conn, cleaned, now, snapNow) == (s, Reject(conn, Refusal(s, cleaned).value))
  {
  }

  lemma NextRefused(y: System, c: nat, cleaned: Option<string>, now: int, snapNow: int)
    requires SystemInv(y) && c !in y.conns && Refusal(y.hub, cleaned).Some?
    ensures var n := Next(y, EvJoin(c, cleaned, now, snapNow));
            ConnsOk(n.hub.players, n.conns) && TraceOk(n.acts, n.conns) && ShapeOk(n.acts, n.conns)
  {
    hide Inv, TraceOk, ShapeOk, Join, Refusal;
    JoinRefused(y.hub, c, cleaned, now, snapNow);
    Refuse(y.acts, y.conns, c, Refusal(y.hub, cleaned).value);
  }

  lemma AcceptedConns(players: map<nat, Session>, conns: map<nat, Conn>, sess: Session, sid: nat)
    requires ConnsOk(players, conns) && sess.conn !in conns && sid !in players
    ensures ConnsOk(players[sid := sess], conns[sess.conn := Open(sid)])
  {
  }

  lemma IsWelcome(s: State, sess: Session, now: int)
    ensures WelcomeFor(s, sess, now).Welcome?
  {
  }

  lemma RegistryPart(s: State)
    requires Inv(s)
    ensures RegistryOk(s)
  {
  }

  lemma NextAccepted(y: System, c: nat, cleaned: Option<string>, now: int, snapNow: int)
    requires SystemInv(y) && c !in y.conns && Refusal(y.hub, cleaned).None?
    ensures var n := Next(y, EvJoin(c, cleaned, now, snapNow));
            ConnsOk(n.hub.players, n.conns) && TraceOk(n.acts, n.conns) && ShapeOk(n.acts, n.conns)
  {
    hide Inv, ConnsOk, TraceOk, ShapeOk, Join, Register, Admit, Broadcast, WelcomeFor;
    var s := y.hub;
    RegistryPart(s);
    OpenAll(s.players, y.conns);
    JoinEffect(s, c, cleaned, now, snapNow);
    var (r, sess) := Register(s, c, cleaned.value);
    var a := Admit(r, sess, now);
    var sid := s.nextID + 1;
    var conns := y.conns[c := Open(sid)];
    var greeted := y.acts + [Enqueue(c, WelcomeFor(a, sess, now))];
    IsWelcome(a, sess, now);
    AcceptedConns(s.players, y.conns, sess, sid);
    Accept(y.acts, y.conns, c, sid, WelcomeFor(a, sess, now));
    OpenAll(a.players, conns);
    BroadcastReachesOpen(a, snapNow, conns);
    AppendSnaps(greeted, Broadcast(a, snapNow), conns);
    assert y.acts + ([Enqueue(c, WelcomeFor(a, sess, now))] + Broadcast(a, snapNow)) == greeted + Broadcast(a, snapNow);
  }

  lemma FinishKeepsPlayers(s: State)
    ensures forall w, now :: FinishRace(s.(world := Some(w)), now).players == s.players
  {
    hide EntriesOf, PodiumOf, Record;
  }

  lemma DepartKeepsPlayers(s: State, sid: nat, now: int)
    ensures Depart(s, sid, now).players == s.players
  {
    hide WorldSpec.KillLeft, WorldSpec.RemoveBird, WorldSpec.Living, FinishRace;
    FinishKeepsPlayers(s);
  }

  /** The leaver is out of the registry before any broadcast its departure causes, and closed after it. */
  lemma LeaveEffect(s: State, conn: nat, sid: nat, now: int, snapNow: int)
    requires RegistryOk(s) && sid in s.players
    ensures var l := Leave(s, conn, Some(sid), now, snapNow);
            && l.0.players == s.players - {sid}
            && (l.1 == [Close(conn)]
                || l.1 == Broadcast(Depart(Strike(s, s.players[sid]), sid, now), snapNow) + [Close(conn)])
            && Depart(Strike(s, s.players[sid]), sid, now).players == s.players - {sid}
  {
    hide Registry, Broadcast, Depart;
    SessionId(s, sid);
    DepartKeepsPlayers(Strike(s, s.players[sid]), sid, now);
  }

  lemma NextLeave(y: System, c: nat, sid: nat, now: int, snapNow: int)
    requires SystemInv(y) && sid in y.hub.players && y.hub.players[sid].conn == c
    ensures var n := Next(y, EvLeave(c, Some(sid), now, snapNow));
            ConnsOk(n.hub.players, n.conns) && TraceOk(n.acts, n.conns) && ShapeOk(n.acts, n.conns)
  {
    hide Inv, TraceOk, ShapeOk, Leave, Depart, Strike, Broadcast;
    var s := y.hub;
    RegistryPart(s);
    LeaveEffect(s, c, sid, now, snapNow);
    OpenAll(s.players, y.conns);
    var left := Depart(Strike(s, s.players[sid]), sid, now);
    BroadcastReachesOpen(left, snapNow, y.conns);
    AppendSnaps(y.acts, Broadcast(left, snapNow), y.conns);
    HangUp(y.acts + Broadcast(left, snapNow), y.conns, c);
    HangUp(y.acts, y.conns, c);
    assert y.acts + (Broadcast(left, snapNow) + [Close(c)]) == (y.acts + Broadcast(left, snapNow)) + [Close(c)];
  }

  lemma TickKeepsPlayers(s: State, now: int)
    ensures TickState(s, now).players == s.players
  {
    hide LineUp, PickTheme, InfosOf, WorldSpec.Step, RaceIsOver, FinishRace;
    FinishKeepsPlayers(s.(pending := {}));
  }

  lemma TickEffect(s: State, now: int, snapNow: int)
    ensures var t := Tick(s, now, snapNow);
            && t.0.players == s.players && TickState(s, now).players == s.players
            && (t.1 == [] || t.1 == Broadcast(TickState(s, now), snapNow))
  {
    hide Broadcast, TickState;
    TickKeepsPlayers(s, now);
  }

  lemma NextTick(y: System, now: int, snapNow: int)
    requires SystemInv(y)
    ensures var n := Next(y, EvTick(now, snapNow));
            ConnsOk(n.hub.players, n.conns) && TraceOk(n.acts, n.conns) && ShapeOk(n.acts, n.conns)
  {
    hide Inv, TraceOk, ShapeOk, Tick, TickState, Broadcast;
    TickEffect(y.hub, now, snapNow);
    OpenAll(y.hub.players, y.conns);
    BroadcastReachesOpen(TickState(y.hub, now), snapNow, y.conns);
    AppendSnaps(y.acts, Broadcast(TickState(y.hub, now), snapNow), y.conns);
    assert y.acts + [] == y.acts;
  }

  lemma FlapKeepsConns(s: State, sid: nat, now: int)
    requires sid in s.players
    ensures var f := Flap(s, sid, now);
            f.players.Keys == s.players.Keys && forall id :: id in s.players ==> f.players[id].conn == s.players[id].conn
  {
  }

  lemma NextFlap(y: System, sid: nat, now: int)
    requires SystemInv(y) && sid in y.hub.players
    ensures var n := Next(y, EvFlap(sid, now));
            ConnsOk(n.hub.players, n.conns) && n.acts == y.acts && n.conns == y.conns
  {
    hide Inv, TraceOk, ShapeOk, Flap;
    FlapKeepsConns(y.hub, sid, now);
    assert y.acts + [] == y.acts;
  }

  lemma NextGone(y: System, c: nat, now: int, snapNow: int)
    requires SystemInv(y) && (c !in y.conns || y.conns[c] == Refused)
    ensures var n := Next(y, EvLeave(c, None, now, snapNow));
            ConnsOk(n.hub.players, n.conns) && TraceOk(n.acts, n.conns) && ShapeOk(n.acts, n.conns)
  {
    hide Inv, TraceOk, ShapeOk;
    HangUp(y.acts, y.conns, c);
  }

  lemma NextInv(y: System, e: Event)
    requires SystemInv(y)
    ensures SystemInv(Next(y, e))
  {
    hide Inv, TraceOk, ShapeOk, Handle;
    if Allowed(y, e) {
      OpenAll(y.hub.players, y.conns);
      HandleInv(y.hub, e);
      match e
      case EvJoin(c, cleaned, now, snapNow) =>
        if Refusal(y.hub, cleaned).Some? {
          NextRefused(y, c, cleaned, now, snapNow);
        } else {
          NextAccepted(y, c, cleaned, now, snapNow);
        }
      case EvFlap(sid, now) => NextFlap(y, sid, now);
      case EvLeave(c, Some(sid), now, snapNow) => NextLeave(y, c, sid, now, snapNow);
      case EvLeave(c, None, now, snapNow) => NextGone(y, c, now, snapNow);
      case EvTick(now, snapNow) => NextTick(y, now, snapNow);
    }
  }

  lemma InitialInv(y: System)
    requires Initial(y)
    ensures SystemInv(y)
  {
    NewInv(y.hub.cfg, y.hub.words, y.hub.stats);
  }

  lemma {:induction false} RunInv(y: System, events: seq<Event>)
    requires SystemInv(y)
    ensures SystemInv(Run(y, events))
  {
    hide SystemInv, Next;
    if events != [] {
      RunInv(y, events[..|events| - 1]);
      NextInv(Run(y, events[..|events| - 1]), events[|events| - 1]);
    }
  }

  /** In any run no frame is queued on a closed queue. */
  lemma NoFrameAfterClose(y: System, events: seq<Event>, i: nat, j: nat)
    requires Initial(y)
    requires i < j < |Run(y, events).acts| && Run(y, events).acts[i].Close? && Run(y, events).acts[j].Enqueue?
    ensures Run(y, events).acts[i].conn != Run(y, events).acts[j].conn
  {
    hide Inv, Run;
    InitialInv(y);
    RunInv(y, events);
  }

  /** In any run a connection is sent nothing, or one error, or a welcome followed by snapshots only. */
  lemma WelcomeComesFirst(y: System, events: seq<Event>, conn: nat)
    requires Initial(y)
    ensures var frames := FramesFor(Run(y, events).acts, conn);
            frames == [] || OneError(frames) || WelcomeFirst(frames)
  {
    hide Inv, Run;
    InitialInv(y);
    RunInv(y, events);
    if conn !in Run(y, events).conns {
      UntouchedHasNoFrames(Run(y, events).acts, conn);
    }
  }
}
