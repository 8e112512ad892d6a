/** From the hub to the client's ring: two drop-oldest queues with a FIFO socket in between, and the
    goroutines at both ends running at any speed. */
module Delivery {
  import opened Options
  import opened Protocol
  import opened Subsequences
  import opened QueueSpec
  import opened RingSpec
  import HubSpec
  import HubInvariant
  import HubRuns

  /** What the writer took from the server's queue is on the wire, in that order; the client has read
      the first `read` frames of it. */
  datatype Link = Link(server: Chan<HubSpec.Frame>, read: nat, client: Chan<Snapshot>)

  datatype Step =
    | Serve(op: Op<HubSpec.Frame>)
    | Read(schedule: Schedule)
    | Pump(count: nat)

  const NEW_LINK := Link(Empty(SEND_QUEUE_LEN), 0, Empty(RING_LEN))

  /** Reading a snapshot frame queues it for the render loop; other frames go elsewhere. */
  function Dispatch(client: Chan<Snapshot>, frame: HubSpec.Frame, s: Schedule): Chan<Snapshot> {
    if frame.Snap? then Put(client, frame.snapshot, s) else client
  }

  function Stepped(l: Link, step: Step): Link {
    match step
    case Serve(op) => l.(server := Apply(l.server, op))
    case Read(s) =>
      if l.read < |l.server.received|
      then l.(read := l.read + 1, client := Dispatch(l.client, l.server.received[l.read], s))
      else l
    case Pump(n) => l.(client := Taken(l.client, n))
  }

  function RunLink(steps: seq<Step>): Link {
    if steps == [] then NEW_LINK else Stepped(RunLink(steps[..|steps| - 1]), steps[|steps| - 1])
  }

  function SnapsOf(frames: seq<HubSpec.Frame>): seq<Snapshot> {
    if frames == [] then []
    else
      var f := frames[|frames| - 1];
      SnapsOf(frames[..|frames| - 1]) + if f.Snap? then [f.snapshot] else []
  }

  /** The client's ring is fed with what the render loop took. */
  function RingOf(l: Link): seq<Snapshot> {
    Fed(l.client.received)
  }

  ghost predicate LinkOk(l: Link) {
    && ChanOk(l.server) && NewestKept(l.server)
    && ChanOk(l.client) && NewestKept(l.client)
    && l.read <= |l.server.received|
    && l.client.sent == SnapsOf(l.server.received[..l.read])
  }

  lemma ApplyOk<T>(c: Chan<T>, op: Op<T>)
    requires ChanOk(c) && NewestKept(c)
    ensures ChanOk(Apply(c, op)) && NewestKept(Apply(c, op)) && c.received <= Apply(c, op).received
  {
    hide ChanOk, Put, Taken;
    match op
    case Send(frame, s) => PutOk(c, frame, s);
    case Receive(n) => TakenOk(c, n); TakenKeepsNewest(c, n);
  }

  lemma DispatchOk(c: Chan<Snapshot>, snap: Snapshot, s: Schedule)
    requires ChanOk(c)
    ensures ChanOk(Put(c, snap, s)) && NewestKept(Put(c, snap, s)) && Put(c, snap, s).sent == c.sent + [snap]
  {
    hide ChanOk, Put;
    PutOk(c, snap, s);
  }

  lemma StepOk(l: Link, step: Step)
    requires LinkOk(l)
    ensures LinkOk(Stepped(l, step))
  {
    hide ChanOk, NewestKept, Put, Taken, Apply;
    match step
    case Serve(op) =>
      ApplyOk(l.server, op);
      assert l.server.received[..l.read] == Apply(l.server, op).received[..l.read];
    case Read(s) =>
      if l.read < |l.server.received| {
        var upTo := l.server.received[..l.read + 1];
        assert upTo[..l.read] == l.server.received[..l.read];
        if l.server.received[l.read].Snap? {
          DispatchOk(l.client, l.server.received[l.read].snapshot, s);
        }
      }
    case Pump(n) =>
      TakenOk(l.client, n);
      TakenKeepsNewest(l.client, n);
  }

  lemma {:induction false} RunLinkOk(steps: seq<Step>)
    ensures LinkOk(RunLink(steps))
  {
    hide Stepped;
    if steps != [] {
      RunLinkOk(steps[..|steps| - 1]);
      StepOk(RunLink(steps[..|steps| - 1]), steps[|steps| - 1]);
    }
  }

  lemma {:induction false} SnapsOfSubseq(a: seq<HubSpec.Frame>, b: seq<HubSpec.Frame>)
    requires Subseq(a, b)
    ensures Subseq(SnapsOf(a), SnapsOf(b))
    decreases |b|
  {
    if a != [] {
      var a', b' := a[..|a| - 1], b[..|b| - 1];
      var f := b[|b| - 1];
      if Subseq(a, b') {
        SnapsOfSubseq(a, b');
        SubseqAppend(SnapsOf(a), SnapsOf(b'), if f.Snap? then [f.snapshot] else []);
      } else {
        SnapsOfSubseq(a', b');
        SubseqAppend(SnapsOf(a'), SnapsOf(b'), if f.Snap? then [f.snapshot] else []);
      }
    }
  }

  lemma PrefixSubseq<T>(a: seq<T>, n: nat)
    requires n <= |a|
    ensures Subseq(a[..n], a)
  {
    assert a == a[..n] + a[n..];
    SubseqRefl(a[..n]);
    SubseqAppend(a[..n], a[..n], a[n..]);
  }

  lemma TakenSubseq<T>(c: Chan<T>)
    requires ChanOk(c)
    ensures Subseq(c.received, c.sent)
  {
    hide Subseq;
    PrefixSubseq(c.sent, |c.past|);
    assert c.sent[..|c.past|] == c.past;
    SubseqTrans(c.received, c.past, c.sent);
  }

  /** On any schedule, the client receives a subsequence of the frames queued for it, and its ring is a
      strictly time-ordered subsequence of the snapshots among them. */
  lemma ReceivedInOrder(steps: seq<Step>)
    ensures var l := RunLink(steps);
            && Subseq(l.server.received, l.server.sent)
            && Subseq(l.client.received, SnapsOf(l.server.sent))
            && RingOk(RingOf(l)) && Subseq(RingOf(l), SnapsOf(l.server.sent))
  {
    hide Subseq, NewestKept, RingOk, Fed, SnapsOf;
    var l := RunLink(steps);
    RunLinkOk(steps);
    TakenSubseq(l.server);
    TakenSubseq(l.client);
    var wire := l.server.received[..l.read];
    PrefixSubseq(l.server.received, l.read);
    SubseqTrans(wire, l.server.received, l.server.sent);
    SnapsOfSubseq(wire, l.server.sent);
    SubseqTrans(l.client.received, SnapsOf(wire), SnapsOf(l.server.sent));
    RingIsOrdered(l.client.received);
    SubseqTrans(RingOf(l), l.client.received, SnapsOf(l.server.sent));
  }

  /** A welcome may be dropped, but never arrives after anything else. */
  lemma WelcomeArrivesFirst(steps: seq<Step>, i: nat)
    requires var l := RunLink(steps);
             HubRuns.WelcomeFirst(l.server.sent) && i < |l.server.received| && l.server.received[i].Welcome?
    ensures i == 0
  {
    var l := RunLink(steps);
    ReceivedInOrder(steps);
    var places := SubseqPlaces(l.server.received, l.server.sent);
    assert places[i] == 0 && places[0] >= 0;
  }

  /** What the hub and the writer do to the server's queue, in order. */
  function ServerOps(steps: seq<Step>): seq<Op<HubSpec.Frame>> {
    if steps == [] then []
    else
      var step := steps[|steps| - 1];
      ServerOps(steps[..|steps| - 1]) + if step.Serve? then [step.op] else []
  }

  lemma {:induction false} ServerRuns(steps: seq<Step>)
    ensures RunLink(steps).server == Run(Empty(SEND_QUEUE_LEN), ServerOps(steps))
  {
    hide Apply;
    if steps != [] {
      var m := |steps| - 1;
      ServerRuns(steps[..m]);
      if steps[m].Serve? {
        RunLast(Empty<HubSpec.Frame>(SEND_QUEUE_LEN), ServerOps(steps[..m]), steps[m].op);
      } else {
        assert ServerOps(steps) == ServerOps(steps[..m]);
      }
    }
  }

  ghost predicate HasWelcome(frames: seq<HubSpec.Frame>) {
    exists i :: 0 <= i < |frames| && frames[i].Welcome?
  }

  lemma WelcomeAmong(frames: seq<HubSpec.Frame>, sent: seq<HubSpec.Frame>)
    requires HubRuns.WelcomeFirst(sent) && Subseq(frames, sent)
    ensures HasWelcome(frames) <==> sent[0] in frames
  {
    var places := SubseqPlaces(frames, sent);
    forall i | 0 <= i < |frames| && frames[i].Welcome?
      ensures frames[i] == sent[0]
    {
      assert places[i] == 0;
    }
  }

  lemma WelcomeIsUnique(sent: seq<HubSpec.Frame>)
    requires HubRuns.WelcomeFirst(sent)
    ensures forall i :: 1 <= i < |sent| ==> sent[i] != sent[0]
  {
  }

  /** A welcome is not always delivered: on any schedule it is delivered, or still on its way, exactly
      if the writer takes a frame before a put finds the queue full with nothing taken from it. */
  lemma WelcomeSurvivesIff(steps: seq<Step>)
    requires HubRuns.WelcomeFirst(RunLink(steps).server.sent)
    ensures var c := RunLink(steps).server;
            HasWelcome(c.received + c.queue) <==> !EverDropsUnread(Empty(SEND_QUEUE_LEN), ServerOps(steps))
  {
    hide Subseq, NewestKept, EverDropsUnread, Run, RunLink, HasWelcome;
    var c := RunLink(steps).server;
    ServerRuns(steps);
    DeliveredInOrder(SEND_QUEUE_LEN, ServerOps(steps));
    WelcomeAmong(c.received + c.queue, c.sent);
    WelcomeIsUnique(c.sent);
    FirstSurvivesIff(SEND_QUEUE_LEN, ServerOps(steps));
  }

  /** With a client that reads nothing it is still queued exactly while at most sixty-four frames were sent. */
  lemma UnreadWelcomeSurvivesIff(frames: seq<HubSpec.Frame>)
    requires HubRuns.WelcomeFirst(frames)
    ensures HasWelcome(Run(Empty(SEND_QUEUE_LEN), Sends(frames)).queue) <==> |frames| <= SEND_QUEUE_LEN
  {
    hide Run, Sends, Subseq;
    var queue := Run(Empty(SEND_QUEUE_LEN), Sends(frames)).queue;
    StalledQueue(SEND_QUEUE_LEN, frames);
    if |frames| <= SEND_QUEUE_LEN {
      assert queue[0].Welcome?;
    } else {
      assert forall i :: 0 <= i < |queue| ==> queue[i] == frames[|frames| - SEND_QUEUE_LEN + i];
    }
  }

  /** Everything was taken and read. */
  predicate CaughtUp(l: Link) {
    l.server.queue == [] && l.read == |l.server.received| && l.client.queue == []
  }

  /** A client that has caught up was last pushed the last snapshot sent. */
  lemma LastIsReceived(steps: seq<Step>)
    requires var l := RunLink(steps);
             CaughtUp(l) && l.server.sent != [] && l.server.sent[|l.server.sent| - 1].Snap?
    ensures var got := RunLink(steps).client.received;
            got != [] && got[|got| - 1] == RunLink(steps).server.sent[|RunLink(steps).server.sent| - 1].snapshot
  {
    hide Subseq;
    var l := RunLink(steps);
    RunLinkOk(steps);
    var got := l.server.received;
    assert got[..l.read] == got;
    assert got + l.server.queue == got;
    assert l.client.received + l.client.queue == l.client.received;
    assert got[|got| - 1] == l.server.sent[|l.server.sent| - 1];
  }

  /** Once a client has caught up, its ring ends with the last snapshot sent exactly if that is the
      first of the latest time it received; so exactly if every earlier one it received is earlier in
      time, unless one of them is a copy. Whatever was dropped on the way plays no part. */
  lemma NewestArrives(steps: seq<Step>)
    requires var l := RunLink(steps);
             CaughtUp(l) && l.server.sent != [] && l.server.sent[|l.server.sent| - 1].Snap?
    ensures var l := RunLink(steps);
            var got, snap := l.client.received, l.server.sent[|l.server.sent| - 1].snapshot;
            && RingOf(l) != []
            && (RingOf(l)[|RingOf(l)| - 1] == snap <==> FirstOfLatest(got, snap))
            && (snap !in got[..|got| - 1] ==>
                  (RingOf(l)[|RingOf(l)| - 1] == snap <==> forall j :: 0 <= j < |got| - 1 ==> got[j].now < snap.now))
  {
    hide RunLink, Fed, FirstOfLatest, CaughtUp;
    LastIsReceived(steps);
    var got := RunLink(steps).client.received;
    RingEndsWith(got, got[|got| - 1]);
    LastEndsRing(got);
  }

  /** In particular the last snapshot sent is shown if it is the latest one sent. */
  lemma LatestArrives(steps: seq<Step>)
    requires var l := RunLink(steps);
             && CaughtUp(l) && l.server.sent != [] && l.server.sent[|l.server.sent| - 1].Snap?
             && var snap := l.server.sent[|l.server.sent| - 1].snapshot;
                forall s :: s in SnapsOf(l.server.sent) ==> s.now < snap.now || s == snap
    ensures var l := RunLink(steps);
            && RingOf(l) != []
            && RingOf(l)[|RingOf(l)| - 1] == l.server.sent[|l.server.sent| - 1].snapshot
  {
    hide RunLink, Subseq, Fed, RingOk, SnapsOf, CaughtUp;
    var l := RunLink(steps);
    LastIsReceived(steps);
    ReceivedInOrder(steps);
    var got := l.client.received;
    RingIsOrdered(got);
    var places := SubseqPlaces(RingOf(l), SnapsOf(l.server.sent));
    assert RingOf(l)[|RingOf(l)| - 1] in SnapsOf(l.server.sent);
    assert got[|got| - 1].now <= RingOf(l)[|RingOf(l)| - 1].now;
  }
}
