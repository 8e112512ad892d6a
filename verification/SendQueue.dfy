/** The two drop-oldest queues: `enqueue` and `close` of server/client.go, and `pushSnap` of
    client/net.go. The other goroutine is `Interfere`: between any two steps it takes as many frames
    as it likes. */
module SendQueue {
  import opened Options
  import opened Protocol
  import opened QueueSpec

  class Buffer<T> {
    const cap: nat
    var queue: seq<T>
    ghost var sent: seq<T>
    ghost var past: seq<T>
    ghost var received: seq<T>

    ghost function Value(): Chan<T>
      reads this
    {
      Chan(cap, sent, queue, past, received)
    }

    constructor (cap: nat)
      ensures Value() == Empty(cap)
    {
      this.cap := cap;
      queue, sent, past, received := [], [], [], [];
    }

    /** The consumer runs for a while. */
    method Interfere() returns (ghost n: nat)
      modifies this
      ensures Value() == Taken(old(Value()), n)
    {
      var k :| 0 <= k <= |queue|;
      n := k;
      past, received := past + queue[..k], received + queue[..k];
      queue := queue[k..];
    }

    /** A send that does not wait. */
    method TrySend(frame: T) returns (ok: bool)
      modifies this
      ensures ok <==> old(|queue|) < cap
      ensures Value() == if ok then Added(old(Value()), frame) else old(Value())
    {
      ok := |queue| < cap;
      if ok {
        queue, sent := queue + [frame], sent + [frame];
      }
    }

    /** A receive, by the producer, that does not wait. */
    method TryDrop()
      modifies this
      ensures Value() == Dropped(old(Value()))
    {
      if queue != [] {
        past := past + queue[..1];
        queue := queue[1..];
      }
    }
  }

  /** The transport half of a session. */
  class ClientConn<T> {
    const send: Buffer<T>
    var closed: bool
    ghost var closes: nat

    ghost predicate Valid()
      reads this, send
    {
      ChanOk(send.Value()) && closes == if closed then 1 else 0
    }

    constructor ()
      ensures Valid() && !closed && fresh(send) && send.Value() == Empty(SEND_QUEUE_LEN)
    {
      send := new Buffer<T>(SEND_QUEUE_LEN);
      closed, closes := false, 0;
    }

    /** Hands a frame to the writer without ever waiting for it: at most one retry is needed. */
    method Enqueue(frame: T) returns (ghost s: Schedule, ghost tries: nat)
      requires Valid() && !closed
      modifies send
      ensures Valid() && send.Value() == Put(old(send.Value()), frame, s)
      ensures 1 <= tries <= 2
    {
      hide ChanOk, Taken, Dropped, Added;
      ghost var start := send.Value();
      tries := 0;
      s := Schedule(0, 0, 0);
      while true
        invariant ChanOk(send.Value()) && tries <= 1
        invariant tries == 0 ==> send.Value() == start
        invariant tries == 1 ==>
          var tried := Taken(start, s.beforeTry);
          && |tried.queue| >= start.cap
          && send.Value() == Dropped(Taken(tried, s.beforeDrop))
          && |send.queue| < start.cap && start.cap == send.cap
        decreases 2 - tries
      {
        ghost var before := send.Value();
        ghost var n := send.Interfere();
        TakenOk(before, n);
        s := if tries == 0 then s.(beforeTry := n) else s.(beforeRetry := n);
        ghost var taken := send.Value();
        tries := tries + 1;
        var ok := send.TrySend(frame);
        if ok {
          AddedOk(taken, frame);
          return;
        }
        n := send.Interfere();
        TakenOk(taken, n);
        DroppedOk(send.Value());
        s := s.(beforeDrop := n);
        send.TryDrop();
      }
    }

    /** Stops the writer; a second call does nothing. */
    method Close()
      requires Valid()
      modifies this
      ensures Valid() && closed && closes == 1
    {
      if !closed {
        closed, closes := true, closes + 1;
      }
    }
  }

  /** The client's side of the connection: parsed snapshots, and the first fatal error. */
  class Net<E> {
    const snaps: Buffer<Snapshot>
    var err: Option<E>
    var open: bool

    ghost predicate Valid()
      reads this, snaps
    {
      ChanOk(snaps.Value()) && snaps.cap == RING_LEN
    }

    constructor ()
      ensures Valid() && fresh(snaps) && snaps.Value() == Empty(RING_LEN) && err == None && open
    {
      snaps := new Buffer<Snapshot>(RING_LEN);
      err, open := None, true;
    }

    /** Try, drop the oldest, try again: the second try cannot fail, as nobody else sends. */
    method PushSnap(snap: Snapshot) returns (ghost s: Schedule)
      requires Valid()
      modifies snaps
      ensures Valid() && snaps.Value() == Put(old(snaps.Value()), snap, s)
    {
      hide ChanOk, Taken, Dropped, Added;
      ghost var start := snaps.Value();
      ghost var n0 := snaps.Interfere();
      TakenOk(start, n0);
      ghost var tried := snaps.Value();
      var ok := snaps.TrySend(snap);
      s := Schedule(n0, 0, 0);
      if ok {
        AddedOk(tried, snap);
        return;
      }
      ghost var n1 := snaps.Interfere();
      TakenOk(tried, n1);
      DroppedOk(snaps.Value());
      snaps.TryDrop();
      ghost var dropped := snaps.Value();
      ghost var n2 := snaps.Interfere();
      TakenOk(dropped, n2);
      ghost var room := snaps.Value();
      ok := snaps.TrySend(snap);
      AddedOk(room, snap);
      s := Schedule(n0, n1, n2);
    }

    /** Only the first failure is reported; every failure closes the socket. */
    method Fail(e: E)
      modifies this
      ensures err == if old(err).Some? then old(err) else Some(e)
      ensures !open
    {
      if err.None? {
        err := Some(e);
      }
      open := false;
    }
  }
}
