/** A bounded drop-oldest queue between one producer and one consumer, on values.

    The consumer runs at any speed: it may take any number of frames between any two steps of
    the producer. `sent`, `past` and `received` are history. */
module QueueSpec {
  import opened Subsequences

  /** The length of a client's queue on the server. */
  const SEND_QUEUE_LEN: nat := 64

  /** `past` is what has left the queue, taken or dropped; `received` is what was taken. */
  datatype Chan<T> = Chan(cap: nat, sent: seq<T>, queue: seq<T>, past: seq<T>, received: seq<T>)

  function Empty<T>(cap: nat): Chan<T> {
    Chan(cap, [], [], [], [])
  }

  /** The consumer takes the oldest `n` frames, or all of them. */
  function Taken<T>(c: Chan<T>, n: nat): Chan<T> {
    var k := if n <= |c.queue| then n else |c.queue|;
    c.(queue := c.queue[k..], past := c.past + c.queue[..k], received := c.received + c.queue[..k])
  }

  /** The producer takes the oldest frame back and forgets it. */
  function Dropped<T>(c: Chan<T>): Chan<T> {
    if c.queue == [] then c else c.(queue := c.queue[1..], past := c.past + c.queue[..1])
  }

  function Added<T>(c: Chan<T>, frame: T): Chan<T> {
    c.(queue := c.queue + [frame], sent := c.sent + [frame])
  }

  /** How many frames the consumer takes before the first try, before the drop, and before the second try. */
  datatype Schedule = Schedule(beforeTry: nat, beforeDrop: nat, beforeRetry: nat)

  /** Put a frame, making room by dropping the oldest one if there is none. */
  function Put<T>(c: Chan<T>, frame: T, s: Schedule): Chan<T> {
    var tried := Taken(c, s.beforeTry);
    if |tried.queue| < c.cap then Added(tried, frame)
    else Added(Taken(Dropped(Taken(tried, s.beforeDrop)), s.beforeRetry), frame)
  }

  datatype Op<T> = Send(frame: T, schedule: Schedule) | Receive(count: nat)

  function Apply<T>(c: Chan<T>, op: Op<T>): Chan<T> {
    match op
    case Send(frame, s) => Put(c, frame, s)
    case Receive(n) => Taken(c, n)
  }

  function Run<T>(c: Chan<T>, ops: seq<Op<T>>): Chan<T> {
    if ops == [] then c else Apply(Run(c, ops[..|ops| - 1]), ops[|ops| - 1])
  }

  /** The queue is exactly the newest frames sent, and only frames sent before them were received, in order. */
  ghost predicate ChanOk<T>(c: Chan<T>) {
    && c.cap >= 1 && |c.queue| <= c.cap
    && c.sent == c.past + c.queue
    && Subseq(c.received, c.past)
  }

  /** How many frames were dropped so far. */
  function Lost<T>(c: Chan<T>): int {
    |c.sent| - |c.queue| - |c.received|
  }

  lemma TakenOk<T>(c: Chan<T>, n: nat)
    requires ChanOk(c)
    ensures ChanOk(Taken(c, n)) && Taken(c, n).sent == c.sent && Taken(c, n).cap == c.cap
    ensures |Taken(c, n).queue| <= |c.queue|
    ensures c.received <= Taken(c, n).received
    ensures Lost(Taken(c, n)) == Lost(c)
  {
    hide Subseq;
    var k := if n <= |c.queue| then n else |c.queue|;
    SubseqAppend(c.received, c.past, c.queue[..k]);
  }

  lemma DroppedOk<T>(c: Chan<T>)
    requires ChanOk(c)
    ensures ChanOk(Dropped(c)) && Dropped(c).sent == c.sent && Dropped(c).cap == c.cap
    ensures |Dropped(c).queue| < c.cap
    ensures Dropped(c).received == c.received
    ensures Lost(c) <= Lost(Dropped(c)) <= Lost(c) + 1
  {
    hide Subseq;
    if c.queue != [] {
      SubseqAppend(c.received, c.past, c.queue[..1]);
    }
  }

  lemma AddedOk<T>(c: Chan<T>, frame: T)
    requires ChanOk(c) && |c.queue| < c.cap
    ensures ChanOk(Added(c, frame)) && Lost(Added(c, frame)) == Lost(c)
  {
    hide Subseq;
  }

  lemma QueueFits<T>(c: Chan<T>)
    requires ChanOk(c)
    ensures 1 <= c.cap && |c.queue| <= c.cap
  {
  }

  /** Putting never loses the new frame, and loses at most one old one, and none unless the queue was full. */
  lemma PutOk<T>(c: Chan<T>, frame: T, s: Schedule)
    requires ChanOk(c)
    ensures var p := Put(c, frame, s);
            && ChanOk(p) && p.cap == c.cap && p.sent == c.sent + [frame]
            && p.queue != [] && p.queue[|p.queue| - 1] == frame
            && c.received <= p.received
            && Lost(c) <= Lost(p) <= Lost(c) + 1
            && (|Taken(c, s.beforeTry).queue| < c.cap ==> Lost(p) == Lost(c))
  {
    hide ChanOk, Taken, Dropped, Lost;
    var tried := Taken(c, s.beforeTry);
    TakenOk(c, s.beforeTry);
    QueueFits(c);
    if |tried.queue| < c.cap {
      AddedOk(tried, frame);
    } else {
      var late := Taken(tried, s.beforeDrop);
      TakenOk(tried, s.beforeDrop);
      QueueFits(late);
      DroppedOk(late);
      TakenOk(Dropped(late), s.beforeRetry);
      AddedOk(Taken(Dropped(late), s.beforeRetry), frame);
    }
  }

  /** The newest frame sent is the last one received or still queued. */
  ghost predicate NewestKept<T>(c: Chan<T>) {
    var kept := c.received + c.queue;
    c.sent != [] ==> kept != [] && kept[|kept| - 1] == c.sent[|c.sent| - 1]
  }

  lemma TakenKeepsNewest<T>(c: Chan<T>, n: nat)
    requires NewestKept(c)
    ensures NewestKept(Taken(c, n))
  {
    var k := if n <= |c.queue| then n else |c.queue|;
    assert c.received + c.queue == (c.received + c.queue[..k]) + c.queue[k..];
  }

  lemma {:induction false} RunOk<T>(c: Chan<T>, ops: seq<Op<T>>)
    requires ChanOk(c) && NewestKept(c)
    ensures ChanOk(Run(c, ops)) && NewestKept(Run(c, ops)) && Run(c, ops).cap == c.cap
  {
    hide ChanOk, Put, Taken;
    if ops != [] {
      var before := Run(c, ops[..|ops| - 1]);
      RunOk(c, ops[..|ops| - 1]);
      match ops[|ops| - 1]
      case Send(frame, s) => PutOk(before, frame, s);
      case Receive(n) => TakenOk(before, n); TakenKeepsNewest(before, n);
    }
  }

  /** In any run, what is received, followed by what is still queued, is a subsequence of what was
      sent; nothing is invented, repeated or reordered, and the newest frame is never the one lost. */
  lemma DeliveredInOrder<T>(cap: nat, ops: seq<Op<T>>)
    requires cap >= 1
    ensures var c := Run(Empty(cap), ops);
            && Subseq(c.received + c.queue, c.sent) && Subseq(c.received, c.sent)
            && |c.queue| <= cap && NewestKept(c)
  {
    hide Subseq, Run;
    var c := Run(Empty<T>(cap), ops);
    assert Subseq<T>([], []) by { SubseqRefl<T>([]); }
    RunOk(Empty<T>(cap), ops);
    SubseqAppend(c.received, c.past, c.queue);
  }

  lemma RunKeepsOk<T>(cap: nat, ops: seq<Op<T>>)
    requires cap >= 1
    ensures ChanOk(Run(Empty(cap), ops))
  {
    hide Run;
    assert Subseq<T>([], []) by { SubseqRefl<T>([]); }
    RunOk(Empty<T>(cap), ops);
  }

  /** A run in which every put finds room, whenever the consumer takes what, loses nothing. */
  ghost predicate AlwaysRoom<T>(c: Chan<T>, ops: seq<Op<T>>) {
    ops != [] ==>
      && AlwaysRoom(c, ops[..|ops| - 1])
      && var op := ops[|ops| - 1];
         op.Send? ==> |Taken(Run(c, ops[..|ops| - 1]), op.schedule.beforeTry).queue| < c.cap
  }

  lemma TakeMoves<T>(c: Chan<T>, n: nat)
    ensures Taken(c, n).received + Taken(c, n).queue == c.received + c.queue
  {
    var k := if n <= |c.queue| then n else |c.queue|;
    assert c.queue == c.queue[..k] + c.queue[k..];
  }

  lemma EmptyIsOk<T>(cap: nat)
    requires cap >= 1
    ensures ChanOk(Empty<T>(cap)) && NewestKept(Empty<T>(cap))
  {
    SubseqRefl<T>([]);
  }

  lemma PutWithRoom<T>(c: Chan<T>, frame: T, s: Schedule)
    requires ChanOk(c) && |Taken(c, s.beforeTry).queue| < c.cap
    ensures var tried, p := Taken(c, s.beforeTry), Put(c, frame, s);
            && p.received + p.queue == tried.received + tried.queue + [frame] && p.sent == c.sent + [frame]
            && NewestKept(p)
  {
    hide Subseq;
  }

  lemma {:induction false} RoomLosesNothing<T>(cap: nat, ops: seq<Op<T>>)
    requires cap >= 1 && AlwaysRoom(Empty(cap), ops)
    ensures var c := Run(Empty(cap), ops);
            ChanOk(c) && NewestKept(c) && c.cap == cap && c.received + c.queue == c.sent
  {
    hide ChanOk, NewestKept, Put, Taken;
    if ops == [] {
      EmptyIsOk<T>(cap);
    } else {
      var m := |ops| - 1;
      RoomLosesNothing(cap, ops[..m]);
      var before := Run(Empty<T>(cap), ops[..m]);
      match ops[m]
      case Send(frame, s) =>
        PutOk(before, frame, s);
        PutWithRoom(before, frame, s);
        TakeMoves(before, s.beforeTry);
      case Receive(n) => TakenOk(before, n); TakenKeepsNewest(before, n); TakeMoves(before, n);
    }
  }

  // ----- the fate of the first frame -----

  /** A put that finds a full queue of which nothing was ever taken, and nothing is taken before the
      drop either: the frame dropped is the very first one. */
  predicate DropsUnread<T>(c: Chan<T>, op: Op<T>) {
    && op.Send? && |c.queue| >= c.cap && c.received == []
    && op.schedule.beforeTry == 0 && op.schedule.beforeDrop == 0
  }

  ghost predicate EverDropsUnread<T>(c: Chan<T>, ops: seq<Op<T>>) {
    ops != [] &&
    (EverDropsUnread(c, ops[..|ops| - 1]) || DropsUnread(Run(c, ops[..|ops| - 1]), ops[|ops| - 1]))
  }

  ghost predicate FirstHeld<T>(c: Chan<T>) {
    if c.received == [] then c.past == [] else c.sent != [] && c.received[0] == c.sent[0]
  }

  /** Everything received was sent later than the first frame, which has left the queue. */
  ghost predicate FirstLost<T>(c: Chan<T>) {
    c.past != [] && Subseq(c.received, c.past[1..])
  }

  lemma TakenFate<T>(c: Chan<T>, n: nat)
    requires ChanOk(c)
    ensures FirstHeld(c) ==> FirstHeld(Taken(c, n))
    ensures FirstLost(c) ==> FirstLost(Taken(c, n))
    ensures n > 0 && c.queue != [] ==> Taken(c, n).received != []
  {
    hide Subseq;
    var k := if n <= |c.queue| then n else |c.queue|;
    if FirstLost(c) {
      assert (c.past + c.queue[..k])[1..] == c.past[1..] + c.queue[..k];
      SubseqAppend(c.received, c.past[1..], c.queue[..k]);
    }
  }

  lemma DroppedFate<T>(c: Chan<T>)
    requires ChanOk(c)
    ensures FirstHeld(c) && c.received != [] ==> FirstHeld(Dropped(c))
    ensures FirstHeld(c) && c.received == [] && c.queue != [] ==> FirstLost(Dropped(c))
    ensures FirstLost(c) ==> FirstLost(Dropped(c))
  {
    if c.queue != [] && FirstLost(c) {
      assert (c.past + c.queue[..1])[1..] == c.past[1..] + c.queue[..1];
      SubseqAppend(c.received, c.past[1..], c.queue[..1]);
    }
  }

  lemma AddedFate<T>(c: Chan<T>, frame: T)
    ensures FirstHeld(c) ==> FirstHeld(Added(c, frame))
    ensures FirstLost(c) ==> FirstLost(Added(c, frame))
  {
    hide Subseq;
  }

  lemma TakenNothing<T>(c: Chan<T>)
    ensures Taken(c, 0) == c
  {
  }

  lemma PutFate<T>(c: Chan<T>, frame: T, s: Schedule)
    requires ChanOk(c)
    ensures FirstHeld(c) && !DropsUnread(c, Send(frame, s)) ==> FirstHeld(Put(c, frame, s))
    ensures FirstHeld(c) && DropsUnread(c, Send(frame, s)) ==> FirstLost(Put(c, frame, s))
    ensures FirstLost(c) ==> FirstLost(Put(c, frame, s))
  {
    hide ChanOk, Taken, Dropped, Added, FirstHeld, FirstLost;
    var tried := Taken(c, s.beforeTry);
    QueueFits(c);
    TakenNothing(c);
    TakenOk(c, s.beforeTry);
    TakenFate(c, s.beforeTry);
    AddedFate(tried, frame);
    if |tried.queue| >= c.cap {
      var late := Taken(tried, s.beforeDrop);
      TakenNothing(tried);
      TakenOk(tried, s.beforeDrop);
      TakenFate(tried, s.beforeDrop);
      DroppedFate(late);
      DroppedOk(late);
      TakenFate(Dropped(late), s.beforeRetry);
      AddedFate(Taken(Dropped(late), s.beforeRetry), frame);
    }
  }

  lemma NoPutDropsNothing<T>(c: Chan<T>, n: nat)
    ensures !DropsUnread(c, Receive(n))
  {
  }

  lemma {:induction false} FirstFate<T>(cap: nat, ops: seq<Op<T>>)
    requires cap >= 1
    ensures var c := Run(Empty(cap), ops);
            if EverDropsUnread(Empty(cap), ops) then FirstLost(c) else FirstHeld(c)
  {
    hide ChanOk, Put, Taken, DropsUnread, FirstLost;
    if ops != [] {
      var m := |ops| - 1;
      var before := Run(Empty<T>(cap), ops[..m]);
      FirstFate(cap, ops[..m]);
      RunKeepsOk(cap, ops[..m]);
      match ops[m]
      case Send(frame, s) => PutFate(before, frame, s);
      case Receive(n) => TakenFate(before, n); NoPutDropsNothing(before, n);
    }
  }

  /** On any schedule the first frame is received or still queued exactly if no put ever found the
      queue full with nothing taken from it: if the consumer takes its first frame in time. */
  lemma FirstSurvivesIff<T>(cap: nat, ops: seq<Op<T>>)
    requires cap >= 1
    requires var c := Run(Empty(cap), ops);
             c.sent != [] && forall i :: 1 <= i < |c.sent| ==> c.sent[i] != c.sent[0]
    ensures var c := Run(Empty(cap), ops);
            c.sent[0] in c.received + c.queue <==> !EverDropsUnread(Empty(cap), ops)
  {
    hide Run, EverDropsUnread;
    var c := Run(Empty<T>(cap), ops);
    FirstFate(cap, ops);
    RunKeepsOk(cap, ops);
    if FirstLost(c) {
      var places := SubseqPlaces(c.received, c.past[1..]);
      forall i | 0 <= i < |c.received|
        ensures c.received[i] != c.sent[0]
      {
        assert c.received[i] == c.past[1..][places[i]] == c.sent[places[i] + 1];
      }
      forall i | 0 <= i < |c.queue|
        ensures c.queue[i] != c.sent[0]
      {
        assert c.queue[i] == c.sent[|c.past| + i];
      }
    }
  }

  // ----- a consumer that has stopped -----

  function Sends<T>(frames: seq<T>): seq<Op<T>> {
    if frames == [] then [] else Sends(frames[..|frames| - 1]) + [Send(frames[|frames| - 1], Schedule(0, 0, 0))]
  }

  ghost predicate HoldsNewest<T>(c: Chan<T>, cap: nat, frames: seq<T>) {
    && c.cap == cap && c.received == [] && c.sent == frames
    && c.queue == if |frames| <= cap then frames else frames[|frames| - cap..]
  }

  lemma HoldsNone<T>(cap: nat)
    ensures HoldsNewest<T>(Run(Empty(cap), []), cap, [])
  {
  }

  lemma RunLast<T>(c: Chan<T>, ops: seq<Op<T>>, op: Op<T>)
    ensures Run(c, ops + [op]) == Apply(Run(c, ops), op)
  {
    assert (ops + [op])[..|ops|] == ops;
  }

  lemma StalledPut<T>(c: Chan<T>, cap: nat, frames: seq<T>, frame: T)
    requires cap >= 1 && HoldsNewest(c, cap, frames)
    ensures HoldsNewest(Put(c, frame, Schedule(0, 0, 0)), cap, frames + [frame])
  {
    assert Taken(c, 0) == c;
    if |c.queue| == c.cap {
      assert Taken(Dropped(c), 0) == Dropped(c);
    }
  }

  /** While nobody takes anything, the queue is the newest frames, as many as fit. */
  lemma {:induction false} StalledQueue<T>(cap: nat, frames: seq<T>)
    requires cap >= 1
    ensures HoldsNewest(Run(Empty(cap), Sends(frames)), cap, frames)
  {
    hide HoldsNewest, Put, Run, Taken;
    if frames == [] {
      HoldsNone<T>(cap);
    } else {
      var m := |frames| - 1;
      var ops, last := Sends(frames[..m]), Send(frames[m], Schedule(0, 0, 0));
      StalledQueue(cap, frames[..m]);
      StalledPut(Run(Empty<T>(cap), ops), cap, frames[..m], frames[m]);
      RunLast(Empty<T>(cap), ops, last);
      assert frames == frames[..m] + [frames[m]];
    }
  }
}
