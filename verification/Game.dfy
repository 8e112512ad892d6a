/** The client's frame loop: the non-drawing program of client/game.go, proved against `GameSpec`. */
module Game {
  import opened Options
  import opened Protocol
  import opened GameSpec
  import RingSpec
  import Ring
  import Clock

  /** The part of a state that only proofs speak of. */
  datatype History = History(epoch: nat, fed: seq<Tagged>, lastFail: int, outcomes: seq<bool>, dials: seq<Dial>)

  lemma EmptyRingOk()
    ensures RingSpec.RingOk([])
  {
  }

  class Game {
    const ring: Ring.Ring
    const clk: Clock.Clock
    var entering: bool
    var name: string
    var fatal: string
    var lastErr: string
    var net: Option<nat>
    var dialing: bool
    var attempts: nat
    var nextTry: Option<int>
    var everConnected: bool
    var dialRes: seq<DialRes>
    var sessName: string
    ghost var inflight: nat
    var nextConn: nat
    ghost var past: History

    ghost function View(): State
      reads this, ring, clk
    {
      State(entering, name, fatal, lastErr, net, dialing, attempts, nextTry, everConnected, ring.snaps, clk.Value(),
            dialRes, inflight, sessName, nextConn, past.epoch, past.fed, past.lastFail, past.outcomes, past.dials)
    }

    ghost predicate Valid()
      reads this, ring, clk
    {
      ring.Valid() && GameOk(View())
    }

    /** Without a name the game opens on its start screen. */
    constructor (name: string)
      ensures Valid() && fresh(ring) && fresh(clk) && View() == Start(name)
    {
      ring := new Ring.Ring();
      clk := new Clock.Clock();
      entering, this.name, fatal, lastErr := name == "", name, "", "";
      net, dialing, attempts, nextTry, everConnected := None, false, 0, None, false;
      dialRes, sessName := [], "";
      inflight, nextConn, past := 0, 0, History(0, [], 0, [], []);
      new;
      StartOk(name);
    }

    method ScheduleRetry(now: int)
      requires ring.Valid()
      modifies this`attempts, this`nextTry, this`past
      ensures ring.Valid() && View() == GameSpec.ScheduleRetry(old(View()), now)
    {
      var delay := ComputeRetryDelay(attempts + 1);
      attempts, nextTry := attempts + 1, Some(now + delay);
      past := past.(lastFail := now, outcomes := past.outcomes + [false]);
    }

    method TakeSnaps(arrivals: seq<Arrival>)
      requires ring.Valid() && net.Some?
      modifies this`past, ring, clk
      ensures ring.Valid() && View() == Absorb(old(View()), arrivals)
    {
      hide RingSpec.RingOk, RingSpec.Pushed, Clock.Sampled;
      for i := 0 to |arrivals|
        invariant ring.Valid() && View() == Absorb(old(View()), arrivals[..i])
      {
        var a := arrivals[i];
        assert arrivals[..i + 1][..i] == arrivals[..i];
        clk.Sample(a.snap.now, a.local);
        ring.Push(a.snap);
        past := past.(fed := past.fed + [Tagged(net.value, a.snap)]);
      }
      assert arrivals[..|arrivals|] == arrivals;
    }

    method Fail(msg: string, now: int)
      requires ring.Valid()
      modifies this`lastErr, this`attempts, this`nextTry, this`past
      ensures ring.Valid() && View() == GameSpec.ScheduleRetry(old(View()).(lastErr := msg), now)
    {
      hide RingSpec.RingOk, GameSpec.ScheduleRetry;
      lastErr := msg;
      ScheduleRetry(now);
    }

    method PumpNet(i: Input)
      requires ring.Valid() && net.Some?
      modifies this`net, this`fatal, this`lastErr, this`attempts, this`nextTry, this`past, ring, clk
      ensures ring.Valid() && View() == GameSpec.PumpNet(old(View()), i)
    {
      hide RingSpec.RingOk, Absorb, GameSpec.ScheduleRetry;
      TakeSnaps(i.arrivals);
      if i.err.Some? {
        net := None;
        match i.err.value
        case Fatal(msg) =>
          fatal := msg;
        case Lost =>
          Fail(LOST, i.failNow);
      }
    }

    method StartDial(now: int)
      requires ring.Valid()
      modifies this`dialing, this`inflight, this`past
      ensures ring.Valid()
      ensures View() == old(View()).(dialing := true, inflight := old(inflight) + 1,
        dials := old(past.dials) + [Dial(now, attempts, past.lastFail, if sessName == "" then name else sessName)])
    {
      dialing, inflight := true, inflight + 1;
      past := past.(dials := past.dials + [Dial(now, attempts, past.lastFail, if sessName == "" then name else sessName)]);
    }

    method Connect(conn: nat)
      modifies this`net, this`attempts, this`lastErr, this`everConnected, this`past, ring`snaps
      ensures net == Some(conn) && attempts == 0 && lastErr == "" && everConnected && ring.snaps == []
      ensures past == old(past).(epoch := conn, fed := [], outcomes := old(past.outcomes) + [true])
    {
      net, attempts, lastErr, everConnected := Some(conn), 0, "", true;
      past := past.(epoch := conn, fed := [], outcomes := past.outcomes + [true]);
      ring.Reset();
    }

    method TakeResult() returns (res: DialRes)
      requires ring.Valid() && dialRes != []
      modifies this`dialing, this`dialRes
      ensures ring.Valid() && res == old(dialRes)[0]
      ensures View() == old(View()).(dialing := false, dialRes := old(dialRes)[1..])
    {
      res := dialRes[0];
      dialing, dialRes := false, dialRes[1..];
    }

    method Reconnect(i: Input)
      requires ring.Valid()
      modifies this`dialing, this`inflight, this`dialRes, this`lastErr, this`attempts, this`nextTry, this`past,
               this`net, this`everConnected, ring`snaps
      ensures ring.Valid() && View() == Reconnected(old(View()), i)
    {
      hide RingSpec.RingOk, GameSpec.ScheduleRetry;
      if !dialing {
        if nextTry.None? || i.checkNow >= nextTry.value {
          StartDial(i.checkNow);
        }
      } else if dialRes != [] {
        var res := TakeResult();
        match res
        case Failed(msg) => Fail(msg, i.failNow);
        case Connected(conn) => Connect(conn); EmptyRingOk();
      }
    }

    /** One frame. */
    method Update(i: Input)
      requires Valid()
      modifies this, ring, clk
      ensures Valid() && View() == GameSpec.Update(old(View()), i)
    {
      hide GameOk, RingSpec.RingOk, Reconnected, GameSpec.PumpNet;
      UpdateOk(View(), i);
      if entering {
        if i.submitted != "" {
          name, entering := i.submitted, false;
        }
        return;
      }
      if fatal != "" {
        return;
      }
      if net.Some? {
        PumpNet(i);
      }
      if net.None? && fatal == "" {
        Reconnect(i);
      }
    }

    /** A dial goroutine ends: its send finds the channel empty, so it does not block. */
    method DialEnds(failure: Option<string>)
      requires Valid() && inflight > 0
      modifies this`inflight, this`dialRes, this`nextConn
      ensures Valid() && View() == Next(old(View()), Event.DialEnds(failure))
      ensures |dialRes| == 1
    {
      hide RingFromOne, BackoffOk, RingSpec.RingOk;
      DialEndsOk(View(), failure);
      assert |dialRes| == 0;
      dialRes := dialRes + [if failure.None? then Connected(nextConn) else Failed(failure.value)];
      inflight := inflight - 1;
      if failure.None? {
        nextConn := nextConn + 1;
      }
    }

    /** The reader of the connection meets a welcome. */
    method Welcome(confirmed: string)
      requires Valid()
      modifies this`sessName
      ensures Valid() && View() == Next(old(View()), Welcomed(confirmed))
    {
      RenameOk(View(), confirmed);
      sessName := confirmed;
    }
  }
}
