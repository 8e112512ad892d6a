/** The client's snapshot ring: the program of interp.go, proved against `RingSpec`. */
module Ring {
  import opened Options
  import opened Protocol
  import opened RingSpec

  method LookUpBird(birds: seq<BirdSnap>, id: nat) returns (o: Option<BirdSnap>)
    ensures o == FindBird(birds, id)
  {
    for i := 0 to |birds|
      invariant FindBird(birds[i..], id) == FindBird(birds, id)
    {
      if birds[i].id == id {
        return Some(birds[i]);
      }
    }
    return None;
  }

  method BlendBirds(b: Bracket) returns (views: seq<BirdView>)
    ensures views == BirdViews(b.s0, b.s1, b.alpha)
  {
    views := [];
    for i := 0 to |b.s1.birds|
      invariant views == BirdViews(b.s0, b.s1, b.alpha)[..i]
    {
      var n := b.s1.birds[i];
      var y, vy := n.y, n.vy;
      var o := LookUpBird(b.s0.birds, n.id);
      if o.Some? {
        y, vy := Lerp(o.value.y, n.y, b.alpha), Lerp(o.value.vy, n.vy, b.alpha);
      }
      views := views + [BirdView(n.id, n.name, y, vy, n.score, n.dead, n.left, n.flap, n.pal, n.acc)];
    }
  }

  method LookUpPipe(pipes: seq<PipeSnap>, id: nat) returns (o: Option<PipeSnap>)
    ensures o == FindPipe(pipes, id)
  {
    for i := 0 to |pipes|
      invariant FindPipe(pipes[i..], id) == FindPipe(pipes, id)
    {
      if pipes[i].id == id {
        return Some(pipes[i]);
      }
    }
    return None;
  }

  method BlendPipes(b: Bracket) returns (views: seq<PipeView>)
    ensures views == PipeViews(b.s0, b.s1, b.alpha)
  {
    views := [];
    for i := 0 to |b.s1.pipes|
      invariant views == PipeViews(b.s0, b.s1, b.alpha)[..i]
    {
      var p := b.s1.pipes[i];
      var x := p.x;
      var o := LookUpPipe(b.s0.pipes, p.id);
      if o.Some? {
        x := Lerp(o.value.x, p.x, b.alpha);
      }
      views := views + [PipeView(p.id, x, p.g, p.h)];
    }
  }

  class Ring {
    var snaps: seq<Snapshot>
    var birds: seq<BirdView>
    var pipes: seq<PipeView>

    ghost predicate Valid()
      reads this
    {
      RingOk(snaps)
    }

    constructor ()
      ensures Valid() && snaps == []
    {
      snaps, birds, pipes := [], [], [];
    }

    method Push(s: Snapshot)
      requires Valid()
      modifies this`snaps
      ensures Valid() && snaps == Pushed(old(snaps), s)
    {
      PushKeepsRing(snaps, s);
      if |snaps| > 0 && s.now <= snaps[|snaps| - 1].now {
        return;
      }
      snaps := snaps + [s];
      if |snaps| > RING_LEN {
        snaps := snaps[1..];
      }
    }

    method Reset()
      modifies this`snaps
      ensures Valid() && snaps == []
    {
      snaps := [];
    }

    method Newest() returns (s: Option<Snapshot>)
      requires Valid()
      ensures s.None? <==> snaps == []
      ensures s.Some? ==> s.value in snaps && forall i :: 0 <= i < |snaps| ==> snaps[i].now <= s.value.now
    {
      s := if |snaps| == 0 then None else Some(snaps[|snaps| - 1]);
    }

    /** The bracket of `t`: the scan stops at the first snapshot later than `t`. */
    method FindBracket(t: int) returns (b: Bracket)
      requires Valid() && snaps != []
      ensures b == BracketAt(snaps, t)
    {
      var i0, i1 := 0, 0;
      for i := 0 to |snaps|
        invariant i <= Passed(snaps, t)
        invariant i0 == if i == 0 then 0 else i - 1
        invariant i1 == if i == |snaps| then i - 1 else i
      {
        if snaps[i].now > t {
          break;
        }
        i0, i1 := i, if i + 1 < |snaps| then i + 1 else i;
      }
      var s0, s1, alpha := snaps[i0], snaps[i1], 1.0;
      if i0 != i1 {
        var span := s1.now - s0.now;
        if span > SNAP_GAP_MS {
          s1, alpha := s0, 0.0;
        } else if span > 0 {
          alpha := (t - s0.now) as real / span as real;
        } else {
          alpha := 0.0;
        }
      }
      b := Bracket(s0, s1, alpha);
    }

    /** The world as it looked at `t`. */
    method Interp(t: int) returns (v: View, ok: bool)
      requires Valid()
      modifies this`birds, this`pipes
      ensures ok <==> snaps != []
      ensures v == ViewAt(snaps, t)
      ensures ok ==> birds == v.birds && pipes == v.pipes
    {
      if |snaps| == 0 {
        return NO_VIEW, false;
      }
      var b := FindBracket(t);
      var s1 := b.s1;
      birds := BlendBirds(b);
      pipes := BlendPipes(b);
      v := View(s1.st, s1.theme, s1.seed, s1.goAt, s1.wait, s1.res, Lerp(b.s0.dist, s1.dist, b.alpha), birds, pipes);
      ok := true;
    }
  }
}
