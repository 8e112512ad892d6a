/** What the client's snapshot ring holds and shows: interp.go on values. */
module RingSpec {
  import opened Options
  import opened Protocol
  import opened Subsequences

  datatype BirdView = BirdView(
    id: nat, name: string, y: real, vy: real, score: nat, dead: bool, left: bool, flap: bool, pal: nat, acc: nat)

  datatype PipeView = PipeView(id: nat, x: real, gapY: real, gapH: real)

  datatype View = View(
    st: Phase, theme: nat, seed: nat, goAt: int, wait: nat, res: seq<ResultSnap>, dist: real,
    birds: seq<BirdView>, pipes: seq<PipeView>)

  const NO_VIEW := View(Waiting, 0, 0, 0, 0, [], 0.0, [], [])

  ghost predicate Increasing(snaps: seq<Snapshot>) {
    forall i, j :: 0 <= i < j < |snaps| ==> snaps[i].now < snaps[j].now
  }

  ghost predicate RingOk(snaps: seq<Snapshot>) {
    |snaps| <= RING_LEN && Increasing(snaps)
  }

  // ----- what the ring keeps -----

  /** A snapshot that is not newer than the newest is ignored; a full ring drops its oldest. */
  function Pushed(snaps: seq<Snapshot>, s: Snapshot): seq<Snapshot> {
    if snaps != [] && s.now <= snaps[|snaps| - 1].now then snaps
    else if |snaps| >= RING_LEN then snaps[1..] + [s]
    else snaps + [s]
  }

  /** The ring after a stream of snapshots, from empty. */
  function Fed(stream: seq<Snapshot>): seq<Snapshot> {
    if stream == [] then [] else Pushed(Fed(stream[..|stream| - 1]), stream[|stream| - 1])
  }

  function Extended(records: seq<Snapshot>, s: Snapshot): seq<Snapshot> {
    if records != [] && s.now <= records[|records| - 1].now then records else records + [s]
  }

  /** The snapshots that were newer than everything before them. */
  function Records(stream: seq<Snapshot>): seq<Snapshot> {
    if stream == [] then []
    else Extended(Records(stream[..|stream| - 1]), stream[|stream| - 1])
  }

  lemma {:induction false} RecordsIncrease(stream: seq<Snapshot>)
    ensures Increasing(Records(stream)) && (stream != [] ==> Records(stream) != [])
  {
    if stream != [] {
      RecordsIncrease(stream[..|stream| - 1]);
    }
  }

  lemma ExtendedSubseq(records: seq<Snapshot>, stream: seq<Snapshot>, s: Snapshot)
    requires Subseq(records, stream)
    ensures Subseq(Extended(records, s), stream + [s])
  {
    hide Subseq;
    SubseqExtend(records, stream, s);
  }

  lemma {:induction false} RecordsAreSubseq(stream: seq<Snapshot>)
    ensures Subseq(Records(stream), stream)
  {
    hide Extended;
    if stream != [] {
      var m := |stream| - 1;
      RecordsAreSubseq(stream[..m]);
      ExtendedSubseq(Records(stream[..m]), stream[..m], stream[m]);
      assert stream == stream[..m] + [stream[m]];
    }
  }

  lemma {:induction false} LastRecordIsNewest(stream: seq<Snapshot>, i: nat)
    requires i < |stream|
    ensures Records(stream) != [] && stream[i].now <= Records(stream)[|Records(stream)| - 1].now
  {
    if i < |stream| - 1 {
      LastRecordIsNewest(stream[..|stream| - 1], i);
    }
  }

  function Newest8(snaps: seq<Snapshot>): seq<Snapshot> {
    if |snaps| <= RING_LEN then snaps else snaps[|snaps| - RING_LEN..]
  }

  lemma PushKeepsNewest(records: seq<Snapshot>, s: Snapshot)
    ensures Pushed(Newest8(records), s) == Newest8(Extended(records, s))
  {
    var kept := Newest8(records);
    assert records != [] ==> kept[|kept| - 1] == records[|records| - 1];
    if |records| > RING_LEN {
      assert kept[1..] + [s] == (records + [s])[|records| + 1 - RING_LEN..];
    } else if |records| == RING_LEN {
      assert records[1..] + [s] == (records + [s])[1..];
    }
  }

  /** The ring is always the last eight snapshots that were newer than everything before them. */
  lemma {:induction false} RingIsNewestRecords(stream: seq<Snapshot>)
    ensures Fed(stream) == Newest8(Records(stream))
  {
    if stream != [] {
      hide Pushed, Newest8;
      var m := |stream| - 1;
      RingIsNewestRecords(stream[..m]);
      PushKeepsNewest(Records(stream[..m]), stream[m]);
    } else {
      assert Newest8([]) == [];
    }
  }

  lemma {:induction false} SuffixIsSubseq<T>(a: seq<T>, from: nat)
    requires from <= |a|
    ensures Subseq(a[from..], a)
  {
    if from < |a| {
      var m := |a| - 1;
      SuffixIsSubseq(a[..m], from);
      SubseqExtend(a[..m][from..], a[..m], a[m]);
      assert a[from..] == a[..m][from..] + [a[m]] && a == a[..m] + [a[m]];
    } else {
      assert a[from..] == [];
    }
  }

  lemma NewestKeepsOrder(snaps: seq<Snapshot>)
    requires Increasing(snaps)
    ensures RingOk(Newest8(snaps)) && Subseq(Newest8(snaps), snaps)
    ensures snaps != [] ==> Newest8(snaps) != [] && Newest8(snaps)[|Newest8(snaps)| - 1] == snaps[|snaps| - 1]
  {
    hide Subseq;
    if |snaps| <= RING_LEN {
      SubseqRefl(snaps);
    } else {
      SuffixIsSubseq(snaps, |snaps| - RING_LEN);
    }
  }

  /** A ring is bounded, strictly increasing in time, and a subsequence of what was pushed;
      its newest snapshot is the newest pushed. */
  lemma RingIsOrdered(stream: seq<Snapshot>)
    ensures RingOk(Fed(stream)) && Subseq(Fed(stream), stream)
    ensures stream != [] ==> Fed(stream) != []
    ensures forall i :: 0 <= i < |stream| ==> stream[i].now <= Fed(stream)[|Fed(stream)| - 1].now
  {
    hide Fed, Records;
    var records := Records(stream);
    RingIsNewestRecords(stream);
    RecordsIncrease(stream);
    RecordsAreSubseq(stream);
    NewestKeepsOrder(records);
    SubseqTrans(Newest8(records), records, stream);
    forall i | 0 <= i < |stream|
      ensures stream[i].now <= records[|records| - 1].now
    {
      LastRecordIsNewest(stream, i);
    }
  }

  ghost predicate IsFirstOfLatest(stream: seq<Snapshot>, i: nat)
    requires i < |stream|
  {
    && (forall j :: 0 <= j < i ==> stream[j].now < stream[i].now)
    && (forall j :: 0 <= j < |stream| ==> stream[j].now <= stream[i].now)
  }

  /** `s` is the first snapshot of the latest time in the stream. */
  ghost predicate FirstOfLatest(stream: seq<Snapshot>, s: Snapshot) {
    exists i :: 0 <= i < |stream| && IsFirstOfLatest(stream, i) && stream[i] == s
  }

  lemma FirstOfMore(front: seq<Snapshot>, s: Snapshot, i: nat)
    requires i < |front| && IsFirstOfLatest(front, i)
    ensures IsFirstOfLatest(front + [s], if s.now > front[i].now then |front| else i)
  {
  }

  lemma {:induction false} LastRecordIsFirst(stream: seq<Snapshot>) returns (i: nat)
    requires stream != []
    ensures Records(stream) != [] && i < |stream| && IsFirstOfLatest(stream, i)
    ensures Records(stream)[|Records(stream)| - 1] == stream[i]
  {
    var m := |stream| - 1;
    if m == 0 {
      i := 0;
    } else {
      hide IsFirstOfLatest;
      i := LastRecordIsFirst(stream[..m]);
      FirstOfMore(stream[..m], stream[m], i);
      assert stream == stream[..m] + [stream[m]];
      i := if stream[m].now > stream[i].now then m else i;
    }
  }

  lemma FirstIsUnique(stream: seq<Snapshot>, i: nat, k: nat)
    requires i < |stream| && k < |stream| && IsFirstOfLatest(stream, i) && IsFirstOfLatest(stream, k)
    ensures i == k
  {
    assert stream[i].now <= stream[k].now && stream[k].now <= stream[i].now;
  }

  lemma FedEndsFirst(stream: seq<Snapshot>) returns (i: nat)
    requires stream != []
    ensures i < |stream| && IsFirstOfLatest(stream, i)
    ensures Fed(stream) != [] && Fed(stream)[|Fed(stream)| - 1] == stream[i]
  {
    hide Fed, Records, IsFirstOfLatest, Newest8, RingOk, Subseq;
    i := LastRecordIsFirst(stream);
    RingIsNewestRecords(stream);
    RecordsIncrease(stream);
    NewestKeepsOrder(Records(stream));
  }

  /** A ring ends with a snapshot exactly if that is the first of the latest time that was pushed. */
  lemma RingEndsWith(stream: seq<Snapshot>, s: Snapshot)
    requires stream != []
    ensures Fed(stream) != []
    ensures Fed(stream)[|Fed(stream)| - 1] == s <==> FirstOfLatest(stream, s)
  {
    hide Fed, IsFirstOfLatest;
    var i := FedEndsFirst(stream);
    if FirstOfLatest(stream, s) {
      var k :| 0 <= k < |stream| && IsFirstOfLatest(stream, k) && stream[k] == s;
      FirstIsUnique(stream, i, k);
    }
  }

  /** A last snapshot that is no copy of an earlier one ends the ring exactly if it is later than all. */
  lemma LastEndsRing(stream: seq<Snapshot>)
    requires stream != []
    ensures var m := |stream| - 1;
            stream[m] !in stream[..m] ==>
              (Fed(stream) != [] && Fed(stream)[|Fed(stream)| - 1] == stream[m]
               <==> forall j :: 0 <= j < m ==> stream[j].now < stream[m].now)
  {
    hide Fed;
    var m := |stream| - 1;
    RingEndsWith(stream, stream[m]);
    if FirstOfLatest(stream, stream[m]) {
      var k :| 0 <= k < |stream| && IsFirstOfLatest(stream, k) && stream[k] == stream[m];
      assert k < m ==> stream[..m][k] == stream[m];
    } else {
      assert !IsFirstOfLatest(stream, m);
    }
  }

  lemma PushKeepsRing(snaps: seq<Snapshot>, s: Snapshot)
    requires RingOk(snaps)
    ensures RingOk(Pushed(snaps, s))
  {
  }

  // ----- what the ring shows -----

  function Lerp(a: real, b: real, t: real): real {
    a + (b - a) * t
  }

  datatype Bracket = Bracket(s0: Snapshot, s1: Snapshot, alpha: real)

  /** How many snapshots, from the oldest on, are not later than `t`. */
  function Passed(snaps: seq<Snapshot>, t: int): (n: nat)
    ensures n <= |snaps|
    ensures forall i :: 0 <= i < n ==> snaps[i].now <= t
    ensures n < |snaps| ==> snaps[n].now > t
  {
    if snaps == [] || snaps[0].now > t then 0 else 1 + Passed(snaps[1..], t)
  }

  function Progress(a: Snapshot, b: Snapshot, t: int): real {
    if b.now > a.now then (t - a.now) as real / (b.now - a.now) as real else 0.0
  }

  /** The snapshots around `t` and how far `t` is from the first to the second. Outside the ring and
      in too large a gap, one snapshot is held. */
  function BracketAt(snaps: seq<Snapshot>, t: int): Bracket
    requires snaps != []
  {
    var n := Passed(snaps, t);
    if n == 0 then Bracket(snaps[0], snaps[0], 1.0)
    else if n == |snaps| then Bracket(snaps[n - 1], snaps[n - 1], 1.0)
    else if snaps[n].now - snaps[n - 1].now > SNAP_GAP_MS then Bracket(snaps[n - 1], snaps[n - 1], 0.0)
    else Bracket(snaps[n - 1], snaps[n], Progress(snaps[n - 1], snaps[n], t))
  }

  function FindBird(birds: seq<BirdSnap>, id: nat): Option<BirdSnap> {
    if birds == [] then None
    else if birds[0].id == id then Some(birds[0])
    else FindBird(birds[1..], id)
  }

  function FindPipe(pipes: seq<PipeSnap>, id: nat): Option<PipeSnap> {
    if pipes == [] then None
    else if pipes[0].id == id then Some(pipes[0])
    else FindPipe(pipes[1..], id)
  }

  function ShowBird(from: Option<BirdSnap>, b: BirdSnap, alpha: real): BirdView {
    var o := if from.Some? then from.value else b;
    BirdView(b.id, b.name, if from.Some? then Lerp(o.y, b.y, alpha) else b.y,
             if from.Some? then Lerp(o.vy, b.vy, alpha) else b.vy,
             b.score, b.dead, b.left, b.flap, b.pal, b.acc)
  }

  function ShowPipe(from: Option<PipeSnap>, p: PipeSnap, alpha: real): PipeView {
    PipeView(p.id, if from.Some? then Lerp(from.value.x, p.x, alpha) else p.x, p.g, p.h)
  }

  function BirdViews(s0: Snapshot, s1: Snapshot, alpha: real): seq<BirdView> {
    seq(|s1.birds|, i requires 0 <= i < |s1.birds| => ShowBird(FindBird(s0.birds, s1.birds[i].id), s1.birds[i], alpha))
  }

  function PipeViews(s0: Snapshot, s1: Snapshot, alpha: real): seq<PipeView> {
    seq(|s1.pipes|, i requires 0 <= i < |s1.pipes| => ShowPipe(FindPipe(s0.pipes, s1.pipes[i].id), s1.pipes[i], alpha))
  }

  /** Flags come from the later snapshot, positions from between the two. */
  function Pose(b: Bracket): View {
    View(b.s1.st, b.s1.theme, b.s1.seed, b.s1.goAt, b.s1.wait, b.s1.res,
         Lerp(b.s0.dist, b.s1.dist, b.alpha),
         BirdViews(b.s0, b.s1, b.alpha), PipeViews(b.s0, b.s1, b.alpha))
  }

  function ViewAt(snaps: seq<Snapshot>, t: int): View {
    if snaps == [] then NO_VIEW else Pose(BracketAt(snaps, t))
  }

  // ----- faithfulness -----

  ghost predicate Between(lo: real, v: real, hi: real) {
    lo <= v <= hi || hi <= v <= lo
  }

  lemma Product(x: real, y: real)
    requires x >= 0.0 && y >= 0.0
    ensures x * y >= 0.0
  {
  }

  lemma LerpBetween(a: real, b: real, t: real)
    requires 0.0 <= t <= 1.0
    ensures Between(a, Lerp(a, b, t), b)
  {
    if a <= b {
      Product(b - a, t);
      Product(b - a, 1.0 - t);
    } else {
      Product(a - b, t);
      Product(a - b, 1.0 - t);
    }
  }

  lemma DivisionInUnit(x: real, y: real)
    requires 0.0 <= x <= y && 0.0 < y
    ensures 0.0 <= x / y <= 1.0
    ensures x == 0.0 ==> x / y == 0.0
  {
  }

  lemma ProgressInUnit(a: Snapshot, b: Snapshot, t: int)
    requires a.now <= t <= b.now
    ensures 0.0 <= Progress(a, b, t) <= 1.0
    ensures t == a.now ==> Progress(a, b, t) == 0.0
  {
    if b.now > a.now {
      DivisionInUnit((t - a.now) as real, (b.now - a.now) as real);
    }
  }

  lemma AlphaInUnit(snaps: seq<Snapshot>, t: int)
    requires snaps != []
    ensures 0.0 <= BracketAt(snaps, t).alpha <= 1.0
  {
    var n := Passed(snaps, t);
    if 0 < n < |snaps| {
      ProgressInUnit(snaps[n - 1], snaps[n], t);
    }
  }

  lemma {:induction false} FindBirdFinds(birds: seq<BirdSnap>, id: nat)
    ensures match FindBird(birds, id)
            case Some(b) => b in birds && b.id == id
            case None => forall b :: b in birds ==> b.id != id
  {
    if birds != [] {
      assert birds == [birds[0]] + birds[1..];
      FindBirdFinds(birds[1..], id);
    }
  }

  lemma {:induction false} FindPipeFinds(pipes: seq<PipeSnap>, id: nat)
    ensures match FindPipe(pipes, id)
            case Some(p) => p in pipes && p.id == id
            case None => forall p :: p in pipes ==> p.id != id
  {
    if pipes != [] {
      assert pipes == [pipes[0]] + pipes[1..];
      FindPipeFinds(pipes[1..], id);
    }
  }

  /** The bracket is the one around `t`: its first snapshot is the last one not later than `t`, unless
      all are later; its second is the next one, at most 150 ms on, or the first again; and the weight
      is the share of the way from the first to the second that has passed at `t`. */
  ghost predicate Surrounds(snaps: seq<Snapshot>, t: int, b: Bracket)
    requires snaps != []
  {
    && b.s0 in snaps && b.s1 in snaps
    && (if snaps[0].now <= t then b.s0.now <= t else b.s0 == snaps[0])
    && (forall i :: 0 <= i < |snaps| ==> !(b.s0.now < snaps[i].now <= t))
    && (b.s1 != b.s0 ==>
          && b.s0.now <= t < b.s1.now <= b.s0.now + SNAP_GAP_MS
          && (forall i :: 0 <= i < |snaps| ==> !(b.s0.now < snaps[i].now < b.s1.now))
          && b.alpha * (b.s1.now - b.s0.now) as real == (t - b.s0.now) as real)
    && (b.s1 == b.s0 ==>
          forall i :: 0 <= i < |snaps| && b.s0.now < snaps[i].now ==>
            t < snaps[0].now || snaps[i].now > b.s0.now + SNAP_GAP_MS)
  }

  /** The passed snapshots are those not later than `t`, and they are the oldest ones. */
  lemma PassedSplits(snaps: seq<Snapshot>, t: int)
    requires Increasing(snaps)
    ensures var n := Passed(snaps, t);
            forall i :: 0 <= i < |snaps| ==>
              if i < n then snaps[i].now <= t && snaps[i].now <= snaps[n - 1].now
              else snaps[i].now > t && snaps[n].now <= snaps[i].now
  {
  }

  lemma DivisionUndone(x: real, d: real)
    requires d > 0.0
    ensures x / d * d == x
  {
  }

  lemma BracketSurrounds(snaps: seq<Snapshot>, t: int)
    requires Increasing(snaps) && snaps != []
    ensures Surrounds(snaps, t, BracketAt(snaps, t))
  {
    hide Increasing, Passed;
    var n := Passed(snaps, t);
    PassedSplits(snaps, t);
    if 0 < n < |snaps| {
      DivisionUndone((t - snaps[n - 1].now) as real, (snaps[n].now - snaps[n - 1].now) as real);
    }
  }

  ghost predicate BirdLiesBetween(s0: Snapshot, late: BirdSnap, v: BirdView, alpha: real) {
    && v.id == late.id && v.name == late.name && v.score == late.score && v.dead == late.dead && v.left == late.left
    && v.flap == late.flap && v.pal == late.pal && v.acc == late.acc
    && (forall o :: o in s0.birds && o.id == late.id ==> FindBird(s0.birds, late.id).Some?)
    && match FindBird(s0.birds, late.id)
       case Some(o) => o in s0.birds && o.id == late.id && Between(o.y, v.y, late.y) && Between(o.vy, v.vy, late.vy)
                       && v.y == o.y + (late.y - o.y) * alpha && v.vy == o.vy + (late.vy - o.vy) * alpha
       case None => v.y == late.y && v.vy == late.vy
  }

  ghost predicate PipeLiesBetween(s0: Snapshot, late: PipeSnap, v: PipeView, alpha: real) {
    && v.id == late.id && v.gapY == late.g && v.gapH == late.h
    && match FindPipe(s0.pipes, late.id)
       case Some(o) => o in s0.pipes && o.id == late.id && Between(o.x, v.x, late.x) && v.x == o.x + (late.x - o.x) * alpha
       case None => v.x == late.x && forall o :: o in s0.pipes ==> o.id != late.id
  }

  lemma BirdIsBetween(s0: Snapshot, late: BirdSnap, alpha: real)
    requires 0.0 <= alpha <= 1.0
    ensures BirdLiesBetween(s0, late, ShowBird(FindBird(s0.birds, late.id), late, alpha), alpha)
  {
    FindBirdFinds(s0.birds, late.id);
    var from := FindBird(s0.birds, late.id);
    if from.Some? {
      LerpBetween(from.value.y, late.y, alpha);
      LerpBetween(from.value.vy, late.vy, alpha);
    }
  }

  lemma PipeIsBetween(s0: Snapshot, late: PipeSnap, alpha: real)
    requires 0.0 <= alpha <= 1.0
    ensures PipeLiesBetween(s0, late, ShowPipe(FindPipe(s0.pipes, late.id), late, alpha), alpha)
  {
    FindPipeFinds(s0.pipes, late.id);
    var from := FindPipe(s0.pipes, late.id);
    if from.Some? {
      LerpBetween(from.value.x, late.x, alpha);
    }
  }

  /** Everything shown comes from the two snapshots around the render time: identity and flags from the
      later one, each position between its two samples, or the later one's own where the earlier has none. */
  lemma ShownLiesBetween(snaps: seq<Snapshot>, t: int, i: nat)
    requires snaps != []
    ensures Increasing(snaps) ==> Surrounds(snaps, t, BracketAt(snaps, t))
    ensures var b, v := BracketAt(snaps, t), ViewAt(snaps, t);
            && b.s0 in snaps && b.s1 in snaps
            && v.st == b.s1.st && v.theme == b.s1.theme && v.seed == b.s1.seed && v.goAt == b.s1.goAt
            && v.wait == b.s1.wait && v.res == b.s1.res
            && Between(b.s0.dist, v.dist, b.s1.dist) && v.dist == b.s0.dist + (b.s1.dist - b.s0.dist) * b.alpha
            && |v.birds| == |b.s1.birds| && |v.pipes| == |b.s1.pipes|
            && (i < |v.birds| ==> BirdLiesBetween(b.s0, b.s1.birds[i], v.birds[i], b.alpha))
            && (i < |v.pipes| ==> PipeLiesBetween(b.s0, b.s1.pipes[i], v.pipes[i], b.alpha))
  {
    hide Increasing, Surrounds, BirdLiesBetween, PipeLiesBetween, ShowBird, ShowPipe, Between;
    var b := BracketAt(snaps, t);
    if Increasing(snaps) {
      BracketSurrounds(snaps, t);
    }
    AlphaInUnit(snaps, t);
    LerpBetween(b.s0.dist, b.s1.dist, b.alpha);
    if i < |b.s1.birds| {
      BirdIsBetween(b.s0, b.s1.birds[i], b.alpha);
    }
    if i < |b.s1.pipes| {
      PipeIsBetween(b.s0, b.s1.pipes[i], b.alpha);
    }
  }

  /** In a ring, the number of snapshots up to one's own time is its place. */
  lemma {:induction false} PassedAt(snaps: seq<Snapshot>, i: nat)
    requires Increasing(snaps) && i < |snaps|
    ensures Passed(snaps, snaps[i].now) == i + 1
  {
    if i > 0 {
      assert Increasing(snaps[1..]);
      PassedAt(snaps[1..], i - 1);
    } else if |snaps| > 1 {
      assert snaps[1..][0].now > snaps[0].now;
    }
  }

  lemma ExactAtStored(snaps: seq<Snapshot>, i: nat)
    requires Increasing(snaps) && i < |snaps|
    ensures ViewAt(snaps, snaps[i].now).dist == snaps[i].dist
    ensures BracketAt(snaps, snaps[i].now).s0 == snaps[i]
  {
    PassedAt(snaps, i);
    if i + 1 < |snaps| {
      ProgressInUnit(snaps[i], snaps[i + 1], snaps[i].now);
    }
  }

  /** At a stored time every bird and pipe the stored snapshot knows is exactly where it says. */
  lemma ExactPose(snaps: seq<Snapshot>, i: nat, k: nat)
    requires Increasing(snaps) && i < |snaps|
    ensures var v, s := ViewAt(snaps, snaps[i].now), snaps[i];
            if i + 1 < |snaps| then
              && (k < |v.birds| && FindBird(s.birds, v.birds[k].id).Some? ==>
                  var o := FindBird(s.birds, v.birds[k].id).value; v.birds[k].y == o.y && v.birds[k].vy == o.vy)
              && (k < |v.pipes| && FindPipe(s.pipes, v.pipes[k].id).Some? ==>
                  v.pipes[k].x == FindPipe(s.pipes, v.pipes[k].id).value.x)
            else
              && |v.birds| == |s.birds| && |v.pipes| == |s.pipes|
              && (k < |v.birds| ==> v.birds[k].y == s.birds[k].y && v.birds[k].vy == s.birds[k].vy)
              && (k < |v.pipes| ==> v.pipes[k].x == s.pipes[k].x)
  {
    PassedAt(snaps, i);
    if i + 1 < |snaps| {
      ProgressInUnit(snaps[i], snaps[i + 1], snaps[i].now);
    }
  }

  /** Before the oldest, from the newest on, and inside a large gap, a stored pose is held still. */
  lemma HeldPose(snaps: seq<Snapshot>, t: int, u: int)
    requires snaps != []
    requires var n := Passed(snaps, t);
             && n == Passed(snaps, u)
             && (n == 0 || n == |snaps| || snaps[n].now - snaps[n - 1].now > SNAP_GAP_MS)
    ensures ViewAt(snaps, t) == ViewAt(snaps, u)
    ensures var n := Passed(snaps, t);
            BracketAt(snaps, t).s0 == BracketAt(snaps, t).s1 == snaps[if n == 0 then 0 else n - 1]
    ensures ViewAt(snaps, t).dist == BracketAt(snaps, t).s0.dist
  {
  }

  // ----- the distance never runs backwards -----

  ghost predicate DistsRise(snaps: seq<Snapshot>) {
    forall i, j :: 0 <= i < j < |snaps| ==> snaps[i].dist <= snaps[j].dist
  }

  ghost predicate ShownDistRises(snaps: seq<Snapshot>) {
    forall t: int, u: int :: t <= u ==> ViewAt(snaps, t).dist <= ViewAt(snaps, u).dist
  }

  lemma {:induction false} PassedGrows(snaps: seq<Snapshot>, t: int, u: int)
    requires t <= u
    ensures Passed(snaps, t) <= Passed(snaps, u)
  {
    if snaps != [] && snaps[0].now <= t {
      PassedGrows(snaps[1..], t, u);
    }
  }

  function FloorDist(snaps: seq<Snapshot>, t: int): real
    requires snaps != []
  {
    var n := Passed(snaps, t);
    snaps[if n == 0 then 0 else n - 1].dist
  }

  function CeilDist(snaps: seq<Snapshot>, t: int): real
    requires snaps != []
  {
    var n := Passed(snaps, t);
    snaps[if n == |snaps| then n - 1 else n].dist
  }

  lemma DistWithin(snaps: seq<Snapshot>, t: int)
    requires snaps != [] && DistsRise(snaps)
    ensures FloorDist(snaps, t) <= ViewAt(snaps, t).dist <= CeilDist(snaps, t)
  {
    var b := BracketAt(snaps, t);
    AlphaInUnit(snaps, t);
    LerpBetween(b.s0.dist, b.s1.dist, b.alpha);
  }

  lemma DivisionGrows(x: real, y: real, d: real)
    requires x <= y && d > 0.0
    ensures x / d <= y / d
  {
  }

  lemma ProgressGrows(a: Snapshot, b: Snapshot, t: int, u: int)
    requires t <= u
    ensures Progress(a, b, t) <= Progress(a, b, u)
  {
    if b.now > a.now {
      DivisionGrows((t - a.now) as real, (u - a.now) as real, (b.now - a.now) as real);
    }
  }

  lemma LerpGrows(a: real, b: real, t: real, u: real)
    requires a <= b && t <= u
    ensures Lerp(a, b, t) <= Lerp(a, b, u)
  {
    Product(b - a, u - t);
  }

  lemma DistGrows(snaps: seq<Snapshot>, t: int, u: int)
    requires snaps != [] && DistsRise(snaps) && t <= u
    ensures ViewAt(snaps, t).dist <= ViewAt(snaps, u).dist
  {
    var n := Passed(snaps, t);
    PassedGrows(snaps, t, u);
    if n == Passed(snaps, u) {
      if 0 < n < |snaps| && snaps[n].now - snaps[n - 1].now <= SNAP_GAP_MS {
        ProgressGrows(snaps[n - 1], snaps[n], t, u);
        LerpGrows(snaps[n - 1].dist, snaps[n].dist, Progress(snaps[n - 1], snaps[n], t), Progress(snaps[n - 1], snaps[n], u));
      }
    } else {
      DistWithin(snaps, t);
      DistWithin(snaps, u);
      assert CeilDist(snaps, t) <= FloorDist(snaps, u);
    }
  }

  /** The shown distance is non-decreasing in render time exactly when the stored distances are. */
  lemma DistRisesIff(snaps: seq<Snapshot>)
    requires Increasing(snaps) && snaps != []
    ensures ShownDistRises(snaps) <==> DistsRise(snaps)
  {
    if DistsRise(snaps) {
      forall t: int, u: int | t <= u
        ensures ViewAt(snaps, t).dist <= ViewAt(snaps, u).dist
      {
        DistGrows(snaps, t, u);
      }
    }
    if ShownDistRises(snaps) {
      forall i, j | 0 <= i < j < |snaps|
        ensures snaps[i].dist <= snaps[j].dist
      {
        ExactAtStored(snaps, i);
        ExactAtStored(snaps, j);
        assert ViewAt(snaps, snaps[i].now).dist <= ViewAt(snaps, snaps[j].now).dist;
      }
    }
  }
}
