/** The ranking of a finished race: rank.go. */
module Rank {
  import opened Protocol
  import Track
  import Flight
  import opened WorldSpec
  import opened Race
  import Sorting

  datatype Row = Row(id: nat, death: nat, name: string, score: nat, left: bool)

  /** Score, then later death, then lower id. */
  predicate Outranks(a: Row, b: Row) {
    if a.score != b.score then a.score > b.score
    else if a.death != b.death then a.death > b.death
    else a.id < b.id
  }

  /** The tick a bird counts as having died on; survivors count as dying at the cap. */
  function DeathKey(b: Flight.Bird): nat {
    if b.dead then b.deathTick else MAX_RACE_TICKS
  }

  function RowOf(b: Flight.Bird): Row {
    Row(b.id, DeathKey(b), b.name, b.score, b.left)
  }

  function Rows(w: State): seq<Row>
    requires Registered(w.order, w.birds)
  {
    seq(|w.order|, i requires 0 <= i < |w.order| => RowOf(w.birds[w.order[i]]))
  }

  function Ranked(rows: seq<Row>): seq<ResultSnap> {
    seq(|rows|, i requires 0 <= i < |rows| => ResultSnap(rows[i].id, rows[i].name, rows[i].score, i + 1, rows[i].left))
  }

  function Results(w: State): seq<ResultSnap>
    requires Registered(w.order, w.birds)
  {
    Ranked(Sorting.Sort(Outranks, Rows(w)))
  }

  lemma OutranksIsStrictOrder()
    ensures Sorting.StrictOrder(Outranks)
  {
  }

  lemma RowsComparable(w: State)
    requires Registered(w.order, w.birds)
    ensures Sorting.Comparable(Outranks, Rows(w))
  {
    forall i, j | 0 <= i < j < |w.order|
      ensures Rows(w)[i].id != Rows(w)[j].id
    {
      assert w.birds[w.order[i]].id == w.order[i] && w.birds[w.order[j]].id == w.order[j];
    }
  }

  lemma SortedRowIsBird(w: State, i: nat)
    requires Registered(w.order, w.birds) && i < |Sorting.Sort(Outranks, Rows(w))|
    ensures var row := Sorting.Sort(Outranks, Rows(w))[i];
            row.id in w.birds && row == RowOf(w.birds[row.id])
  {
    var rows, sorted := Rows(w), Sorting.Sort(Outranks, Rows(w));
    OutranksIsStrictOrder();
    RowsComparable(w);
    Sorting.SortSorts(Outranks, rows);
    assert sorted[i] in multiset(rows);
    var k :| 0 <= k < |rows| && rows[k] == sorted[i];
    assert w.order[k] in w.order;
  }

  lemma SortedRowsDiffer(w: State, i: nat, j: nat)
    requires Registered(w.order, w.birds) && i < j < |Sorting.Sort(Outranks, Rows(w))|
    ensures Sorting.Sort(Outranks, Rows(w))[i].id != Sorting.Sort(Outranks, Rows(w))[j].id
  {
    var sorted := Sorting.Sort(Outranks, Rows(w));
    OutranksIsStrictOrder();
    RowsComparable(w);
    Sorting.SortSorts(Outranks, Rows(w));
    SortedRowIsBird(w, i);
    SortedRowIsBird(w, j);
    assert Outranks(sorted[i], sorted[j]);
  }

  lemma BirdHasRow(w: State, id: nat) returns (i: nat)
    requires Registered(w.order, w.birds) && id in w.birds
    ensures i < |Sorting.Sort(Outranks, Rows(w))| && Sorting.Sort(Outranks, Rows(w))[i].id == id
  {
    var rows, sorted := Rows(w), Sorting.Sort(Outranks, Rows(w));
    OutranksIsStrictOrder();
    RowsComparable(w);
    Sorting.SortSorts(Outranks, rows);
    var k :| 0 <= k < |w.order| && w.order[k] == id;
    assert rows[k] in multiset(sorted);
    i :| 0 <= i < |sorted| && sorted[i] == rows[k];
  }

  predicate Shows(r: ResultSnap, w: State) {
    && r.id in w.birds
    && r.name == w.birds[r.id].name && r.score == w.birds[r.id].score && r.left == w.birds[r.id].left
  }

  /** A list of results that shows every bird of `w` once, under its own data, ranked by position. */
  ghost predicate Podium(out: seq<ResultSnap>, w: State) {
    && |out| == |w.order|
    && (forall i :: 0 <= i < |out| ==> out[i].rank == i + 1 && Shows(out[i], w))
    && (forall i, j :: 0 <= i < j < |out| ==> out[i].id != out[j].id)
    && (forall id :: id in w.birds ==> exists i :: 0 <= i < |out| && out[i].id == id)
  }

  lemma PodiumIsComplete(w: State)
    requires Registered(w.order, w.birds)
    ensures Podium(Results(w), w)
  {
    var out, sorted := Results(w), Sorting.Sort(Outranks, Rows(w));
    OutranksIsStrictOrder();
    RowsComparable(w);
    Sorting.SortSorts(Outranks, Rows(w));
    forall i | 0 <= i < |out|
      ensures out[i].rank == i + 1 && Shows(out[i], w)
    {
      SortedRowIsBird(w, i);
    }
    forall i, j | 0 <= i < j < |out|
      ensures out[i].id != out[j].id
    {
      SortedRowsDiffer(w, i, j);
    }
    forall id | id in w.birds
      ensures exists i :: 0 <= i < |out| && out[i].id == id
    {
      var i := BirdHasRow(w, id);
      assert out[i].id == id;
    }
  }

  /** Which of two birds stands higher, by score, then death, then id. */
  predicate StandsAbove(a: Flight.Bird, b: Flight.Bird) {
    Outranks(RowOf(a), RowOf(b))
  }

  lemma PodiumIsOrdered(w: State, i: nat, j: nat)
    requires Registered(w.order, w.birds) && i < j < |Results(w)|
    requires Results(w)[i].id in w.birds && Results(w)[j].id in w.birds
    ensures StandsAbove(w.birds[Results(w)[i].id], w.birds[Results(w)[j].id])
  {
    var rows, sorted := Rows(w), Sorting.Sort(Outranks, Rows(w));
    OutranksIsStrictOrder();
    RowsComparable(w);
    Sorting.SortSorts(Outranks, rows);
    SortedRowIsBird(w, i);
    SortedRowIsBird(w, j);
    assert Outranks(sorted[i], sorted[j]);
  }

  /** Any list that is in this order and holds the same rows is the program's list. */
  lemma PodiumIsDetermined(w: State, other: seq<Row>)
    requires Registered(w.order, w.birds)
    requires Sorting.Sorted(Outranks, other) && multiset(other) == multiset(Rows(w))
    ensures Ranked(other) == Results(w)
  {
    var rows, sorted := Rows(w), Sorting.Sort(Outranks, Rows(w));
    OutranksIsStrictOrder();
    RowsComparable(w);
    Sorting.SortSorts(Outranks, rows);
    forall x
      ensures x in other <==> x in sorted
    {
      assert x in other <==> x in multiset(other);
      assert x in sorted <==> x in multiset(sorted);
    }
    Sorting.SortedUnique(Outranks, other, sorted);
  }

  // ----- ranking agrees with survival -----

  /** A bird that died strictly earlier never has the higher score. */
  lemma LaterDeathScoresNoLess(w: State, a: nat, b: nat)
    requires Reachable(w) && w.track.tick <= MAX_RACE_TICKS
    requires a in w.birds && b in w.birds
    requires DeathKey(w.birds[a]) < DeathKey(w.birds[b])
    ensures w.birds[a].score <= w.birds[b].score
  {
    var n := w.track.tick;
    var x, y := w.birds[a], w.birds[b];
    assert x.dead;
    var until := if y.dead then y.deathTick - 1 else n;
    PassedAtGrows(x.deathTick, until);
    PassedAtGrows(x.deathTick - 1, x.deathTick);
    if y.dead {
      PassedAtGrows(y.deathTick - 1, y.deathTick);
    }
  }

  /** Later death, then score, then lower id: the order by survival. */
  predicate Outlasts(a: Flight.Bird, b: Flight.Bird) {
    if DeathKey(a) != DeathKey(b) then DeathKey(a) > DeathKey(b)
    else if a.score != b.score then a.score > b.score
    else a.id < b.id
  }

  /** Although score is the first key, the podium is in order of survival. */
  lemma RankingAgreesWithSurvival(w0: State, events: seq<Event>, i: nat, j: nat)
    requires Grid(w0)
    requires var w := Run(w0, events);
             && w.track.tick <= MAX_RACE_TICKS && Registered(w.order, w.birds) && i < j < |Results(w)|
             && Results(w)[i].id in w.birds && Results(w)[j].id in w.birds
    ensures var w := Run(w0, events);
            Outlasts(w.birds[Results(w)[i].id], w.birds[Results(w)[j].id])
  {
    var w := Run(w0, events);
    GridReachable(w0);
    RunReachable(w0, events);
    PodiumIsOrdered(w, i, j);
    var a, b := Results(w)[i].id, Results(w)[j].id;
    if DeathKey(w.birds[a]) < DeathKey(w.birds[b]) {
      LaterDeathScoresNoLess(w, a, b);
    }
  }

  lemma BirdAtCap(w: State, id: nat)
    requires Reachable(w) && w.track.tick == MAX_RACE_TICKS && id in w.birds
    ensures var b := w.birds[id];
            && b.id == id && b.score <= 106
            && (!b.dead || b.deathTick == MAX_RACE_TICKS ==> b.score == 106)
            && (b.dead ==> b.deathTick <= MAX_RACE_TICKS)
  {
    hide Track.At, PassedAt;
    NoPointOnCapTick();
    if w.birds[id].dead {
      PassedAtGrows(w.birds[id].deathTick, MAX_RACE_TICKS);
      PassedAtGrows(w.birds[id].deathTick - 1, MAX_RACE_TICKS);
    }
  }

  /** At the cap a survivor stands above a dead bird unless that bird died on the cap tick itself
      and has the lower id: nobody scores on that tick, so their scores are always equal. */
  lemma SurvivorAtCap(w: State, a: nat, b: nat)
    requires Reachable(w) && w.track.tick == MAX_RACE_TICKS
    requires a in w.birds && b in w.birds && !w.birds[a].dead && w.birds[b].dead
    ensures StandsAbove(w.birds[a], w.birds[b]) <==> !(w.birds[b].deathTick == MAX_RACE_TICKS && b < a)
    ensures w.birds[a].score == 106 && (w.birds[b].deathTick == MAX_RACE_TICKS ==> w.birds[b].score == 106)
  {
    hide Reachable, Track.At;
    BirdAtCap(w, a);
    BirdAtCap(w, b);
  }
}
