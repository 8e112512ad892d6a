/** The persistent store: the program of store.go, proved against `StoreSpec`. */
module Store {
  import opened Sorting
  import opened StoreSpec

  /** `list` holds exactly the scorers among `names`, once each. */
  ghost predicate Collected(list: seq<TopEntry>, players: Players, names: set<string>) {
    && (forall i :: 0 <= i < |list| ==>
          && list[i].name in names && list[i].name in players && players[list[i].name].best > 0
          && list[i] == EntryFor(list[i].name, players[list[i].name]))
    && (forall i, j :: 0 <= i < j < |list| ==> list[i].name != list[j].name)
    && (forall name :: name in names && name in players && players[name].best > 0 ==> Listed(list, name))
  }

  lemma CollectOne(list: seq<TopEntry>, players: Players, names: set<string>, name: string)
    requires Collected(list, players, names) && name in players && name !in names
    ensures Collected(if players[name].best > 0 then list + [EntryFor(name, players[name])] else list,
                      players, names + {name})
  {
    if players[name].best > 0 {
      var longer := list + [EntryFor(name, players[name])];
      forall other | other in names + {name} && other in players && players[other].best > 0
        ensures Listed(longer, other)
      {
        if other == name {
          assert longer[|list|].name == other;
        } else {
          var i :| 0 <= i < |list| && list[i].name == other;
          assert longer[i].name == other;
        }
      }
    }
  }

  lemma CollectedComparable(list: seq<TopEntry>, players: Players, names: set<string>)
    requires Collected(list, players, names)
    ensures Comparable(Better, list)
  {
    forall i, j | 0 <= i < j < |list|
      ensures Better(list[i], list[j]) || Better(list[j], list[i])
    {
      NameOrder(list[i].name, list[j].name, "");
    }
  }

  lemma CollectedSorted(list: seq<TopEntry>, sorted: seq<TopEntry>, players: Players)
    requires Collected(list, players, players.Keys)
    requires multiset(sorted) == multiset(list)
    ensures forall i :: 0 <= i < |sorted| ==> sorted[i] in list
    ensures forall name :: name in players && players[name].best > 0 ==> Listed(sorted, name)
  {
    forall i | 0 <= i < |sorted|
      ensures sorted[i] in list
    {
      assert sorted[i] in multiset(list);
    }
    forall name | name in players && players[name].best > 0
      ensures Listed(sorted, name)
    {
      var i :| 0 <= i < |list| && list[i].name == name;
      assert list[i] in multiset(sorted);
      var j :| 0 <= j < |sorted| && sorted[j] == list[i];
    }
  }

  /** Cutting the full sorted list at fifty leaves the top list. */
  lemma CutIsTop(list: seq<TopEntry>, players: Players)
    requires Sorted(Better, list)
    requires forall i :: 0 <= i < |list| ==>
               && list[i].name in players && players[list[i].name].best > 0
               && list[i] == EntryFor(list[i].name, players[list[i].name])
    requires forall name :: name in players && players[name].best > 0 ==> Listed(list, name)
    ensures IsTop(if |list| > MAX_TOP_ENTRIES then list[..MAX_TOP_ENTRIES] else list, players)
  {
    var cut := if |list| > MAX_TOP_ENTRIES then list[..MAX_TOP_ENTRIES] else list;
    forall name | name in players && players[name].best > 0 && !Listed(cut, name)
      ensures |cut| == MAX_TOP_ENTRIES
      ensures forall i :: 0 <= i < |cut| ==> Better(cut[i], EntryFor(name, players[name]))
    {
      var k :| 0 <= k < |list| && list[k].name == name;
      assert forall i :: 0 <= i < |cut| ==> cut[i] == list[i];
      assert k >= |cut|;
    }
  }

  lemma SortedIsTop(list: seq<TopEntry>, players: Players)
    requires Collected(list, players, players.Keys)
    ensures var sorted := Sort(Better, list);
            IsTop(if |sorted| > MAX_TOP_ENTRIES then sorted[..MAX_TOP_ENTRIES] else sorted, players)
  {
    var sorted := Sort(Better, list);
    CollectedComparable(list, players, players.Keys);
    BetterIsStrictOrder();
    SortSorts(Better, list);
    CollectedSorted(list, sorted, players);
    forall i | 0 <= i < |sorted|
      ensures sorted[i].name in players && players[sorted[i].name].best > 0
      ensures sorted[i] == EntryFor(sorted[i].name, players[sorted[i].name])
    {
      var k :| 0 <= k < |list| && list[k] == sorted[i];
    }
    CutIsTop(sorted, players);
  }

  class Store {
    var players: Players
    var top: seq<TopEntry>
    var updated: int

    ghost predicate Valid()
      reads this
    {
      IsTop(top, players)
    }

    /** Opening a store yields statistics and a list that agree; an empty store is the smallest case. */
    constructor (players: Players, top: seq<TopEntry>, updated: int)
      requires IsTop(top, players)
      ensures Valid() && this.players == players && this.top == top
    {
      this.players, this.top, this.updated := players, top, updated;
    }

    function LookupBird(name: string): (r: (Plumage, bool))
      reads this
      ensures r.1 <==> name in players && players[name].bird.Valid()
      ensures r.1 ==> r.0 == players[name].bird
    {
      var ps := StatOf(players, name);
      (ps.bird, name in players && ps.bird.Valid())
    }

    method RememberBird(name: string, bird: Plumage)
      requires Valid()
      modifies this
      ensures Valid()
      ensures players == Remember(old(players), name, bird) && top == old(top) && updated == old(updated)
    {
      RememberKeepsTop(top, players, name, bird);
      var ps := StatOf(players, name);
      ps := ps.(bird := bird);
      players := players[name := ps];
    }

    /** Collects the scorers in whatever order the map yields them, sorts, and cuts at fifty. */
    method RebuildTop()
      modifies this`top
      ensures Valid()
    {
      hide Better, Sort, IsTop, EntryFor;
      var list: seq<TopEntry> := [];
      var todo := players.Keys;
      while todo != {}
        invariant todo <= players.Keys
        invariant Collected(list, players, players.Keys - todo)
        decreases todo
      {
        var name :| name in todo;
        var ps := players[name];
        CollectOne(list, players, players.Keys - todo, name);
        todo := todo - {name};
        assert players.Keys - todo == players.Keys - (todo + {name}) + {name};
        if ps.best > 0 {
          list := list + [EntryFor(name, ps)];
        }
      }
      assert players.Keys - todo == players.Keys;
      SortedIsTop(list, players);
      list := Sort(Better, list);
      if |list| > MAX_TOP_ENTRIES {
        list := list[..MAX_TOP_ENTRIES];
      }
      top := list;
    }

    method RecordRace(entries: seq<RaceEntry>, theme: nat, at: int)
      requires Valid()
      modifies this
      ensures Valid()
      ensures players == Record(old(players), entries, theme, at) && updated == at
    {
      for i := 0 to |entries|
        invariant players == Record(old(players), entries[..i], theme, at)
      {
        var e := entries[i];
        assert entries[..i + 1][..i] == entries[..i];
        var ps := StatOf(players, e.name);
        ps := ps.(bird := e.bird);
        ps := ps.(races := ps.races + 1);
        if e.rank == 1 {
          ps := ps.(wins := ps.wins + 1);
        }
        if e.score > ps.best {
          ps := ps.(best := e.score, bestTheme := ThemeName(theme), bestAt := at);
        }
        players := players[e.name := ps];
      }
      assert entries[..|entries|] == entries;
      RebuildTop();
      updated := at;
    }
  }
}
