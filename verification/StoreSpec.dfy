/** The persistent player statistics and the all-time list of store.go, as values. */
module StoreSpec {
  import opened Sorting

  const PALETTE_COUNT: nat := 12
  const ACCESSORY_COUNT: nat := 4

  /** A player's appearance: a colour palette and an accessory. */
  datatype Plumage = Plumage(palette: nat, accessory: nat) {
    predicate Valid() {
      palette < PALETTE_COUNT && accessory < ACCESSORY_COUNT
    }
  }

  const THEME_COUNT: nat := 4

  function ThemeName(theme: nat): string {
    if theme == 0 then "desert"
    else if theme == 1 then "clouds"
    else if theme == 2 then "forest"
    else if theme == 3 then "underwater"
    else "unknown"
  }

  datatype PlayerStat = PlayerStat(best: int, bestTheme: string, bestAt: int, races: int, wins: int, bird: Plumage)

  type Players = map<string, PlayerStat>

  datatype RaceEntry = RaceEntry(name: string, score: int, rank: nat, bird: Plumage)

  datatype TopEntry = TopEntry(name: string, score: int, theme: string, at: int)

  const MAX_TOP_ENTRIES: nat := 50

  /** What a missing map entry reads as. The zero time is `NEVER`. */
  const NEVER: int := -62135596800000

  const NEWCOMER := PlayerStat(0, "", NEVER, 0, 0, Plumage(0, 0))

  function StatOf(players: Players, name: string): PlayerStat {
    if name in players then players[name] else NEWCOMER
  }

  function Fold(ps: PlayerStat, e: RaceEntry, theme: nat, at: int): PlayerStat {
    var won := if e.rank == 1 then 1 else 0;
    var raced := ps.(bird := e.bird, races := ps.races + 1, wins := ps.wins + won);
    if e.score > ps.best then raced.(best := e.score, bestTheme := ThemeName(theme), bestAt := at) else raced
  }

  function Record(players: Players, entries: seq<RaceEntry>, theme: nat, at: int): Players {
    if entries == [] then players
    else
      var before := Record(players, entries[..|entries| - 1], theme, at);
      var e := entries[|entries| - 1];
      before[e.name := Fold(StatOf(before, e.name), e, theme, at)]
  }

  function Remember(players: Players, name: string, bird: Plumage): Players {
    players[name := StatOf(players, name).(bird := bird)]
  }

  // ----- what recording a race does to the statistics -----

  ghost predicate DistinctNames(entries: seq<RaceEntry>) {
    forall i, j :: 0 <= i < j < |entries| ==> entries[i].name != entries[j].name
  }

  lemma {:induction false} RecordSkips(players: Players, entries: seq<RaceEntry>, theme: nat, at: int, name: string)
    requires forall i :: 0 <= i < |entries| ==> entries[i].name != name
    ensures StatOf(Record(players, entries, theme, at), name) == StatOf(players, name)
  {
    if entries != [] {
      RecordSkips(players, entries[..|entries| - 1], theme, at, name);
    }
  }

  lemma {:induction false} RecordFolds(players: Players, entries: seq<RaceEntry>, theme: nat, at: int, i: nat)
    requires DistinctNames(entries) && i < |entries|
    ensures var e := entries[i];
            StatOf(Record(players, entries, theme, at), e.name) == Fold(StatOf(players, e.name), e, theme, at)
  {
    hide Fold;
    var m := |entries| - 1;
    if i < m {
      RecordFolds(players, entries[..m], theme, at, i);
    } else {
      RecordSkips(players, entries[..m], theme, at, entries[m].name);
    }
  }

  /** Every racer is folded in once, from the statistics before the race, and nobody else changes. */
  lemma RecordIsPerRacer(players: Players, entries: seq<RaceEntry>, theme: nat, at: int, name: string)
    requires DistinctNames(entries)
    ensures (forall e :: e in entries ==> e.name != name) ==>
              StatOf(Record(players, entries, theme, at), name) == StatOf(players, name)
    ensures forall e :: e in entries && e.name == name ==>
              StatOf(Record(players, entries, theme, at), name) == Fold(StatOf(players, name), e, theme, at)
  {
    hide Fold, Record, StatOf;
    if forall e :: e in entries ==> e.name != name {
      RecordSkips(players, entries, theme, at, name);
    }
    forall e | e in entries && e.name == name
      ensures StatOf(Record(players, entries, theme, at), name) == Fold(StatOf(players, name), e, theme, at)
    {
      var i :| 0 <= i < |entries| && entries[i] == e;
      RecordFolds(players, entries, theme, at, i);
    }
  }

  /** A race adds its racers to the known players and forgets nobody. */
  lemma {:induction false} RecordNames(players: Players, entries: seq<RaceEntry>, theme: nat, at: int, name: string)
    ensures name in Record(players, entries, theme, at) <==> name in players || exists e :: e in entries && e.name == name
  {
    if entries != [] {
      var m := |entries| - 1;
      RecordNames(players, entries[..m], theme, at, name);
      assert entries == entries[..m] + [entries[m]];
    }
  }

  lemma {:induction false} BestIsMonotone(players: Players, entries: seq<RaceEntry>, theme: nat, at: int, name: string)
    ensures StatOf(Record(players, entries, theme, at), name).best >= StatOf(players, name).best
    ensures forall e :: e in entries ==> StatOf(Record(players, entries, theme, at), e.name).best >= e.score
  {
    if entries != [] {
      var m := |entries| - 1;
      var before := Record(players, entries[..m], theme, at);
      BestIsMonotone(players, entries[..m], theme, at, name);
      assert entries == entries[..m] + [entries[m]];
      forall e | e in entries
        ensures StatOf(Record(players, entries, theme, at), e.name).best >= e.score
      {
        if e in entries[..m] {
          assert StatOf(before, e.name).best >= e.score;
        }
      }
    }
  }

  // ----- conservation of wins -----

  ghost function TotalWins(players: Players): int {
    if players == map[] then 0
    else
      var name :| name in players;
      players[name].wins + TotalWins(players - {name})
  }

  /** The total does not depend on the order of summation. */
  lemma {:induction false} TotalWinsSplit(players: Players, name: string)
    requires name in players
    ensures TotalWins(players) == players[name].wins + TotalWins(players - {name})
    decreases |players|
  {
    var first :| first in players && TotalWins(players) == players[first].wins + TotalWins(players - {first});
    if first != name {
      var rest := players - {first};
      assert |rest.Keys| < |players.Keys|;
      TotalWinsSplit(rest, name);
      assert rest - {name} == players - {name} - {first};
      assert |(players - {name}).Keys| < |players.Keys|;
      TotalWinsSplit(players - {name}, first);
    }
  }

  lemma TotalWinsUpdate(players: Players, name: string, ps: PlayerStat)
    ensures TotalWins(players[name := ps]) == TotalWins(players) - StatOf(players, name).wins + ps.wins
  {
    var updated := players[name := ps];
    TotalWinsSplit(updated, name);
    assert updated - {name} == players - {name};
    if name in players {
      TotalWinsSplit(players, name);
    } else {
      assert players - {name} == players;
    }
  }

  function Winners(entries: seq<RaceEntry>): nat {
    if entries == [] then 0
    else Winners(entries[..|entries| - 1]) + if entries[|entries| - 1].rank == 1 then 1 else 0
  }

  lemma {:induction false} RecordAddsWins(players: Players, entries: seq<RaceEntry>, theme: nat, at: int)
    ensures TotalWins(Record(players, entries, theme, at)) == TotalWins(players) + Winners(entries)
  {
    if entries != [] {
      var m := |entries| - 1;
      var before, e := Record(players, entries[..m], theme, at), entries[m];
      RecordAddsWins(players, entries[..m], theme, at);
      TotalWinsUpdate(before, e.name, Fold(StatOf(before, e.name), e, theme, at));
    }
  }

  lemma {:induction false} OneWinner(entries: seq<RaceEntry>)
    requires entries != [] && forall i :: 0 <= i < |entries| ==> entries[i].rank == i + 1
    ensures Winners(entries) == 1
  {
    if |entries| > 1 {
      OneWinner(entries[..|entries| - 1]);
    } else {
      assert entries[..0] == [];
    }
  }

  lemma RememberKeepsWins(players: Players, name: string, bird: Plumage)
    ensures TotalWins(Remember(players, name, bird)) == TotalWins(players)
  {
    TotalWinsUpdate(players, name, StatOf(players, name).(bird := bird));
  }

  // ----- the all-time list -----

  predicate NameLess(a: string, b: string) {
    if b == "" then false
    else if a == "" then true
    else if a[0] != b[0] then a[0] < b[0]
    else NameLess(a[1..], b[1..])
  }

  lemma {:induction false} NameOrder(a: string, b: string, c: string)
    ensures !NameLess(a, a)
    ensures NameLess(a, b) && NameLess(b, c) ==> NameLess(a, c)
    ensures NameLess(a, b) || NameLess(b, a) || a == b
  {
    if a != "" {
      NameOrder(a[1..], if b == "" then b else b[1..], if c == "" then c else c[1..]);
      if b != "" && a[1..] == b[1..] && a[0] == b[0] {
        assert a == [a[0]] + a[1..] && b == [b[0]] + b[1..];
      }
    }
  }

  /** Higher score first, then the name in order. */
  predicate Better(a: TopEntry, b: TopEntry) {
    if a.score != b.score then a.score > b.score else NameLess(a.name, b.name)
  }

  lemma BetterIsStrictOrder()
    ensures StrictOrder(Better)
  {
    forall a
      ensures !Better(a, a)
    {
      NameOrder(a.name, a.name, a.name);
    }
    forall a, b, c | Better(a, b) && Better(b, c)
      ensures Better(a, c)
    {
      NameOrder(a.name, b.name, c.name);
    }
  }

  function EntryFor(name: string, ps: PlayerStat): TopEntry {
    TopEntry(name, ps.best, ps.bestTheme, ps.bestAt)
  }

  predicate Listed(top: seq<TopEntry>, name: string) {
    exists i :: 0 <= i < |top| && top[i].name == name
  }

  /** `top` is the list of the at most fifty best scorers: it is in order, it shows what the
      statistics hold, and whoever is missing ranks below everybody on a full list. */
  ghost predicate IsTop(top: seq<TopEntry>, players: Players) {
    && |top| <= MAX_TOP_ENTRIES
    && Sorted(Better, top)
    && (forall i :: 0 <= i < |top| ==>
          top[i].name in players && players[top[i].name].best > 0 && top[i] == EntryFor(top[i].name, players[top[i].name]))
    && (forall name :: name in players && players[name].best > 0 && !Listed(top, name) ==>
          && |top| == MAX_TOP_ENTRIES
          && forall i :: 0 <= i < |top| ==> Better(top[i], EntryFor(name, players[name])))
  }

  /** Where two lists have agreed so far, neither goes on with a worse entry. */
  lemma NoWorse(s: seq<TopEntry>, t: seq<TopEntry>, players: Players, i: nat)
    requires IsTop(s, players) && IsTop(t, players) && i < |s| && i < |t| && s[..i] == t[..i]
    ensures t[i] == s[i] || Better(t[i], s[i])
  {
    hide Better, EntryFor;
    BetterIsStrictOrder();
    forall j | 0 <= j < i
      ensures t[j] == s[j] && Better(t[j], s[i])
    {
      assert t[j] == t[..i][j] == s[..i][j] == s[j];
    }
    if Listed(t, s[i].name) {
      var j :| 0 <= j < |t| && t[j].name == s[i].name;
      assert t[j] == s[i];
    } else {
      assert s[i] == EntryFor(s[i].name, players[s[i].name]);
    }
  }

  lemma {:induction false} TopPrefixesAgree(s: seq<TopEntry>, t: seq<TopEntry>, players: Players, n: nat)
    requires IsTop(s, players) && IsTop(t, players) && n <= |s| && n <= |t|
    ensures s[..n] == t[..n]
  {
    if n > 0 {
      var i := n - 1;
      TopPrefixesAgree(s, t, players, i);
      NoWorse(s, t, players, i);
      NoWorse(t, s, players, i);
      BetterIsStrictOrder();
      assert s[..n] == s[..i] + [s[i]] && t[..n] == t[..i] + [t[i]];
    }
  }

  lemma NextNotListed(s: seq<TopEntry>, t: seq<TopEntry>, players: Players)
    requires IsTop(s, players) && IsTop(t, players) && |t| < |s| && s[..|t|] == t
    ensures !Listed(t, s[|t|].name)
  {
    var next := s[|t|];
    forall j | 0 <= j < |t|
      ensures t[j].name != next.name
    {
      assert t[j] == s[..|t|][j] == s[j];
      assert Better(s[j], next);
      NameOrder(next.name, next.name, next.name);
    }
  }

  lemma NoLonger(s: seq<TopEntry>, t: seq<TopEntry>, players: Players)
    requires IsTop(s, players) && IsTop(t, players)
    requires |t| <= |s| ==> s[..|t|] == t
    ensures |s| <= |t|
  {
    if |t| < |s| {
      NextNotListed(s, t, players);
    }
  }

  /** There is only one such list, whatever order the statistics were visited in. */
  lemma TopIsDetermined(s: seq<TopEntry>, t: seq<TopEntry>, players: Players)
    requires IsTop(s, players) && IsTop(t, players)
    ensures s == t
  {
    var n := if |s| <= |t| then |s| else |t|;
    TopPrefixesAgree(s, t, players, n);
    NoLonger(s, t, players);
    NoLonger(t, s, players);
    assert s == s[..n] && t == t[..n];
  }

  lemma RememberKeepsTop(top: seq<TopEntry>, players: Players, name: string, bird: Plumage)
    requires IsTop(top, players)
    ensures IsTop(top, Remember(players, name, bird))
  {
  }
}
