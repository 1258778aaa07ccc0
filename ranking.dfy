/**
 * The leaderboard ranker: scan the team collection in its natural
 * (insertion) order through an exact-match filter, sort stably by
 * (points, wins) from highest to lowest, keep the first `limit` teams and
 * project each to a public entry.
 */
module Ranking {
  import opened Wrappers
  import opened Schemas

  /** Local boards are restricted to one country; global boards are not. */
  datatype Scope = Local | Global

  /** A stored team together with its identifier, as a collection scan yields it. */
  datatype Row = Row(id: Id, team: Team)

  /** The public projection of a team on the leaderboard. */
  datatype Entry = Entry(id: Id, name: string, game: string, country: string, stats: Stats)

  /** An exact-match conjunction over a team's game and country; `None` matches anything. */
  datatype Filter = Filter(game: Option<string>, country: Option<string>)

  predicate Admits(f: Filter, t: Team) {
    && (f.game.Some? ==> t.game == f.game.value)
    && (f.country.Some? ==> t.country == f.country.value)
  }

  /** Whether an optional query parameter is present in the truthy sense: given and non-empty. */
  predicate Given(p: Option<string>) {
    p.Some? && p.value != ""
  }

  /**
   * The filter a leaderboard query scans with: the game when given, and the
   * country only for a local board (a global board ignores the country).
   */
  function BoardFilter(scope: Scope, game: Option<string>, country: Option<string>): (f: Filter)
    ensures forall t :: Admits(f, t) <==>
      && (Given(game) ==> t.game == game.value)
      && (scope == Local && country.Some? ==> t.country == country.value)
  {
    Filter(if Given(game) then game else None, if scope == Local then country else None)
  }

  function EntryOf(r: Row): Entry {
    Entry(r.id, r.team.name, r.team.game, r.team.country, r.team.stats)
  }

  // ---------------------------------------------------------------------------
  // The natural-order scan of the collection
  // ---------------------------------------------------------------------------

  predicate IdsAscending(rows: seq<Row>) {
    forall i, j :: 0 <= i < j < |rows| ==> rows[i].id < rows[j].id
  }

  /**
   * The teams with identifiers in [lo, hi) that the filter admits, in
   * ascending identifier order (the order in which they were inserted).
   */
  function Scan(teams: map<Id, Team>, f: Filter, lo: nat, hi: nat): (rows: seq<Row>)
    decreases hi - lo
    ensures forall i :: 0 <= i < |rows| ==>
      && lo <= rows[i].id < hi && rows[i].id in teams
      && rows[i].team == teams[rows[i].id] && Admits(f, rows[i].team)
    ensures IdsAscending(rows)
  {
    if lo >= hi then []
    else
      var head := if lo in teams && Admits(f, teams[lo]) then [Row(lo, teams[lo])] else [];
      head + Scan(teams, f, lo + 1, hi)
  }

  /** The identifiers of the stored teams in [lo, hi) that the filter admits. */
  ghost function Admitted(teams: map<Id, Team>, f: Filter, lo: nat, hi: nat): set<Id> {
    set id | id in teams && lo <= id < hi && Admits(f, teams[id])
  }

  /** The scan misses no admitted team in its range. */
  lemma {:induction false} ScanComplete(teams: map<Id, Team>, f: Filter, lo: nat, hi: nat)
    decreases hi - lo
    ensures forall id :: id in teams && lo <= id < hi && Admits(f, teams[id]) ==>
      Row(id, teams[id]) in Scan(teams, f, lo, hi)
  {
    if lo < hi {
      ScanComplete(teams, f, lo + 1, hi);
    }
  }

  /** The scan yields as many rows as there are admitted teams in its range. */
  lemma {:induction false} ScanCount(teams: map<Id, Team>, f: Filter, lo: nat, hi: nat)
    decreases hi - lo
    ensures |Scan(teams, f, lo, hi)| == |Admitted(teams, f, lo, hi)|
  {
    if lo < hi {
      ScanCount(teams, f, lo + 1, hi);
      var rest := Admitted(teams, f, lo + 1, hi);
      if lo in teams && Admits(f, teams[lo]) {
        assert Admitted(teams, f, lo, hi) == {lo} + rest;
      } else {
        assert Admitted(teams, f, lo, hi) == rest;
      }
    } else {
      assert Admitted(teams, f, lo, hi) == {};
    }
  }

  // ---------------------------------------------------------------------------
  // The stable sort by (points, wins), highest first
  // ---------------------------------------------------------------------------

  /** The sort key of a team, compared lexicographically: points first, then wins. */
  predicate KeyAbove(a: Stats, b: Stats) {
    || Stat(a, Points) > Stat(b, Points)
    || (Stat(a, Points) == Stat(b, Points) && Stat(a, Wins) > Stat(b, Wins))
  }

  /**
   * The leaderboard order: a higher key ranks first, and of two teams with
   * equal keys the one earlier in the collection (the smaller identifier)
   * ranks first. This is what a stable sort of the natural-order scan yields.
   */
  predicate Outranks(a: Entry, b: Entry) {
    || KeyAbove(a.stats, b.stats)
    || (Stat(a.stats, Points) == Stat(b.stats, Points)
        && Stat(a.stats, Wins) == Stat(b.stats, Wins) && a.id < b.id)
  }

  /** The key order is a strict weak order: irreflexive, asymmetric and transitive; keys that it leaves apart are equal. */
  lemma KeyAboveOrder(a: Stats, b: Stats, c: Stats)
    ensures !KeyAbove(a, a)
    ensures KeyAbove(a, b) ==> !KeyAbove(b, a)
    ensures KeyAbove(a, b) && KeyAbove(b, c) ==> KeyAbove(a, c)
    ensures !KeyAbove(a, b) && !KeyAbove(b, a) <==>
      Stat(a, Points) == Stat(b, Points) && Stat(a, Wins) == Stat(b, Wins)
  {
  }

  /**
   * The leaderboard order is a strict total order on entries with distinct
   * identifiers: irreflexive, asymmetric, transitive, and any two such
   * entries are comparable, so the ranking it imposes is unique.
   */
  lemma OutranksOrder(a: Entry, b: Entry, c: Entry)
    ensures !Outranks(a, a)
    ensures Outranks(a, b) ==> !Outranks(b, a)
    ensures Outranks(a, b) && Outranks(b, c) ==> Outranks(a, c)
    ensures a.id != b.id ==> Outranks(a, b) || Outranks(b, a)
    ensures KeyAbove(a.stats, b.stats) ==> Outranks(a, b)
    ensures !KeyAbove(a.stats, b.stats) && !KeyAbove(b.stats, a.stats) ==> (Outranks(a, b) <==> a.id < b.id)
  {
  }

  predicate Ranked(rows: seq<Row>) {
    forall i, j :: 0 <= i < j < |rows| ==> Outranks(EntryOf(rows[i]), EntryOf(rows[j]))
  }

  /** `x` placed after every row whose key is strictly above its own, and before the rest. */
  function Insert(x: Row, rows: seq<Row>): (r: seq<Row>)
    ensures multiset(r) == multiset(rows) + multiset{x}
  {
    if rows == [] then [x]
    else if KeyAbove(rows[0].team.stats, x.team.stats) then
      assert rows == [rows[0]] + rows[1..];
      [rows[0]] + Insert(x, rows[1..])
    else [x] + rows
  }

  /**
   * The rows sorted by key from highest to lowest, keeping the input order
   * among equal keys: each row is inserted ahead of the equal-key rows that
   * followed it in the input.
   */
  function RankSort(rows: seq<Row>): (r: seq<Row>)
    ensures multiset(r) == multiset(rows)
  {
    if rows == [] then []
    else
      assert rows == [rows[0]] + rows[1..];
      Insert(rows[0], RankSort(rows[1..]))
  }

  /** Inserting a row whose identifier precedes all others keeps a ranked sequence ranked. */
  lemma {:induction false} InsertRanked(x: Row, rows: seq<Row>)
    requires Ranked(rows)
    requires forall y :: y in rows ==> x.id < y.id
    ensures Ranked(Insert(x, rows))
  {
    if rows != [] && KeyAbove(rows[0].team.stats, x.team.stats) {
      var tail := Insert(x, rows[1..]);
      InsertRanked(x, rows[1..]);
      assert multiset(tail) == multiset(rows[1..]) + multiset{x};
      forall j | 0 <= j < |tail|
        ensures Outranks(EntryOf(rows[0]), EntryOf(tail[j]))
      {
        assert tail[j] in multiset(tail);
        if tail[j] != x {
          assert tail[j] in rows[1..];
          var k :| 0 <= k < |rows[1..]| && rows[1..][k] == tail[j];
          assert rows[k + 1] == tail[j];
        }
      }
      var r := Insert(x, rows);
      assert r == [rows[0]] + tail;
      forall i, j | 0 <= i < j < |r| ensures Outranks(EntryOf(r[i]), EntryOf(r[j])) {
        if i == 0 {
          assert r[j] == tail[j - 1];
        } else {
          assert r[i] == tail[i - 1] && r[j] == tail[j - 1];
        }
      }
    } else if rows != [] {
      var r := Insert(x, rows);
      assert r == [x] + rows;
      forall i, j | 0 <= i < j < |r| ensures Outranks(EntryOf(r[i]), EntryOf(r[j])) {
        if i == 0 {
          assert r[j] == rows[j - 1];
          assert rows[j - 1] in rows;
          if j - 1 > 0 {
            assert Outranks(EntryOf(rows[0]), EntryOf(rows[j - 1]));
          }
        } else {
          assert r[i] == rows[i - 1] && r[j] == rows[j - 1];
        }
      }
    }
  }

  /** Sorting a natural-order scan yields the leaderboard order. */
  lemma {:induction false} RankSortRanked(rows: seq<Row>)
    requires IdsAscending(rows)
    ensures Ranked(RankSort(rows))
  {
    if rows != [] {
      var rest := RankSort(rows[1..]);
      RankSortRanked(rows[1..]);
      forall y | y in rest ensures rows[0].id < y.id {
        assert y in multiset(rest);
        assert y in rows[1..];
        var k :| 0 <= k < |rows[1..]| && rows[1..][k] == y;
        assert rows[k + 1] == y;
      }
      InsertRanked(rows[0], rest);
    }
  }

  // ---------------------------------------------------------------------------
  // What a leaderboard is
  // ---------------------------------------------------------------------------

  /** Whether the team `id` is listed on the board. */
  predicate Shows(board: seq<Entry>, id: Id) {
    exists i :: 0 <= i < |board| && board[i].id == id
  }

  function Min(a: nat, b: nat): nat {
    if a <= b then a else b
  }

  /**
   * `board` is a leaderboard of `teams` through filter `f`, cut at `limit`:
   * it lists exactly min(limit, number of admitted teams) admitted teams,
   * each as its current projection, in leaderboard order; and every
   * admitted team left off is outranked by every team on the board.
   */
  ghost predicate IsLeaderboard(board: seq<Entry>, teams: map<Id, Team>, f: Filter, limit: nat) {
    && |board| == Min(limit, |set id | id in teams && Admits(f, teams[id])|)
    && (forall i :: 0 <= i < |board| ==>
          board[i].id in teams && Admits(f, teams[board[i].id])
          && board[i] == EntryOf(Row(board[i].id, teams[board[i].id])))
    && (forall i, j :: 0 <= i < j < |board| ==> Outranks(board[i], board[j]))
    && (forall id :: id in teams && Admits(f, teams[id]) && !Shows(board, id) ==>
          forall i :: 0 <= i < |board| ==> Outranks(board[i], EntryOf(Row(id, teams[id]))))
  }

  /** The public projection of the first `limit` rows, as the response lists them. */
  function Cut(rows: seq<Row>, limit: nat): (board: seq<Entry>)
    ensures |board| == Min(limit, |rows|)
    ensures forall i :: 0 <= i < |board| ==> board[i] == EntryOf(rows[i])
  {
    var k := Min(limit, |rows|);
    seq(k, i requires 0 <= i < k => EntryOf(rows[i]))
  }

  /** Every entry on the cut of a sorted scan is an admitted team's current projection. */
  lemma CutMembers(teams: map<Id, Team>, f: Filter, n: nat, limit: nat)
    ensures var board := Cut(RankSort(Scan(teams, f, 0, n)), limit);
      forall i :: 0 <= i < |board| ==>
        board[i].id in teams && Admits(f, teams[board[i].id])
        && board[i] == EntryOf(Row(board[i].id, teams[board[i].id]))
  {
    var rows := Scan(teams, f, 0, n);
    var sorted := RankSort(rows);
    var board := Cut(sorted, limit);
    forall i | 0 <= i < |board|
      ensures board[i].id in teams && Admits(f, teams[board[i].id])
      ensures board[i] == EntryOf(Row(board[i].id, teams[board[i].id]))
    {
      assert sorted[i] in multiset(rows);
      assert sorted[i] in rows;
    }
  }

  /** The cut of a sorted scan is as long as the limit allows. */
  lemma CutLength(teams: map<Id, Team>, f: Filter, n: nat, limit: nat)
    requires forall id :: id in teams ==> id < n
    ensures |Cut(RankSort(Scan(teams, f, 0, n)), limit)| == Min(limit, |set id | id in teams && Admits(f, teams[id])|)
  {
    var rows := Scan(teams, f, 0, n);
    ScanCount(teams, f, 0, n);
    assert Admitted(teams, f, 0, n) == set id | id in teams && Admits(f, teams[id]);
    assert |RankSort(rows)| == |rows| by {
      assert |multiset(RankSort(rows))| == |multiset(rows)|;
    }
  }

  /** Every admitted team left off the cut of a sorted scan is outranked by every entry on it. */
  lemma CutTopK(teams: map<Id, Team>, f: Filter, n: nat, limit: nat)
    requires forall id :: id in teams ==> id < n
    ensures var board := Cut(RankSort(Scan(teams, f, 0, n)), limit);
      forall id :: id in teams && Admits(f, teams[id]) && !Shows(board, id) ==>
        forall i :: 0 <= i < |board| ==> Outranks(board[i], EntryOf(Row(id, teams[id])))
  {
    var rows := Scan(teams, f, 0, n);
    var sorted := RankSort(rows);
    var board := Cut(sorted, limit);
    ScanComplete(teams, f, 0, n);
    RankSortRanked(rows);
    forall j | 0 <= j < |board| ensures Shows(board, sorted[j].id) {
      assert board[j].id == sorted[j].id;
    }
    forall id | id in teams && Admits(f, teams[id]) && !Shows(board, id)
      ensures forall i :: 0 <= i < |board| ==> Outranks(board[i], EntryOf(Row(id, teams[id])))
    {
      var row := Row(id, teams[id]);
      assert row in rows;
      assert row in multiset(sorted);
      var j :| 0 <= j < |sorted| && sorted[j] == row;
      assert |board| <= j;
      forall i | 0 <= i < |board| ensures Outranks(board[i], EntryOf(row)) {
        assert board[i] == EntryOf(sorted[i]) && Outranks(EntryOf(sorted[i]), EntryOf(sorted[j]));
      }
    }
  }

  /** Cutting the sorted natural-order scan of the whole collection at `limit` yields a leaderboard. */
  lemma LeaderboardCorrect(teams: map<Id, Team>, f: Filter, n: nat, limit: nat)
    requires forall id :: id in teams ==> id < n
    ensures IsLeaderboard(Cut(RankSort(Scan(teams, f, 0, n)), limit), teams, f, limit)
  {
    var rows := Scan(teams, f, 0, n);
    RankSortRanked(rows);
    CutMembers(teams, f, n, limit);
    CutLength(teams, f, n, limit);
    CutTopK(teams, f, n, limit);
  }
}
