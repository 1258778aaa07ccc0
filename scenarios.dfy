/**
 * Client runs of the store that replay the documented example scenarios;
 * each one verifies from the handlers' contracts alone.
 */
module Scenarios {
  import opened Wrappers
  import opened Schemas
  import opened Ranking
  import opened Platform

  /** Two registered "valkyrie" teams from "US", and the store holding them. */
  method TwoTeams() returns (store: Store, t1: Id, t2: Id)
    ensures fresh(store) && store.Valid() && t1 != t2 && t1 in store.teams && t2 in store.teams
    ensures store.teams[t1].country == "US" && store.teams[t2].country == "US"
    ensures store.teams[t1].game == "valkyrie" && store.teams[t2].game == "valkyrie"
    ensures store.teams[t1].stats == DefaultStats() && store.teams[t2].stats == DefaultStats()
    ensures store.challenges == map[]
  {
    store := new Store();
    t1 := store.CreateTeam(NewTeam("Alpha", "valkyrie", "US", "u1"));
    t2 := store.CreateTeam(NewTeam("Beta", "valkyrie", "US", "u2"));
  }

  /** Propose, approve from both sides, then renegotiate. */
  method ApproveThenNegotiate() {
    var store, t1, t2 := TwoTeams();
    var p := store.ProposeChallenge(ProposeRequest(t1, t2, "valkyrie", "US", None, BO3, None, None));
    assert p.Ok?;
    var cid := p.value;
    var a := store.ApproveChallenge(cid, Challenger);
    assert a.Ok? && a.value.status == Proposed;
    a := store.ApproveChallenge(cid, Opponent);
    assert a.Ok? && a.value.status == Approved;
    var n := store.NegotiateChallenge(cid, NegotiateRequest(Some("2025-06-01T18:00:00"), None, None, None));
    assert n.Ok? && n.value.status == Negotiating && n.value.approvals == NoApprovals;
    assert n.value.proposedDatetime == Some("2025-06-01T18:00:00") && n.value.format == BO3;
  }

  /** A team from another country cannot be challenged. */
  method ProposeAcrossCountries() {
    var store := new Store();
    var t1 := store.CreateTeam(NewTeam("Alpha", "valkyrie", "US", "u1"));
    var t2 := store.CreateTeam(NewTeam("Gamma", "valkyrie", "CA", "u3"));
    var p := store.ProposeChallenge(ProposeRequest(t1, t2, "valkyrie", "US", None, BO3, None, None));
    assert p == Err(ConstraintViolation(SameCountry));
  }

  /** Book, then cancel the booking: the challenge returns to approved. */
  method BookThenCancel() {
    var store, t1, t2 := TwoTeams();
    var p := store.ProposeChallenge(ProposeRequest(t1, t2, "valkyrie", "US", None, BO3, None, None));
    var cid := p.value;
    var b := store.CreateBooking(cid, BookingRequest("v1", "2025-06-01T18:00:00", None));
    assert b.Ok? && store.challenges[cid].status == Booked;
    var again := store.CreateBooking(cid, BookingRequest("v2", "2025-06-02T18:00:00", None));
    assert again == Err(ConstraintViolation(BookableStatus));
    var c := store.ConfirmBooking(b.value, false);
    assert c.Ok? && c.value.status == BookingStatus.Cancelled;
    assert store.challenges[cid].status == Approved;
  }

  /** A 3-1 result: the winner gains a win and 3 points, the loser a loss and none. */
  method RecordDecisive() {
    var store, t1, t2 := TwoTeams();
    var p := store.ProposeChallenge(ProposeRequest(t1, t2, "valkyrie", "US", None, BO3, Some("v1"), None));
    var cid := p.value;
    ghost var before := store.teams;
    var m := store.RecordMatchResult(RecordRequest(cid, t1, 3, 1));
    assert m.Ok? && store.challenges[cid].status == ChallengeStatus.Completed;
    FirstDecisive(before, t1, t2);
    var s1, s2 := store.teams[t1].stats, store.teams[t2].stats;
    assert Stat(s1, Wins) == 1 && Stat(s1, Points) == 3 && Stat(s1, Matches) == 1;
    assert Stat(s2, Losses) == 1 && Stat(s2, Points) == 0 && Stat(s2, Matches) == 1;
  }

  /** A 3-1 win of `a` over `b`, both with fresh statistics. */
  lemma FirstDecisive(teams: map<Id, Team>, a: Id, b: Id)
    requires a != b && a in teams && b in teams
    requires teams[a].stats == DefaultStats() && teams[b].stats == DefaultStats()
    ensures var r := Settlement.Settle(teams, a, b, a, 3, 1);
      && Stat(r[a].stats, Wins) == 1 && Stat(r[a].stats, Points) == 3 && Stat(r[a].stats, Matches) == 1
      && Stat(r[b].stats, Losses) == 1 && Stat(r[b].stats, Points) == 0 && Stat(r[b].stats, Matches) == 1
  {
    Settlement.SettleDecisive(teams, a, b, a, 3, 1);
  }

  /** Recording a completed challenge again succeeds and credits both teams a second time. */
  method RecordAgain(store: Store, cid: Id)
    requires store.Valid() && cid in store.challenges
    requires store.challenges[cid].status == ChallengeStatus.Completed
    requires store.challenges[cid].venueId.Some?
    requires store.challenges[cid].challengerTeamId != store.challenges[cid].opponentTeamId
    modifies store
  {
    var ch := store.challenges[cid];
    ghost var before := store.teams;
    var m := store.RecordMatchResult(RecordRequest(cid, ch.challengerTeamId, 2, 2));
    assert m.Ok?;
    Settlement.SettleDraw(before, ch.challengerTeamId, ch.opponentTeamId, ch.challengerTeamId, 2);
    assert Stat(store.teams[ch.opponentTeamId].stats, Matches) == Stat(before[ch.opponentTeamId].stats, Matches) + 1;
  }

  /** A challenge proposed without a venue and never booked cannot be recorded. */
  method RecordWithoutVenue() {
    var store, t1, t2 := TwoTeams();
    var p := store.ProposeChallenge(ProposeRequest(t1, t2, "valkyrie", "US", None, BO3, None, None));
    var m := store.RecordMatchResult(RecordRequest(p.value, t1, 3, 1));
    assert m == Err(ValidationError);
  }

  /** A team of "valkyrie" from "US" whose statistics record the given points and wins. */
  function Ranked3(name: string, points: int, wins: int): Team {
    NewTeam(name, "valkyrie", "US", "").(stats := map[Points := points, Wins := wins])
  }

  /**
   * On teams scoring 10/3, 7/9 and 10/5 (points/wins), registered in that
   * order, the only board of two is the 10/5 team followed by the 10/3 team.
   */
  lemma BoardOfTwo(board: seq<Entry>, teams: map<Id, Team>, a: Id, b: Id, c: Id)
    requires a != b && b != c && a != c
    requires teams == map[a := Ranked3("A", 10, 3), b := Ranked3("B", 7, 9), c := Ranked3("C", 10, 5)]
    requires IsLeaderboard(board, teams, Filter(None, None), 2)
    ensures |board| == 2 && board[0].id == c && board[1].id == a
  {
    var f := Filter(None, None);
    assert (set id | id in teams && Admits(f, teams[id])) == {a, b, c};
    assert |{a, b, c}| == 3;
    assert |board| == 2;
    assert board[0].id in {a, b, c} && board[1].id in {a, b, c};
    assert Shows(board, c);
    assert Shows(board, a);
  }

  /** Points decide first and wins break ties: 10/5 and 10/3 lead 7/9 on a board of two. */
  method LeaderboardOfTwo() {
    var store := new Store();
    var a := store.CreateTeam(Ranked3("A", 10, 3));
    var b := store.CreateTeam(Ranked3("B", 7, 9));
    var c := store.CreateTeam(Ranked3("C", 10, 5));
    var r := store.Leaderboard(Global, None, None, 2);
    assert r.Ok?;
    BoardOfTwo(r.value, store.teams, a, b, c);
    assert [r.value[0].name, r.value[1].name] == ["C", "A"];
  }
}
