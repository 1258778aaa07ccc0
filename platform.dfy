/**
 * The request handlers of the platform over an in-memory document store:
 * team registration, the challenge negotiation state machine, the booking
 * flow, result recording with stats settlement, and the leaderboard.
 */
module Platform {
  import opened Wrappers
  import opened Schemas
  import opened Settlement
  import opened Ranking

  /** The domain rule a ConstraintViolation names. */
  datatype Rule =
    | SameCountry          // both teams and the request agree on the country
    | SameGame             // both teams and the request agree on the game
    | BookableStatus       // only proposed, negotiating or approved challenges can be booked
    | WinnerIsParticipant  // the winner is one of the challenge's two teams
    | CountryForLocal      // a local leaderboard needs a country

  /** The error kinds a handler raises. */
  datatype Error =
    | NotFound                        // the challenge or booking id is not stored (404)
    | InvalidReference                // a team a challenge names is not stored (400)
    | ConstraintViolation(rule: Rule) // a domain rule is violated (400)
    | ValidationError                 // the match record to be stored fails its schema

  /** The side of a challenge giving its consent. */
  datatype Role = Challenger | Opponent

  datatype ProposeRequest = ProposeRequest(
    challengerTeamId: Id,
    opponentTeamId: Id,
    game: string,
    country: string,
    proposedDatetime: Option<DateTime>,
    format: MatchFormat,
    venueId: Option<VenueId>,
    notes: Option<string>)

  /** The negotiable fields; `None` means the field is not part of the request. */
  datatype NegotiateRequest = NegotiateRequest(
    proposedDatetime: Option<DateTime>,
    format: Option<MatchFormat>,
    venueId: Option<VenueId>,
    notes: Option<string>)

  datatype BookingRequest = BookingRequest(venueId: VenueId, startDatetime: DateTime, endDatetime: Option<DateTime>)

  datatype RecordRequest = RecordRequest(challengeId: Id, winnerTeamId: Id, scoreA: int, scoreB: int)

  /** The challenge states from which a booking may be made. */
  predicate Bookable(s: ChallengeStatus): (r: bool)
    ensures r <==> !(s == Booked || s == ChallengeStatus.Completed || s == Rejected || s == ChallengeStatus.Cancelled)
  {
    s == Approved || s == Negotiating || s == Proposed
  }

  /** The status a challenge ends in after an approval: approved once both sides have consented. */
  function StatusAfterApproval(a: Approvals, prior: ChallengeStatus): (s: ChallengeStatus)
    ensures s == Approved <==> (a.challenger && a.opponent) || prior == Approved
    ensures s != Approved ==> s == prior
  {
    if a.challenger && a.opponent then Approved else prior
  }

  /**
   * The document store: one map per collection, and the source of fresh
   * identifiers. Documents are never deleted.
   */
  class Store {
    var teams: map<Id, Team>
    var challenges: map<Id, Challenge>
    var bookings: map<Id, Booking>
    var matches: map<Id, Match>
    /** Every identifier handed out so far is below `nextId`. */
    var nextId: Id

    /**
     * Identifiers are below `nextId`, references between documents resolve,
     * and each team with a captain lists the captain among its members.
     */
    ghost predicate Valid()
      reads this
    {
      && (forall id :: id in teams ==> id < nextId)
      && (forall id :: id in challenges ==> id < nextId)
      && (forall id :: id in bookings ==> id < nextId)
      && (forall id :: id in matches ==> id < nextId)
      && (forall id :: id in challenges ==>
            challenges[id].challengerTeamId in teams && challenges[id].opponentTeamId in teams)
      && (forall id :: id in bookings ==> bookings[id].challengeId in challenges)
      && (forall id :: id in matches ==> matches[id].challengeId in challenges)
      && (forall id :: id in teams && teams[id].captainUserId != "" ==>
            teams[id].captainUserId in teams[id].memberUserIds)
    }

    /** Every stored team's statistics satisfy the statistics invariant. */
    ghost predicate StatsSound()
      reads this
    {
      AllConsistent(teams)
    }

    constructor ()
      ensures Valid() && StatsSound()
      ensures teams == map[] && challenges == map[] && bookings == map[] && matches == map[]
    {
      teams, challenges, bookings, matches := map[], map[], map[], map[];
      nextId := 0;
    }

    // -------------------------------------------------------------------------
    // Teams
    // -------------------------------------------------------------------------

    /**
     * Registers a team, adding its captain to the member list when the
     * captain is given and not yet listed.
     */
    method CreateTeam(payload: Team) returns (id: Id)
      requires Valid()
      modifies this
      ensures Valid()
      ensures id !in old(teams) && id in teams && teams == old(teams)[id := teams[id]]
      ensures teams[id] == payload.(memberUserIds := teams[id].memberUserIds)
      ensures var captain, before, after := payload.captainUserId, payload.memberUserIds, teams[id].memberUserIds;
        && before <= after
        && (captain != "" ==> captain in after)
        && (forall u :: u in after ==> u in before || u == captain)
        && (captain == "" || captain in before ==> after == before)
        && |after| <= |before| + 1
      ensures challenges == old(challenges) && bookings == old(bookings) && matches == old(matches)
      ensures old(StatsSound()) && StatsConsistent(payload.stats) && PointsAgree(payload.stats) ==> StatsSound()
    {
      var team := payload;
      if team.captainUserId != "" && team.captainUserId !in team.memberUserIds {
        team := team.(memberUserIds := team.memberUserIds + [team.captainUserId]);
      }
      id := nextId;
      nextId := nextId + 1;
      teams := teams[id := team];
    }

    /** The statistics of a stored team. */
    method TeamStats(id: Id) returns (r: Result<Stats, Error>)
      ensures r.Ok? <==> id in teams
      ensures r.Ok? ==> r.value == teams[id].stats
      ensures r.Err? ==> r.error == NotFound
    {
      if id !in teams {
        return Err(NotFound);
      }
      r := Ok(teams[id].stats);
    }

    // -------------------------------------------------------------------------
    // Challenges and negotiation
    // -------------------------------------------------------------------------

    /**
     * Proposes a challenge between two stored teams of the requested country
     * and game. The new challenge is proposed with no approvals.
     */
    method ProposeChallenge(req: ProposeRequest) returns (r: Result<Id, Error>)
      requires Valid()
      modifies this
      ensures Valid()
      ensures r.Err? ==> unchanged(this)
      ensures req.challengerTeamId !in teams || req.opponentTeamId !in teams ==> r == Err(InvalidReference)
      ensures req.challengerTeamId in teams && req.opponentTeamId in teams ==>
        var t1, t2 := teams[req.challengerTeamId], teams[req.opponentTeamId];
        && (t1.country != req.country || t2.country != req.country ==>
              r == Err(ConstraintViolation(SameCountry)))
        && (t1.country == req.country == t2.country && (t1.game != req.game || t2.game != req.game) ==>
              r == Err(ConstraintViolation(SameGame)))
        && (r.Ok? <==> t1.country == req.country == t2.country && t1.game == req.game == t2.game)
      ensures r.Ok? ==>
        r.value !in old(challenges) && r.value in challenges && challenges == old(challenges)[r.value := challenges[r.value]]
      ensures r.Ok? ==> challenges[r.value] == Challenge(
        req.challengerTeamId, req.opponentTeamId, req.game, req.country, req.proposedDatetime,
        req.format, req.venueId, Proposed, NoApprovals, req.notes)
      ensures teams == old(teams) && bookings == old(bookings) && matches == old(matches)
    {
      if req.challengerTeamId !in teams || req.opponentTeamId !in teams {
        return Err(InvalidReference);
      }
      var t1, t2 := teams[req.challengerTeamId], teams[req.opponentTeamId];
      if t1.country != t2.country || t1.country != req.country {
        return Err(ConstraintViolation(SameCountry));
      }
      if t1.game != t2.game || t1.game != req.game {
        return Err(ConstraintViolation(SameGame));
      }
      var ch := NewChallenge(req.challengerTeamId, req.opponentTeamId, req.game, req.country);
      ch := ch.(proposedDatetime := req.proposedDatetime, format := req.format,
                venueId := req.venueId, status := Proposed, approvals := NoApprovals, notes := req.notes);
      var id := nextId;
      nextId := nextId + 1;
      challenges := challenges[id := ch];
      r := Ok(id);
    }

    /**
     * Renegotiates a challenge from whatever status it is in: overwrites the
     * fields the request carries, withdraws both approvals and moves the
     * challenge to negotiating.
     */
    method NegotiateChallenge(id: Id, req: NegotiateRequest) returns (r: Result<Challenge, Error>)
      requires Valid()
      modifies this
      ensures Valid()
      ensures id !in old(challenges) ==> r == Err(NotFound) && unchanged(this)
      ensures id in old(challenges) ==> r.Ok? && challenges == old(challenges)[id := r.value]
      ensures r.Ok? ==> var before, after := old(challenges[id]), r.value;
        && after.status == Negotiating && after.approvals == NoApprovals
        && after.proposedDatetime == (if req.proposedDatetime.Some? then req.proposedDatetime else before.proposedDatetime)
        && after.format == req.format.GetOr(before.format)
        && after.venueId == (if req.venueId.Some? then req.venueId else before.venueId)
        && after.notes == (if req.notes.Some? then req.notes else before.notes)
        && after.challengerTeamId == before.challengerTeamId && after.opponentTeamId == before.opponentTeamId
        && after.game == before.game && after.country == before.country
      ensures teams == old(teams) && bookings == old(bookings) && matches == old(matches) && nextId == old(nextId)
    {
      if id !in challenges {
        return Err(NotFound);
      }
      var ch := challenges[id].(status := Negotiating);
      if req.proposedDatetime.Some? {
        ch := ch.(proposedDatetime := req.proposedDatetime);
      }
      if req.format.Some? {
        ch := ch.(format := req.format.value);
      }
      if req.venueId.Some? {
        ch := ch.(venueId := req.venueId);
      }
      if req.notes.Some? {
        ch := ch.(notes := req.notes);
      }
      ch := ch.(approvals := NoApprovals);
      challenges := challenges[id := ch];
      assert Valid();
      r := Ok(ch);
    }

    /**
     * Records one side's consent. The challenge becomes approved once both
     * sides have consented; otherwise its status stays what it was.
     */
    method ApproveChallenge(id: Id, role: Role) returns (r: Result<Challenge, Error>)
      requires Valid()
      modifies this
      ensures Valid()
      ensures id !in old(challenges) ==> r == Err(NotFound) && unchanged(this)
      ensures id in old(challenges) ==> r.Ok? && challenges == old(challenges)[id := r.value]
      ensures r.Ok? ==> var before, after := old(challenges[id]), r.value;
        && after == before.(approvals := after.approvals, status := after.status)
        && (role == Challenger ==> after.approvals == before.approvals.(challenger := true))
        && (role == Opponent ==> after.approvals == before.approvals.(opponent := true))
        && (after.approvals.challenger && after.approvals.opponent ==> after.status == Approved)
        && (!(after.approvals.challenger && after.approvals.opponent) ==> after.status == before.status)
      ensures teams == old(teams) && bookings == old(bookings) && matches == old(matches) && nextId == old(nextId)
    {
      if id !in challenges {
        return Err(NotFound);
      }
      var ch := challenges[id];
      var approvals := ch.approvals;
      if role == Challenger {
        approvals := approvals.(challenger := true);
      } else {
        approvals := approvals.(opponent := true);
      }
      var status := StatusAfterApproval(approvals, ch.status);
      ch := ch.(approvals := approvals, status := status);
      challenges := challenges[id := ch];
      r := Ok(ch);
    }

    // -------------------------------------------------------------------------
    // Booking flow
    // -------------------------------------------------------------------------

    /**
     * Books a venue for a proposed, negotiating or approved challenge: stores
     * a pending booking, and marks the challenge booked at that venue.
     * Approvals are not consulted and not changed.
     */
    method CreateBooking(challengeId: Id, req: BookingRequest) returns (r: Result<Id, Error>)
      requires Valid()
      modifies this
      ensures Valid()
      ensures challengeId !in old(challenges) ==> r == Err(NotFound)
      ensures challengeId in old(challenges) && !Bookable(old(challenges[challengeId].status)) ==>
        r == Err(ConstraintViolation(BookableStatus))
      ensures r.Err? ==> unchanged(this)
      ensures r.Ok? <==> challengeId in old(challenges) && Bookable(old(challenges[challengeId].status))
      ensures r.Ok? ==>
        && r.value !in old(bookings)
        && bookings == old(bookings)[r.value := NewBooking(challengeId, req.venueId, req.startDatetime, req.endDatetime)]
        && challenges == old(challenges)[challengeId :=
             old(challenges[challengeId]).(status := Booked, venueId := Some(req.venueId))]
      ensures teams == old(teams) && matches == old(matches)
    {
      if challengeId !in challenges {
        return Err(NotFound);
      }
      if !Bookable(challenges[challengeId].status) {
        return Err(ConstraintViolation(BookableStatus));
      }
      var booking := NewBooking(challengeId, req.venueId, req.startDatetime, req.endDatetime);
      var bid := nextId;
      nextId := nextId + 1;
      bookings := bookings[bid := booking];
      challenges := challenges[challengeId := challenges[challengeId].(status := Booked, venueId := Some(req.venueId))];
      r := Ok(bid);
    }

    /**
     * Confirms or cancels a booking. Cancelling sends the owning challenge
     * back to approved (its approvals untouched); confirming leaves the
     * challenge as it is.
     */
    method ConfirmBooking(bookingId: Id, confirm: bool) returns (r: Result<Booking, Error>)
      requires Valid()
      modifies this
      ensures Valid()
      ensures bookingId !in old(bookings) ==> r == Err(NotFound) && unchanged(this)
      ensures bookingId in old(bookings) ==> var before := old(bookings[bookingId]);
        && r == Ok(before.(status := if confirm then Confirmed else BookingStatus.Cancelled))
        && bookings == old(bookings)[bookingId := r.value]
        && before.challengeId in old(challenges)
        && (confirm ==> challenges == old(challenges))
        && (!confirm ==> challenges == old(challenges)[before.challengeId :=
              old(challenges[before.challengeId]).(status := Approved)])
      ensures teams == old(teams) && matches == old(matches) && nextId == old(nextId)
    {
      if bookingId !in bookings {
        return Err(NotFound);
      }
      var booking := bookings[bookingId];
      var newStatus := if confirm then Confirmed else BookingStatus.Cancelled;
      bookings := bookings[bookingId := booking.(status := newStatus)];
      if newStatus == BookingStatus.Cancelled && booking.challengeId in challenges {
        challenges := challenges[booking.challengeId := challenges[booking.challengeId].(status := Approved)];
      }
      assert Valid();
      r := Ok(bookings[bookingId]);
    }

    // -------------------------------------------------------------------------
    // Match result and stats settlement
    // -------------------------------------------------------------------------

    /** Credits one outcome to a stored team; a team that is not stored is skipped. */
    method UpdateStats(teamId: Id, won: bool, draw: bool)
      requires Valid()
      modifies this
      ensures Valid()
      ensures teams == Credited(old(teams), teamId, won, draw)
      ensures challenges == old(challenges) && bookings == old(bookings) && matches == old(matches)
      ensures nextId == old(nextId)
    {
      if teamId !in teams {
        return;
      }
      var team := teams[teamId];
      var stats := team.stats;
      stats := stats[Matches := Stat(stats, Matches) + 1];
      if draw {
        stats := stats[Draws := Stat(stats, Draws) + 1];
        stats := stats[Points := Stat(stats, Points) + 1];
      } else if won {
        stats := stats[Wins := Stat(stats, Wins) + 1];
        stats := stats[Points := Stat(stats, Points) + 3];
      } else {
        stats := stats[Losses := Stat(stats, Losses) + 1];
      }
      assert stats == ApplyOutcome(team.stats, won, draw);
      var credited := team.(stats := stats);
      assert credited.captainUserId == team.captainUserId && credited.memberUserIds == team.memberUserIds;
      teams := teams[teamId := credited];
      assert Valid();
    }

    /**
     * Settles a result between teams `a` and `b`: a draw is credited to both,
     * otherwise a win to the winner and then a loss to the other team.
     */
    method SettleStats(a: Id, b: Id, winner: Id, scoreA: int, scoreB: int)
      requires Valid()
      modifies this
      ensures Valid()
      ensures teams == Settle(old(teams), a, b, winner, scoreA, scoreB)
      ensures challenges == old(challenges) && bookings == old(bookings) && matches == old(matches)
      ensures nextId == old(nextId)
      ensures old(StatsSound()) ==> StatsSound()
    {
      ghost var before := teams;
      if scoreA == scoreB {
        UpdateStats(a, false, true);
        UpdateStats(b, false, true);
      } else {
        var loser := if winner == a then b else a;
        UpdateStats(winner, true, false);
        UpdateStats(loser, false, false);
      }
      if AllConsistent(before) {
        SettleKeepsConsistency(before, a, b, winner, scoreA, scoreB);
      }
    }

    /**
     * Records the result of a challenge, at any status: stores a completed
     * match that snapshots the challenge's game, format and venue, marks the
     * challenge completed and settles both teams' statistics. The winner must
     * be one of the two teams even when the scores are equal. A challenge
     * whose venue is null cannot produce a valid match record. Nothing guards
     * against recording the same challenge twice.
     */
    method RecordMatchResult(req: RecordRequest) returns (r: Result<Id, Error>)
      requires Valid()
      modifies this
      ensures Valid()
      ensures r.Err? ==> unchanged(this)
      ensures req.challengeId !in old(challenges) ==> r == Err(NotFound)
      ensures req.challengeId in old(challenges) ==> var ch := old(challenges[req.challengeId]);
        && (req.winnerTeamId != ch.challengerTeamId && req.winnerTeamId != ch.opponentTeamId ==>
              r == Err(ConstraintViolation(WinnerIsParticipant)))
        && ((req.winnerTeamId == ch.challengerTeamId || req.winnerTeamId == ch.opponentTeamId) && ch.venueId.None? ==>
              r == Err(ValidationError))
        && (r.Ok? <==> (req.winnerTeamId == ch.challengerTeamId || req.winnerTeamId == ch.opponentTeamId) && ch.venueId.Some?)
      ensures r.Ok? ==> var ch := old(challenges[req.challengeId]);
        && r.value !in old(matches)
        && matches == old(matches)[r.value := Match(
             req.challengeId, ch.venueId.value, ch.game, ch.format, ch.challengerTeamId, ch.opponentTeamId,
             Some(MatchResult(req.winnerTeamId, req.scoreA, req.scoreB)), MatchStatus.Completed)]
        && challenges == old(challenges)[req.challengeId := ch.(status := ChallengeStatus.Completed)]
        && teams == Settle(old(teams), ch.challengerTeamId, ch.opponentTeamId, req.winnerTeamId, req.scoreA, req.scoreB)
        && bookings == old(bookings)
      ensures old(StatsSound()) ==> StatsSound()
    {
      if req.challengeId !in challenges {
        return Err(NotFound);
      }
      var ch := challenges[req.challengeId];
      var teamA, teamB := ch.challengerTeamId, ch.opponentTeamId;
      if req.winnerTeamId != teamA && req.winnerTeamId != teamB {
        return Err(ConstraintViolation(WinnerIsParticipant));
      }
      if ch.venueId.None? {
        return Err(ValidationError);
      }
      var m := Match(req.challengeId, ch.venueId.value, ch.game, ch.format, teamA, teamB,
                     Some(MatchResult(req.winnerTeamId, req.scoreA, req.scoreB)), MatchStatus.Completed);
      var mid := nextId;
      nextId := nextId + 1;
      matches := matches[mid := m];
      challenges := challenges[req.challengeId := ch.(status := ChallengeStatus.Completed)];
      assert Valid();
      SettleStats(teamA, teamB, req.winnerTeamId, req.scoreA, req.scoreB);
      r := Ok(mid);
    }

    // -------------------------------------------------------------------------
    // Leaderboard
    // -------------------------------------------------------------------------

    /**
     * The leaderboard of the teams playing `game` (when given) and, for a
     * local board, from `country`, which a local board requires.
     */
    method Leaderboard(scope: Scope, game: Option<string>, country: Option<string>, limit: nat)
      returns (r: Result<seq<Entry>, Error>)
      requires Valid()
      ensures r.Err? <==> scope == Local && !Given(country)
      ensures r.Err? ==> r.error == ConstraintViolation(CountryForLocal)
      ensures r.Ok? ==> IsLeaderboard(r.value, teams, BoardFilter(scope, game, country), limit)
    {
      var gameFilter: Option<string> := None;
      if Given(game) {
        gameFilter := game;
      }
      var countryFilter: Option<string> := None;
      if scope == Local {
        if !Given(country) {
          return Err(ConstraintViolation(CountryForLocal));
        }
        countryFilter := country;
      }
      var f := Filter(gameFilter, countryFilter);
      assert f == BoardFilter(scope, game, country);
      var rows := Scan(teams, f, 0, nextId);
      rows := RankSort(rows);
      var board := Cut(rows, limit);
      LeaderboardCorrect(teams, f, nextId, limit);
      r := Ok(board);
    }
  }
}
