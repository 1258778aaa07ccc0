/**
 * The records the platform stores, one per collection (team, challenge,
 * booking, match), with their closed enumerations and default values.
 */
module Schemas {
  import opened Wrappers

  /** Identifier of a stored document; opaque, handed out by the store on insert. */
  type Id = nat
  /** A gamer user's identifier as listed in a team; the empty string counts as absent. */
  type UserId = string
  /** A venue's identifier; venues themselves are not part of this model. */
  type VenueId = string
  /** A timestamp, carried and stored but never interpreted. */
  type DateTime = string

  // ---------------------------------------------------------------------------
  // Enumerations and their literal spellings
  // ---------------------------------------------------------------------------

  /** The best-of-N format of a challenge or match. */
  datatype MatchFormat = BO1 | BO2 | BO3 | BO5

  /** The format a challenge gets when none is given. */
  const DefaultFormat: MatchFormat := BO3

  function FormatName(f: MatchFormat): string {
    match f
    case BO1 => "BO1"
    case BO2 => "BO2"
    case BO3 => "BO3"
    case BO5 => "BO5"
  }

  /** Validation of a format literal: accepts exactly the four spellings. */
  function ParseFormat(s: string): (r: Option<MatchFormat>)
    ensures r.Some? ==> FormatName(r.value) == s
    ensures r.None? ==> forall f :: FormatName(f) != s
  {
    if s == "BO1" then Some(BO1)
    else if s == "BO2" then Some(BO2)
    else if s == "BO3" then Some(BO3)
    else if s == "BO5" then Some(BO5)
    else None
  }

  /** The lifecycle state of a challenge. */
  datatype ChallengeStatus =
    | Proposed | Negotiating | Approved | Booked | Completed | Rejected | Cancelled

  function ChallengeStatusName(s: ChallengeStatus): string {
    match s
    case Proposed => "proposed"
    case Negotiating => "negotiating"
    case Approved => "approved"
    case Booked => "booked"
    case Completed => "completed"
    case Rejected => "rejected"
    case Cancelled => "cancelled"
  }

  /** Validation of a challenge status literal: accepts exactly the seven spellings. */
  function ParseChallengeStatus(s: string): (r: Option<ChallengeStatus>)
    ensures r.Some? ==> ChallengeStatusName(r.value) == s
    ensures r.None? ==> forall c :: ChallengeStatusName(c) != s
  {
    if s == "proposed" then Some(Proposed)
    else if s == "negotiating" then Some(Negotiating)
    else if s == "approved" then Some(Approved)
    else if s == "booked" then Some(Booked)
    else if s == "completed" then Some(ChallengeStatus.Completed)
    else if s == "rejected" then Some(Rejected)
    else if s == "cancelled" then Some(ChallengeStatus.Cancelled)
    else None
  }

  /** The state of a venue booking. */
  datatype BookingStatus = Pending | Confirmed | Cancelled

  function BookingStatusName(s: BookingStatus): string {
    match s
    case Pending => "pending"
    case Confirmed => "confirmed"
    case Cancelled => "cancelled"
  }

  /** Validation of a booking status literal: accepts exactly the three spellings. */
  function ParseBookingStatus(s: string): (r: Option<BookingStatus>)
    ensures r.Some? ==> BookingStatusName(r.value) == s
    ensures r.None? ==> forall b :: BookingStatusName(b) != s
  {
    if s == "pending" then Some(Pending)
    else if s == "confirmed" then Some(Confirmed)
    else if s == "cancelled" then Some(BookingStatus.Cancelled)
    else None
  }

  /** The state of a match record. */
  datatype MatchStatus = Scheduled | Completed

  function MatchStatusName(s: MatchStatus): string {
    match s
    case Scheduled => "scheduled"
    case Completed => "completed"
  }

  /** Validation of a match status literal: accepts exactly the two spellings. */
  function ParseMatchStatus(s: string): (r: Option<MatchStatus>)
    ensures r.Some? ==> MatchStatusName(r.value) == s
    ensures r.None? ==> forall m :: MatchStatusName(m) != s
  {
    if s == "scheduled" then Some(Scheduled)
    else if s == "completed" then Some(MatchStatus.Completed)
    else None
  }

  // ---------------------------------------------------------------------------
  // Team statistics
  // ---------------------------------------------------------------------------

  /** The named counters of a team's statistics. */
  datatype StatKey = Matches | Wins | Losses | Draws | Points

  /**
   * A team's statistics as stored: a dictionary from counter name to integer.
   * A counter may be missing; every reader treats a missing counter as 0 (see Stat).
   */
  type Stats = map<StatKey, int>

  /** The value of one counter, 0 when the key is missing. */
  function Stat(s: Stats, k: StatKey): int {
    if k in s then s[k] else 0
  }

  /**
   * The statistics invariant: every counter is non-negative and every
   * match played is exactly one win, loss or draw.
   */
  predicate StatsConsistent(s: Stats) {
    && Stat(s, Matches) >= 0 && Stat(s, Wins) >= 0 && Stat(s, Losses) >= 0
    && Stat(s, Draws) >= 0 && Stat(s, Points) >= 0
    && Stat(s, Matches) == Stat(s, Wins) + Stat(s, Losses) + Stat(s, Draws)
  }

  /** The points a record of wins and draws is worth: 3 per win, 1 per draw. */
  predicate PointsAgree(s: Stats) {
    Stat(s, Points) == 3 * Stat(s, Wins) + Stat(s, Draws)
  }

  /** The statistics of a newly registered team: every counter present and zero. */
  function DefaultStats(): (s: Stats)
    ensures s.Keys == {Matches, Wins, Losses, Draws, Points}
    ensures forall k :: Stat(s, k) == 0
    ensures StatsConsistent(s) && PointsAgree(s)
  {
    map[Matches := 0, Wins := 0, Losses := 0, Draws := 0, Points := 0]
  }

  // ---------------------------------------------------------------------------
  // Records
  // ---------------------------------------------------------------------------

  /** A team; its `stats` are written only by match settlement. */
  datatype Team = Team(
    name: string,
    game: string,
    country: string,
    captainUserId: UserId,
    memberUserIds: seq<UserId>,
    achievements: seq<string>,
    stats: Stats)

  /** A team built from its required fields, every other field at its default. */
  function NewTeam(name: string, game: string, country: string, captain: UserId): (t: Team)
    ensures t.name == name && t.game == game && t.country == country && t.captainUserId == captain
    ensures t.memberUserIds == [] && t.achievements == []
    ensures StatsConsistent(t.stats) && PointsAgree(t.stats)
    ensures forall k :: Stat(t.stats, k) == 0
  {
    Team(name, game, country, captain, [], [], DefaultStats())
  }

  /** Per-side consent flags of a challenge. */
  datatype Approvals = Approvals(challenger: bool, opponent: bool)

  /** The approvals of a fresh or renegotiated challenge: neither side has consented. */
  const NoApprovals: Approvals := Approvals(false, false)

  /** A proposed match between two teams, moving through the negotiation lifecycle. */
  datatype Challenge = Challenge(
    challengerTeamId: Id,
    opponentTeamId: Id,
    game: string,
    country: string,
    proposedDatetime: Option<DateTime>,
    format: MatchFormat,
    venueId: Option<VenueId>,
    status: ChallengeStatus,
    approvals: Approvals,
    notes: Option<string>)

  /** A challenge built from its required fields, every other field at its default. */
  function NewChallenge(challenger: Id, opponent: Id, game: string, country: string): (c: Challenge)
    ensures c.challengerTeamId == challenger && c.opponentTeamId == opponent
    ensures c.game == game && c.country == country
    ensures c.status == Proposed && !c.approvals.challenger && !c.approvals.opponent
    ensures c.format == BO3
    ensures c.proposedDatetime.None? && c.venueId.None? && c.notes.None?
  {
    Challenge(challenger, opponent, game, country, None, DefaultFormat, None, Proposed, NoApprovals, None)
  }

  /** A venue reservation for one challenge. */
  datatype Booking = Booking(
    challengeId: Id,
    venueId: VenueId,
    startDatetime: DateTime,
    endDatetime: Option<DateTime>,
    status: BookingStatus)

  /** A booking built from its required fields; its status defaults to pending. */
  function NewBooking(challengeId: Id, venue: VenueId, start: DateTime, end: Option<DateTime>): (b: Booking)
    ensures b.challengeId == challengeId && b.venueId == venue
    ensures b.startDatetime == start && b.endDatetime == end
    ensures b.status == Pending
  {
    Booking(challengeId, venue, start, end, Pending)
  }

  /** The outcome payload of a match: the winner and both scores. */
  datatype MatchResult = MatchResult(winnerTeamId: Id, scoreA: int, scoreB: int)

  /**
   * The record of a played challenge. Its venue is a required, non-null
   * string: there is no default and no absent value.
   */
  datatype Match = Match(
    challengeId: Id,
    venueId: VenueId,
    game: string,
    format: MatchFormat,
    teamAId: Id,
    teamBId: Id,
    result: Option<MatchResult>,
    status: MatchStatus)
}
