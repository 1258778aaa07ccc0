# Challenge lifecycle and result settlement of a gaming-league backend

This project models, in Dafny, the core of a REST backend for a competitive
gaming league: teams challenge each other, negotiate the terms, approve,
book a venue, and record a result, which updates both teams' statistics and
through them a points leaderboard.

The model has six modules:

- `Wrappers` (`wrappers.dfy`): `Option` for nullable fields and `Result` for a handler's answer.
- `Schemas` (`schemas.dfy`): the stored records `Team`, `Challenge`, `Booking` and
  `Match`; the closed enumerations for match format and for challenge, booking and match
  status, each with its literal spelling and a validating parser; and the default values
  (zero statistics, no approvals, format `BO3`, booking `pending`). A team's statistics
  are a dictionary from counter to integer, read through `Stat`, which treats a missing
  counter as 0.
- `Settlement` (`settlement.dfy`): the stats aggregator. `ApplyOutcome` gives one team's
  new statistics. `Settle` gives the whole team collection after a result: both teams
  drawn on equal scores, otherwise the winner credited first and then the loser. The
  lemmas state what a decisive result, a draw and a self-challenge do, and that the
  statistics invariant is kept.
- `Ranking` (`ranking.dfy`): the leaderboard. `Scan` is the collection scan in natural
  order through an exact-match filter. `RankSort` is the stable sort by `(points, wins)`,
  highest first. `Cut` is the truncation and projection. `IsLeaderboard` is the
  specification of a leaderboard, and `LeaderboardCorrect` proves that the pipeline
  meets it.
- `Platform` (`platform.dfy`): the document store as a class `Store` with one map per
  collection and a counter that hands out fresh identifiers. Its methods are the request
  handlers. Each one states its error cases and its whole new state. `Valid()` is kept
  by every handler: identifiers are below the counter, references between documents
  resolve, and a team's non-empty captain is among its members. `StatsSound()` says every team's
  statistics satisfy `matches = wins + losses + draws`, all counters are non-negative,
  and `points = 3 * wins + draws`. It is kept by result recording, and by team
  registration when the submitted statistics satisfy it.
- `Scenarios` (`scenarios.dfy`): client runs of the store that replay the documented
  example scenarios. Each one verifies from the handlers' contracts alone:
  - approve from both sides, then renegotiate;
  - propose across two countries;
  - book, then cancel the booking;
  - record a 3–1 result, and record a completed challenge again;
  - record a challenge that has no venue;
  - the leaderboard of two among teams at 10/5, 10/3 and 7/9 points/wins.

Error kinds:

- `NotFound`: the HTTP 404 answers.
- `InvalidReference`: the 400 "Both teams must exist".
- `ConstraintViolation(rule)`: the other 400 answers, naming the rule broken.
- `ValidationError`: the failure to build a `Match` record when the challenge's venue is
  null.

Behaviour the model keeps as the code has it:

- The captain is added to the member list only when the captain id is a non-empty
  string. An empty captain id is falsy in the code and is not added.
- Propose does not require the two teams to differ. Settling a challenge of a team
  against itself credits that team twice (`Settlement.SettleSelfChallenge`).
- Negotiate works from any status, completed ones included. Approve keeps the prior
  status unless both flags are set. So a challenge can be `approved` with both flags
  false, when it was booked before both sides approved and the booking was then
  cancelled.
- Record result has no status guard. Recording a challenge again creates a second match
  and credits both teams again. The winner must be a participant even on equal scores.
- Record result copies the challenge's venue into a `Match`, whose venue is a required
  string. A challenge that was proposed and negotiated without a venue and never booked
  holds a null venue, so no valid match can be built. The model answers
  `ValidationError` and changes nothing.
- A global leaderboard ignores the country parameter. An empty `game` or `country`
  parameter counts as absent, because the code tests truthiness.

Where the design documentation and the code differ, the model follows the code:

- The documentation says the captain is always a member. The code adds the captain only
  when the captain id is non-empty.
- The documentation does not mention that a result cannot be recorded for a challenge
  without a venue. The code fails there.

## Model

| member | source | states |
|---|---|---|
| Schemas.ParseFormat | schemas.py:53 | a format literal is accepted exactly when it is one of BO1, BO2, BO3, BO5, and the accepted value spells back to the literal |
| Schemas.ParseChallengeStatus | schemas.py:63-71 | a challenge status literal is accepted exactly when it is one of the seven states, and spells back to the literal |
| Schemas.ParseBookingStatus | schemas.py:83 | a booking status literal is accepted exactly when it is pending, confirmed or cancelled |
| Schemas.ParseMatchStatus | schemas.py:96 | a match status literal is accepted exactly when it is scheduled or completed |
| Schemas.DefaultStats | schemas.py:33-42 | a new team's statistics hold all five counters at 0, so they satisfy the statistics invariant and the points rule |
| Schemas.NewTeam | schemas.py:26-42 | a team built from its required fields has no members, no achievements and zero, consistent statistics |
| Schemas.NewChallenge | schemas.py:55-76 | a new challenge is proposed, with neither side approving, format BO3, and no schedule, venue or notes |
| Schemas.NewBooking | schemas.py:78-83 | a new booking is pending and carries its challenge, venue and times |
| Settlement.ApplyOutcome | main.py:336-350 | one match adds 1 to matches and exactly one of draws (plus 1 point), wins (plus 3 points) or losses (no points), a draw taking precedence and missing counters starting from 0; it keeps the statistics invariant and the points rule |
| Settlement.Credited | main.py:336-350 | crediting one outcome keeps the set of teams, replaces only the named team's statistics by their `ApplyOutcome`, and does nothing when the team is not stored; `Platform.Store.UpdateStats` is tied to it |
| Settlement.Settle | main.py:352-359 | settling keeps the set of teams and changes nothing but statistics; what it does to each team is stated by SettleDecisive, SettleDraw, SettleSelfChallenge, SettleTouchesOnlyParticipants and SettleKeepsConsistency |
| Settlement.SettleTouchesOnlyParticipants | main.py:336-359 | settlement adds no team, changes only stats, leaves non-participants untouched and skips a participant that is not stored |
| Settlement.SettleDecisive | main.py:355-359 | on unequal scores between two distinct stored teams the winner gains a match, a win and 3 points, the loser a match and a loss and no points |
| Settlement.SettleDraw | main.py:352-354 | on equal scores both teams gain a match, a draw and 1 point, whichever team was named winner |
| Settlement.SettleSelfChallenge | main.py:352-359 | when both sides are the same team it is credited twice: two draws and 2 points, or one win, one loss and 3 points |
| Settlement.CreditedKeepsConsistency | main.py:336-350 | crediting one outcome to one team keeps every team's statistics invariant and points rule |
| Settlement.SettleKeepsConsistency | main.py:336-359 | settlement keeps every team's statistics invariant and points rule |
| Ranking.BoardFilter | main.py:375-381 | a team passes the filter exactly when it has the requested game, if a non-empty game was given, and, on a local board given a country, that country; a global board ignores the country |
| Ranking.Scan | main.py:375-382 | the scan yields only stored teams the filter admits, each with its stored record, in ascending identifier order |
| Ranking.ScanComplete | main.py:382 | the scan misses no admitted team |
| Ranking.ScanCount | main.py:382 | the scan yields exactly as many rows as there are admitted teams |
| Ranking.KeyAboveOrder | main.py:383 | the descending sort key (points, then wins) is a strict weak order whose ties are exactly the teams with equal points and equal wins |
| Ranking.OutranksOrder | main.py:383 | the leaderboard order (higher key first, ties by collection order) is a strict total order on distinct teams, agreeing with the key order and breaking ties by identifier |
| Ranking.Insert | main.py:383 | insertion adds exactly one row and loses none |
| Ranking.RankSort | main.py:383 | the sort is a permutation of its input |
| Ranking.InsertRanked | main.py:383 | inserting a row that precedes all others in the collection keeps the list in leaderboard order |
| Ranking.RankSortRanked | main.py:383 | the stable sort of a natural-order scan is strictly ordered by points, then wins, then collection order |
| Ranking.Cut | main.py:384-393 | the response holds the projections of the first min(limit, n) sorted teams |
| Ranking.CutMembers | main.py:382-393 | every listed entry is an admitted team's current projection |
| Ranking.CutLength | main.py:382-393 | the board has min(limit, number of admitted teams) entries |
| Ranking.CutTopK | main.py:382-393 | every admitted team left off the board is outranked by every team on it |
| Ranking.LeaderboardCorrect | main.py:375-393 | filtering, stable sorting and truncating the whole collection yields a leaderboard in the sense of IsLeaderboard |
| Platform.Bookable | main.py:268 | a booking may be made exactly when the challenge is not booked, completed, rejected or cancelled |
| Platform.StatusAfterApproval | main.py:247 | after an approval the status is approved exactly when both flags are set or it was approved already, and otherwise is the prior status |
| Platform.Store.CreateTeam | main.py:135-142 | the team is stored under a fresh id with the submitted fields; a non-empty captain ends up among the members; the existing members are kept in order; nothing but the captain is added, and nothing when the captain was listed or empty |
| Platform.Store.TeamStats | main.py:156-161 | a stored team's statistics are returned, an unknown team is NotFound |
| Platform.Store.ProposeChallenge | main.py:179-205 | a missing team is InvalidReference; otherwise a country mismatch among the teams and the request is SameCountry and then a game mismatch is SameGame; it succeeds exactly when both teams match the request's country and game, storing under a fresh id a proposed challenge with no approvals and the request's fields; on failure nothing changes |
| Platform.Store.NegotiateChallenge | main.py:215-233 | an unknown id is NotFound; otherwise, from any status, the challenge becomes negotiating with both approvals withdrawn, each negotiable field is overwritten exactly when the request carries it, and teams, game and country stay |
| Platform.Store.ApproveChallenge | main.py:240-250 | an unknown id is NotFound; otherwise the role's flag is set, the other flag and every other field kept, and the status becomes approved exactly when both flags are set, staying as it was otherwise |
| Platform.Store.CreateBooking | main.py:263-281 | an unknown challenge is NotFound, a status other than proposed, negotiating or approved is BookableStatus; otherwise a pending booking is stored under a fresh id and the challenge becomes booked at the booked venue, approvals unchanged |
| Platform.Store.ConfirmBooking | main.py:288-298 | an unknown booking is NotFound; otherwise its status becomes confirmed or cancelled, and only a cancellation sends the owning challenge back to approved |
| Platform.Store.UpdateStats | main.py:336-350 | the team's statistics are credited with one outcome; a team that is not stored is skipped |
| Platform.Store.SettleStats | main.py:352-359 | the teams become the settlement of the result between the two teams; the statistics invariant is kept |
| Platform.Store.RecordMatchResult | main.py:312-361 | an unknown challenge is NotFound, a winner outside the two teams is WinnerIsParticipant even on equal scores, a null venue is ValidationError; otherwise, at any status, a completed match snapshotting game, format, venue and teams is stored under a fresh id, the challenge becomes completed and the teams are settled |
| Platform.Store.Leaderboard | main.py:368-393 | a local board without a country is CountryForLocal and nothing else fails; otherwise the answer is a leaderboard of the teams admitted by the game and (local only) country filter, cut at limit |
| Scenarios.BoardOfTwo | main.py:383 | with teams at 10/3, 7/9 and 10/5 points/wins the only board of two is 10/5 followed by 10/3 |

## Left out

- HTTP routing, CORS setup and the mapping of error kinds to status codes: the error datatype stands for them. The request defaults also belong to the routing layer: the proposed format BO3 (main.py:174), `confirm` true (main.py:285), scope `global` (main.py:370) and limit 20 (main.py:373); the model's requests carry every field explicitly (`Schemas.DefaultFormat` names the BO3 default).
- Identifier parsing (the malformed-identifier answer) and serialization of identifiers and timestamps: identifiers are opaque and always well formed.
- The health and database diagnostics endpoint: environment and I/O only.
- The database layer: replaced by the `Store` class, whose insert hands out a fresh identifier; update of a missing document is modelled as doing nothing.
- User and venue registration, and the venue and team listings: plain storage and exact-match filtering with no domain logic; venue identifiers are not checked by any core handler.
- Request-literal validation by pattern (format, role, scope): format, role and scope arrive as closed datatypes; the schema literals have parsers in `Schemas`.
- Timestamps: carried as opaque strings, never compared or computed with.
- Atomicity and concurrency: each handler runs to completion alone, so the partial writes a crash or a race could leave are not modelled.
- Documents with missing fields: every stored record carries every field, so the code's fallbacks for an absent key (the empty venue, format BO3, status proposed, no approvals) are never taken; a null venue is modelled.
- Statistics entries other than the five counters, and counter values that are not integers: a team's statistics map only the five counters to integers.
- A negative leaderboard limit (slicing from the end in the code): the limit is a natural number.
- The order in which the database returns the matching teams (main.py:382) is not specified. The model takes the collection scan to be in insertion order, which is ascending identifier order here. Because of this assumption, teams with equal `(points, wins)` keys rank by identifier (`Ranking.Outranks`); the code's stable sort only keeps whatever order the scan returned.
- The `rejected` and `cancelled` challenge states: declared, and no handler sets them.
