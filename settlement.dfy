/**
 * The stats aggregator: how one recorded match result changes the
 * statistics of the two teams of a challenge (win 3 points, draw 1 point
 * each, loss nothing; a team that is not stored is skipped).
 */
module Settlement {
  import opened Schemas

  /**
   * One team's statistics after one match. `draw` takes precedence over
   * `won`; a missing counter starts from 0, and counters other than the
   * ones touched keep their stored presence and value.
   */
  function ApplyOutcome(s: Stats, won: bool, draw: bool): (r: Stats)
    ensures Stat(r, Matches) == Stat(s, Matches) + 1
    ensures Stat(r, Draws) == Stat(s, Draws) + (if draw then 1 else 0)
    ensures Stat(r, Wins) == Stat(s, Wins) + (if !draw && won then 1 else 0)
    ensures Stat(r, Losses) == Stat(s, Losses) + (if !draw && !won then 1 else 0)
    ensures Stat(r, Points) == Stat(s, Points) + (if draw then 1 else if won then 3 else 0)
    ensures StatsConsistent(s) ==> StatsConsistent(r)
    ensures PointsAgree(s) ==> PointsAgree(r)
  {
    var counted := s[Matches := Stat(s, Matches) + 1];
    if draw then
      counted[Draws := Stat(counted, Draws) + 1][Points := Stat(counted, Points) + 1]
    else if won then
      counted[Wins := Stat(counted, Wins) + 1][Points := Stat(counted, Points) + 3]
    else
      counted[Losses := Stat(counted, Losses) + 1]
  }

  /** The team collection after crediting one outcome to `id`; unchanged when `id` is not stored. */
  function Credited(teams: map<Id, Team>, id: Id, won: bool, draw: bool): (r: map<Id, Team>)
    ensures r.Keys == teams.Keys
    ensures id in teams ==> r[id] == teams[id].(stats := ApplyOutcome(teams[id].stats, won, draw))
    ensures forall k :: k in teams && k != id ==> r[k] == teams[k]
  {
    if id in teams then teams[id := teams[id].(stats := ApplyOutcome(teams[id].stats, won, draw))]
    else teams
  }

  /** The team that is not `winner` among the challenge's two teams. */
  function Loser(a: Id, b: Id, winner: Id): Id {
    if winner == a then b else a
  }

  /**
   * The team collection after a result with scores `scoreA`/`scoreB` between
   * teams `a` and `b`: both drawn when the scores are equal, otherwise the
   * winner credited first and then the other team. Each step reads the
   * collection the previous step wrote.
   */
  function Settle(teams: map<Id, Team>, a: Id, b: Id, winner: Id, scoreA: int, scoreB: int): (r: map<Id, Team>)
    ensures r.Keys == teams.Keys
    ensures forall k :: k in teams ==> r[k] == teams[k].(stats := r[k].stats)
  {
    if scoreA == scoreB then
      Credited(Credited(teams, a, false, true), b, false, true)
    else
      Credited(Credited(teams, winner, true, false), Loser(a, b, winner), false, false)
  }

  /** Stats of every stored team satisfy the statistics invariant. */
  ghost predicate AllConsistent(teams: map<Id, Team>) {
    forall id :: id in teams ==> StatsConsistent(teams[id].stats) && PointsAgree(teams[id].stats)
  }

  /**
   * Settlement never adds or removes a team, changes nothing but stats, and
   * leaves every team other than the two participants untouched; in
   * particular a participant that is not stored is silently skipped.
   */
  lemma SettleTouchesOnlyParticipants(teams: map<Id, Team>, a: Id, b: Id, winner: Id, scoreA: int, scoreB: int)
    requires winner == a || winner == b
    ensures var r := Settle(teams, a, b, winner, scoreA, scoreB);
      && r.Keys == teams.Keys
      && (forall k :: k in teams ==> r[k] == teams[k].(stats := r[k].stats))
      && (forall k :: k in teams && k != a && k != b ==> r[k] == teams[k])
  {
  }

  /**
   * A decisive result between two distinct stored teams: the winner gains a
   * match, a win and 3 points; the loser a match and a loss, and no points.
   */
  lemma SettleDecisive(teams: map<Id, Team>, a: Id, b: Id, winner: Id, scoreA: int, scoreB: int)
    requires a != b && a in teams && b in teams
    requires winner == a || winner == b
    requires scoreA != scoreB
    ensures var r, loser := Settle(teams, a, b, winner, scoreA, scoreB), Loser(a, b, winner);
      && loser != winner && (loser == a || loser == b)
      && var w, w', l, l' := teams[winner].stats, r[winner].stats, teams[loser].stats, r[loser].stats;
      && Stat(w', Matches) == Stat(w, Matches) + 1 && Stat(w', Wins) == Stat(w, Wins) + 1
      && Stat(w', Points) == Stat(w, Points) + 3
      && Stat(w', Losses) == Stat(w, Losses) && Stat(w', Draws) == Stat(w, Draws)
      && Stat(l', Matches) == Stat(l, Matches) + 1 && Stat(l', Losses) == Stat(l, Losses) + 1
      && Stat(l', Points) == Stat(l, Points)
      && Stat(l', Wins) == Stat(l, Wins) && Stat(l', Draws) == Stat(l, Draws)
  {
  }

  /**
   * A draw between two distinct stored teams: each gains a match, a draw
   * and 1 point, whichever team was named winner.
   */
  lemma SettleDraw(teams: map<Id, Team>, a: Id, b: Id, winner: Id, score: int)
    requires a != b && a in teams && b in teams
    ensures var r := Settle(teams, a, b, winner, score, score);
      forall t :: t == a || t == b ==>
        var s, s' := teams[t].stats, r[t].stats;
        && Stat(s', Matches) == Stat(s, Matches) + 1 && Stat(s', Draws) == Stat(s, Draws) + 1
        && Stat(s', Points) == Stat(s, Points) + 1
        && Stat(s', Wins) == Stat(s, Wins) && Stat(s', Losses) == Stat(s, Losses)
  {
  }

  /**
   * A challenge of a team against itself (nothing forbids proposing one):
   * the team is credited twice, so a draw counts two matches, two draws
   * and 2 points, and a decisive result one win, one loss and 3 points
   * over two matches.
   */
  lemma SettleSelfChallenge(teams: map<Id, Team>, a: Id, scoreA: int, scoreB: int)
    requires a in teams
    ensures var s, s' := teams[a].stats, Settle(teams, a, a, a, scoreA, scoreB)[a].stats;
      && Stat(s', Matches) == Stat(s, Matches) + 2
      && (scoreA == scoreB ==>
            Stat(s', Draws) == Stat(s, Draws) + 2 && Stat(s', Points) == Stat(s, Points) + 2
            && Stat(s', Wins) == Stat(s, Wins) && Stat(s', Losses) == Stat(s, Losses))
      && (scoreA != scoreB ==>
            Stat(s', Wins) == Stat(s, Wins) + 1 && Stat(s', Losses) == Stat(s, Losses) + 1
            && Stat(s', Points) == Stat(s, Points) + 3 && Stat(s', Draws) == Stat(s, Draws))
  {
  }

  /** Settlement keeps the statistics invariant and the points rule of every team. */
  lemma SettleKeepsConsistency(teams: map<Id, Team>, a: Id, b: Id, winner: Id, scoreA: int, scoreB: int)
    requires AllConsistent(teams)
    ensures AllConsistent(Settle(teams, a, b, winner, scoreA, scoreB))
  {
    if scoreA == scoreB {
      CreditedKeepsConsistency(teams, a, false, true);
      CreditedKeepsConsistency(Credited(teams, a, false, true), b, false, true);
    } else {
      CreditedKeepsConsistency(teams, winner, true, false);
      CreditedKeepsConsistency(Credited(teams, winner, true, false), Loser(a, b, winner), false, false);
    }
  }

  /** Crediting one outcome keeps the statistics invariant of every team. */
  lemma CreditedKeepsConsistency(teams: map<Id, Team>, id: Id, won: bool, draw: bool)
    requires AllConsistent(teams)
    ensures AllConsistent(Credited(teams, id, won, draw))
  {
    var r := Credited(teams, id, won, draw);
    forall k | k in r
      ensures StatsConsistent(r[k].stats) && PointsAgree(r[k].stats)
    {
      if k == id {
        assert r[k].stats == ApplyOutcome(teams[k].stats, won, draw);
      }
    }
  }
}
