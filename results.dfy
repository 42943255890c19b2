/**
 * The winning score reported for finished tournaments: the sum of `score || 0` over the
 * populated members of the team whose number is strictly equal to `winnerTeamNumber`.
 */
module Results {
  import opened Common
  import opened Scores

  /**
   * A populated player document: populate drops ids with no document, and `score` is present
   * only when the projection selects it.
   */
  type Docs = map<PlayerId, Option<int>>

  /** teams.find(team => team.teamNumber === tournament.winnerTeamNumber). */
  function WinningTeam(t: Tournament): (r: Option<Team>)
    ensures r.None? <==> t.winnerTeamNumber.None? || FindTeamIndex(t.teams, t.winnerTeamNumber.value) == -1
    ensures r.Some? ==> r.value in t.teams && r.value.teamNumber == t.winnerTeamNumber.value
    ensures r.Some? ==> r.value == t.teams[FindTeamIndex(t.teams, t.winnerTeamNumber.value)]
  {
    if t.winnerTeamNumber.None? then None
    else
      var k := FindTeamIndex(t.teams, t.winnerTeamNumber.value);
      if k == -1 then None else Some(t.teams[k])
  }

  /** players.reduce((sum, player) => sum + (player.score || 0), 0) over the populated members. */
  function ReduceScores(ids: seq<PlayerId>, docs: Docs): int
  {
    if ids == [] then 0 else ScoreOrZero(docs, ids[0]) + ReduceScores(ids[1..], docs)
  }

  /** `player.score || 0` for a populated member; a member without a document adds nothing. */
  function ScoreOrZero(docs: Docs, id: PlayerId): int
  {
    if id in docs && docs[id].Some? then docs[id].value else 0
  }

  /** Documents without a score field add up to 0. */
  lemma {:induction false} ReduceWithoutScores(ids: seq<PlayerId>, docs: Docs)
    requires forall id :: id in docs ==> docs[id].None?
    ensures ReduceScores(ids, docs) == 0
  {
    if ids != [] {
      ReduceWithoutScores(ids[1..], docs);
    }
  }

  /** The documents as populate("teams.players", "name") yields them: no score field. */
  function NameOnly(players: map<PlayerId, Player>): (docs: Docs)
    ensures docs.Keys == players.Keys && forall id :: id in docs ==> docs[id].None?
  {
    map id | id in players :: None
  }

  /** The documents when the projection also selects `score`. */
  function WithScore(players: map<PlayerId, Player>): (docs: Docs)
    ensures docs.Keys == players.Keys && forall id :: id in docs ==> docs[id] == Some(players[id].score)
  {
    map id | id in players :: Some(players[id].score)
  }

  /** The handler as written: the winning team's members are populated with their names only. */
  function WinningScoreAsWritten(t: Tournament, players: map<PlayerId, Player>): int
  {
    match WinningTeam(t)
    case None => 0
    case Some(team) => ReduceScores(team.players, NameOnly(players))
  }

  /** As written, the reported winning score is 0 whatever the members have scored. */
  lemma {:induction false} AsWrittenIsZero(t: Tournament, players: map<PlayerId, Player>)
    ensures WinningScoreAsWritten(t, players) == 0
  {
    if WinningTeam(t).Some? {
      ReduceWithoutScores(WinningTeam(t).value.players, NameOnly(players));
    }
  }

  /** The intended winning score: the members' stored scores are summed. */
  function WinningScore(t: Tournament, players: map<PlayerId, Player>): (s: int)
    ensures WinningTeam(t).None? ==> s == 0
  {
    match WinningTeam(t)
    case None => 0
    case Some(team) => ReduceScores(team.players, WithScore(players))
  }

  /** The members of ids that have a stored player, counted with repetition. */
  function Present(ids: seq<PlayerId>, players: map<PlayerId, Player>): nat
  {
    if ids == [] then 0 else (if ids[0] in players then 1 else 0) + Present(ids[1..], players)
  }

  lemma CreditedScore(id: PlayerId, team: set<PlayerId>, players: map<PlayerId, Player>, s: int)
    requires id in team
    ensures ScoreOrZero(WithScore(Credit(players, team, s)), id) ==
      ScoreOrZero(WithScore(players), id) + (if id in players then s else 0)
  {
    var before, after := WithScore(players), WithScore(Credit(players, team, s));
    if id in players {
      assert after[id] == Some(players[id].score + s);
    } else {
      assert id !in after && id !in before;
    }
  }

  /** Crediting a team's members with s raises their summed score by s per present member. */
  lemma {:induction false} ReduceAfterCredit(ids: seq<PlayerId>, team: set<PlayerId>, players: map<PlayerId, Player>, s: int)
    requires forall i :: 0 <= i < |ids| ==> ids[i] in team
    ensures ReduceScores(ids, WithScore(Credit(players, team, s))) == ReduceScores(ids, WithScore(players)) + s * Present(ids, players)
  {
    if ids != [] {
      ReduceAfterCredit(ids[1..], team, players, s);
      CreditedScore(ids[0], team, players, s);
    }
  }

  /**
   * Recording a score s for the winning team (record-scores) raises the intended winning score by
   * s for every member that has a stored player.
   */
  lemma WinningScoreAfterCredit(t: Tournament, players: map<PlayerId, Player>, s: int)
    requires WinningTeam(t).Some?
    ensures WinningScore(t, Credit(players, Members(WinningTeam(t).value), s)) ==
      WinningScore(t, players) + s * Present(WinningTeam(t).value.players, players)
  {
    var team := WinningTeam(t).value;
    ReduceAfterCredit(team.players, Members(team), players, s);
  }

  /** One member with 5 points: the intended winning score is 5, the reported one 0. */
  lemma WinningScoreDiscrepancy(a: PlayerId, name: string, g: GameId)
    ensures var t := Tournament(name, g, [a], [Team(1, [a])], true, Some(1), 0);
      var players := map[a := Player(a, name, 1, 5, g)];
      WinningScore(t, players) == 5 && WinningScoreAsWritten(t, players) == 0
  {
    var t := Tournament(name, g, [a], [Team(1, [a])], true, Some(1), 0);
    var players := map[a := Player(a, name, 1, 5, g)];
    assert FindTeamIndex(t.teams, 1) == 0;
    assert WinningTeam(t) == Some(Team(1, [a]));
    assert [a][1..] == [];
    assert WithScore(players)[a] == Some(5);
    assert ReduceScores([a], WithScore(players)) == 5 + ReduceScores([], WithScore(players));
    AsWrittenIsZero(t, players);
  }
}
