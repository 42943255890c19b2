/**
 * The tournament and player handlers over an in-memory store: the two collections are maps
 * from document id to document, and each handler is a method that answers with an Outcome and
 * changes the collections as the handler's database writes do.
 */
module Store {
  import opened Common
  import opened Seqs
  import opened Parsing
  import opened Tiers
  import opened Balancer
  import opened Scores
  import opened TeamEditor

  /** findById(...).populate("players"): the registered ids that have a player document, in order. */
  function Populate(ids: seq<PlayerId>, players: map<PlayerId, Player>): (r: seq<Player>)
    ensures |r| <= |ids|
  {
    if ids == [] then []
    else
      var init, id := ids[..|ids| - 1], ids[|ids| - 1];
      assert forall i :: 0 <= i < |init| ==> init[i] == ids[i];
      Populate(init, players) + (if id in players then [players[id]] else [])
  }

  /** Every populated player is the stored document of a registered id, and every registered id with a document is populated. */
  lemma {:induction false} PopulateMembers(ids: seq<PlayerId>, players: map<PlayerId, Player>)
    ensures forall p :: p in Populate(ids, players) ==> exists i :: 0 <= i < |ids| && ids[i] in players && p == players[ids[i]]
    ensures forall i :: 0 <= i < |ids| && ids[i] in players ==> players[ids[i]] in Populate(ids, players)
    ensures Populate(ids, players) == [] <==> forall i :: 0 <= i < |ids| ==> ids[i] !in players
  {
    if ids != [] {
      var init := ids[..|ids| - 1];
      PopulateMembers(init, players);
      assert forall i :: 0 <= i < |init| ==> init[i] == ids[i];
    }
  }

  /** Populating a concatenation populates each part, in order: each id is resolved on its own. */
  lemma {:induction false} PopulateConcat(a: seq<PlayerId>, b: seq<PlayerId>, players: map<PlayerId, Player>)
    ensures Populate(a + b, players) == Populate(a, players) + Populate(b, players)
    decreases |b|
  {
    if b == [] {
      assert a + b == a;
    } else {
      var init, id := b[..|b| - 1], b[|b| - 1];
      assert (a + b)[..|a + b| - 1] == a + init;
      assert (a + b)[|a + b| - 1] == id;
      PopulateConcat(a, init, players);
    }
  }

  /**
   * When every registered id has a document, the roster is those documents, one per registered
   * id and in registration order: an id registered twice is populated twice.
   */
  lemma {:induction false} PopulateAllRegistered(ids: seq<PlayerId>, players: map<PlayerId, Player>)
    requires forall i :: 0 <= i < |ids| ==> ids[i] in players
    ensures |Populate(ids, players)| == |ids|
    ensures forall i :: 0 <= i < |ids| ==> Populate(ids, players)[i] == players[ids[i]]
  {
    if ids != [] {
      var init := ids[..|ids| - 1];
      PopulateAllRegistered(init, players);
    }
  }

  /** The stored player documents sit under their own ids, as MongoDB keys a document by its _id. */
  predicate Keyed(players: map<PlayerId, Player>)
  {
    forall k :: k in players ==> players[k].id == k
  }

  /**
   * In a keyed store, when every registered id has a document, the generated teams hold exactly
   * the registered ids, each as often as it is registered.
   */
  lemma GeneratedFromRegistered(ids: seq<PlayerId>, players: map<PlayerId, Player>, n: int)
    requires n >= 1 && Keyed(players)
    requires forall i :: 0 <= i < |ids| ==> ids[i] in players
    ensures multiset(Flat(TeamLists(GeneratedTeams(Populate(ids, players), n)))) == multiset(ids)
  {
    RegisteredIds(ids, players);
    GeneratedTeamsShape(Populate(ids, players), n);
  }

  /** In a keyed store where every registered id has a document, the roster's ids are the registered ids. */
  lemma RegisteredIds(ids: seq<PlayerId>, players: map<PlayerId, Player>)
    requires Keyed(players)
    requires forall i :: 0 <= i < |ids| ==> ids[i] in players
    ensures Ids(Populate(ids, players)) == ids
  {
    PopulateAllRegistered(ids, players);
  }

  /** A supplied, non-empty string: the values of a text field that JavaScript treats as true. */
  predicate Truthy(text: Option<string>)
  {
    text.Some? && text.value != ""
  }

  /** teams.some(team => team.teamNumber === number): an absent number equals no team number. */
  predicate HasTeam(teams: seq<Team>, number: Option<int>)
    ensures HasTeam(teams, number) <==> number.Some? && FindTeamIndex(teams, number.value) != -1
  {
    number.Some? && exists j :: 0 <= j < |teams| && teams[j].teamNumber == number.value
  }

  /** The member lists of a sequence of teams. */
  function TeamLists(teams: seq<Team>): (r: seq<seq<PlayerId>>)
    ensures |r| == |teams| && forall i :: 0 <= i < |teams| ==> r[i] == teams[i].players
  {
    seq(|teams|, i requires 0 <= i < |teams| => teams[i].players)
  }

  /** The tier queues of a roster: one per tier, in ascending tier order, in roster order. */
  ghost function TierQueues(roster: seq<Player>): (r: seq<seq<PlayerId>>)
    ensures |Flat(r)| == |roster|
  {
    TierQueuesArePlayers(roster);
    Column(roster, SortedTiers(TiersOf(roster)))
  }

  /** Together the tier queues hold exactly the rostered players' ids. */
  lemma TierQueuesArePlayers(roster: seq<Player>)
    ensures multiset(Flat(Column(roster, SortedTiers(TiersOf(roster))))) == multiset(Ids(roster))
    ensures |Flat(Column(roster, SortedTiers(TiersOf(roster))))| == |roster|
  {
    var tiers := SortedTiers(TiersOf(roster));
    assert forall i :: 0 <= i < |roster| ==> roster[i].tier in TiersOf(roster);
    ColumnIsPermutation(roster, tiers);
    assert |multiset(Flat(Column(roster, tiers)))| == |multiset(Ids(roster))|;
  }

  /**
   * The teams generate-teams stores for a roster and a team count: the tier queues dealt
   * round-robin into n teams of at most ceil(|roster| / n) players, numbered 1..n.
   */
  ghost function GeneratedTeams(roster: seq<Player>, n: int): seq<Team>
    requires n >= 1
  {
    NumberTeams(Dealt(TierQueues(roster), n, |roster|))
  }

  /**
   * What generate-teams promises: n teams numbered 1..n, none above ceil(|roster| / n) players,
   * and together they hold every rostered player exactly once.
   */
  lemma GeneratedTeamsShape(roster: seq<Player>, n: int)
    requires n >= 1
    ensures var r := GeneratedTeams(roster, n);
      |r| == n &&
      (forall i :: 0 <= i < n ==> r[i].teamNumber == i + 1 && |r[i].players| <= Cap(|roster|, n)) &&
      multiset(Flat(TeamLists(r))) == multiset(Ids(roster))
  {
    var start := Deal(TierQueues(roster), EmptyTeams(n), 0);
    var d := Rounds(start, Cap(|roster|, n), |roster|);
    assert TeamLists(NumberTeams(d.teams)) == d.teams;
    assert multiset(Flat(d.teams)) == Pool(d);
    TierQueuesArePlayers(roster);
    assert Pool(start) == multiset(Flat(TierQueues(roster)));
  }

  /** The body of generate-teams after the lookups: group, sort the tiers, deal, number. */
  method Generate(roster: seq<Player>, numberOfTeams: int) returns (newTeams: seq<Team>)
    requires numberOfTeams >= 1
    ensures newTeams == GeneratedTeams(roster, numberOfTeams)
  {
    var tierMap := GroupByTier(roster);
    var tiers := SortTiers(tierMap.Keys);
    SortedUnique(tiers, SortedTiers(TiersOf(roster)));
    var queues := seq(|tiers|, k requires 0 <= k < |tiers| => tierMap[tiers[k]]);
    assert queues == Column(roster, tiers);
    assert queues == TierQueues(roster);
    var teamsArray := Balance(queues, numberOfTeams, |roster|);
    newTeams := NumberTeams(teamsArray);
  }

  /** Numbered teams are found by their numbers, 1..N, and by no other. */
  lemma {:induction false} NumberedTeamsFound(lists: seq<seq<PlayerId>>, number: int)
    ensures FindTeamIndex(NumberTeams(lists), number) == if 1 <= number <= |lists| then number - 1 else -1
  {
    var teams := NumberTeams(lists);
    if 1 <= number <= |lists| {
      assert teams[number - 1].teamNumber == number;
    }
  }

  /** After generate-teams, finish accepts exactly the winners 1..N. */
  lemma GeneratedWinners(roster: seq<Player>, n: int, winner: Option<int>)
    requires n >= 1
    ensures HasTeam(GeneratedTeams(roster, n), winner) <==> winner.Some? && 1 <= winner.value <= n
  {
    var start := Deal(TierQueues(roster), EmptyTeams(n), 0);
    var lists := Rounds(start, Cap(|roster|, n), |roster|).teams;
    if winner.Some? {
      NumberedTeamsFound(lists, winner.value);
    }
  }

  /** The length of Array.from({ length: n }) for an integer n: ToLength turns a negative length into 0. */
  function TeamSlots(n: int): (r: nat)
    ensures r == 0 <==> n < 1
    ensures n >= 0 ==> r == n
  {
    if n < 0 then 0 else n
  }

  /**
   * As written, generate-teams never answers for a parsed count below 1: the team array is
   * empty, so a pass of the `for` over the teams deals nobody, and `while (distributedCount <
   * totalPlayers)` repeats it forever once there is a player to deal.
   */
  lemma CountBelowOneSpins(numberOfTeams: TeamCountInput, queues: seq<seq<PlayerId>>, cap: nat, total: nat)
    requires TeamCount(numberOfTeams) < 1
    ensures var d := Deal(queues, EmptyTeams(TeamSlots(TeamCount(numberOfTeams))), 0);
      PassFrom(d, 0, cap, total) == d
  {
  }

  /** `new Array(n)`, behind Array.from({ length: n }), throws a RangeError for n >= 2^32. */
  const ArrayLengthLimit: int := 0x1_0000_0000

  class Store {
    var tournaments: map<TournamentId, Tournament>
    var players: map<PlayerId, Player>

    /**
     * Every player document sits under its own id. The handlers that write players keep this;
     * the others leave the players unchanged.
     */
    ghost predicate Valid()
      reads this
    {
      Keyed(players)
    }

    constructor(tournaments0: map<TournamentId, Tournament>, players0: map<PlayerId, Player>)
      requires Keyed(players0)
      ensures Valid()
      ensures tournaments == tournaments0 && players == players0
    {
      tournaments := tournaments0;
      players := players0;
    }

    /**
     * POST /generate-teams/:tournamentId, with a count below 1 answered 400 and nothing saved
     * (`CountBelowOneSpins` shows the handler as written never answers). A count of
     * ArrayLengthLimit or more makes Array.from throw, and the handler answers 500 with nothing
     * saved.
     */
    method GenerateTeams(tournamentId: TournamentId, numberOfTeams: TeamCountInput) returns (outcome: Outcome)
      modifies this`tournaments
      ensures players == old(players)
      ensures tournamentId !in old(tournaments) ==> outcome == Err(NotFound) && tournaments == old(tournaments)
      ensures tournamentId in old(tournaments) && Populate(old(tournaments)[tournamentId].players, old(players)) == [] ==>
        outcome == Err(BadRequest) && tournaments == old(tournaments)
      ensures (tournamentId in old(tournaments) && Populate(old(tournaments)[tournamentId].players, old(players)) != [] &&
               TeamCount(numberOfTeams) < 1) ==>
        outcome == Err(BadRequest) && tournaments == old(tournaments)
      ensures (tournamentId in old(tournaments) && Populate(old(tournaments)[tournamentId].players, old(players)) != [] &&
               TeamCount(numberOfTeams) >= ArrayLengthLimit) ==>
        outcome == Err(ServerError) && tournaments == old(tournaments)
      ensures (tournamentId in old(tournaments) && Populate(old(tournaments)[tournamentId].players, old(players)) != [] &&
               1 <= TeamCount(numberOfTeams) < ArrayLengthLimit) ==>
        outcome == Ok &&
        tournaments == old(tournaments)[tournamentId := old(tournaments)[tournamentId].(teams :=
          GeneratedTeams(Populate(old(tournaments)[tournamentId].players, old(players)), TeamCount(numberOfTeams)))]
    {
      var n := TeamCount(numberOfTeams);
      if tournamentId !in tournaments {
        outcome := Err(NotFound);
      } else {
        var tournament := tournaments[tournamentId];
        var roster := Populate(tournament.players, players);
        if roster == [] {
          outcome := Err(BadRequest);
        } else if n < 1 {
          outcome := Err(BadRequest);
        } else if n >= ArrayLengthLimit {
          outcome := Err(ServerError);
        } else {
          var newTeams := Generate(roster, n);
          assert roster == Populate(old(tournaments)[tournamentId].players, old(players));
          tournaments := tournaments[tournamentId := tournament.(teams := newTeams)];
          outcome := Ok;
        }
      }
    }

    /**
     * POST /update-teams/:tournamentId: each submitted member becomes `p._id || p`; a member left
     * as a document without an id cannot be stored as an id and the save fails (HTTP 500).
     */
    method UpdateTeams(tournamentId: TournamentId, teams: seq<TeamInput>) returns (outcome: Outcome)
      modifies this`tournaments
      ensures players == old(players)
      ensures tournamentId !in old(tournaments) ==> outcome == Err(NotFound) && tournaments == old(tournaments)
      ensures tournamentId in old(tournaments) && ToTeams(NormalizeTeams(teams)).None? ==>
        outcome == Err(ServerError) && tournaments == old(tournaments)
      ensures tournamentId in old(tournaments) && ToTeams(NormalizeTeams(teams)).Some? ==>
        outcome == Ok &&
        tournaments == old(tournaments)[tournamentId := old(tournaments)[tournamentId].(teams := ToTeams(NormalizeTeams(teams)).value)]
    {
      if tournamentId !in tournaments {
        return Err(NotFound);
      }
      var tournament := tournaments[tournamentId];
      var updatedTeams := NormalizeTeams(teams);
      var stored := ToTeams(updatedTeams);
      if stored.None? {
        return Err(ServerError);
      }
      tournaments := tournaments[tournamentId := tournament.(teams := stored.value)];
      return Ok;
    }

    /**
     * POST /record-scores: the entries are applied in order; each adds its score to every stored
     * member of the first team with that number, and entries naming no team are skipped.
     */
    method RecordScores(tournamentId: TournamentId, teamScores: seq<ScoreEntry>) returns (outcome: Outcome)
      requires Valid()
      modifies this`players
      ensures Valid()
      ensures tournaments == old(tournaments)
      ensures tournamentId !in tournaments ==> outcome == Err(NotFound) && players == old(players)
      ensures tournamentId in tournaments ==>
        outcome == Ok && players == ApplyAll(old(players), tournaments[tournamentId].teams, teamScores)
    {
      if tournamentId !in tournaments {
        return Err(NotFound);
      }
      var teams := tournaments[tournamentId].teams;
      for k := 0 to |teamScores|
        invariant tournaments == old(tournaments)
        invariant players == ApplyAll(old(players), teams, teamScores[..k])
      {
        var entry := teamScores[k];
        assert teamScores[..k + 1][..k] == teamScores[..k];
        var index := FindTeamIndex(teams, entry.teamNumber);
        if index == -1 {
          continue;
        }
        players := Credit(players, Members(teams[index]), entry.score);
      }
      assert teamScores[..|teamScores|] == teamScores;
      ApplyAllScores(old(players), teams, teamScores);
      return Ok;
    }

    /**
     * POST /finish/:tournamentId: the winner must be the number of one of the tournament's teams
     * (a missing number matches none). There is no check that the tournament is still open.
     */
    method Finish(tournamentId: TournamentId, winnerTeamNumber: Option<int>) returns (outcome: Outcome)
      modifies this`tournaments
      ensures players == old(players)
      ensures tournamentId !in old(tournaments) ==> outcome == Err(NotFound) && tournaments == old(tournaments)
      ensures tournamentId in old(tournaments) && !HasTeam(old(tournaments)[tournamentId].teams, winnerTeamNumber) ==>
        outcome == Err(BadRequest) && tournaments == old(tournaments)
      ensures tournamentId in old(tournaments) && HasTeam(old(tournaments)[tournamentId].teams, winnerTeamNumber) ==>
        outcome == Ok &&
        tournaments == old(tournaments)[tournamentId :=
          old(tournaments)[tournamentId].(isFinished := true, winnerTeamNumber := winnerTeamNumber)]
    {
      if tournamentId !in tournaments {
        return Err(NotFound);
      }
      var tournament := tournaments[tournamentId];
      if winnerTeamNumber.None? || FindTeamIndex(tournament.teams, winnerTeamNumber.value) == -1 {
        return Err(BadRequest);
      }
      tournaments := tournaments[tournamentId := tournament.(isFinished := true, winnerTeamNumber := winnerTeamNumber)];
      return Ok;
    }

    /**
     * PUT /update/:tournamentId: refused for a finished tournament; otherwise a non-empty name, a
     * game and a player list (any list, the empty one included) replace the stored ones when
     * supplied, and the modification time is set.
     */
    method UpdateTournament(tournamentId: TournamentId, name: Option<string>, gameId: Option<GameId>,
                            playerIds: Option<seq<PlayerId>>, now: int) returns (outcome: Outcome)
      modifies this`tournaments
      ensures players == old(players)
      ensures tournamentId !in old(tournaments) ==> outcome == Err(NotFound) && tournaments == old(tournaments)
      ensures tournamentId in old(tournaments) && old(tournaments)[tournamentId].isFinished ==>
        outcome == Err(BadRequest) && tournaments == old(tournaments)
      ensures tournamentId in old(tournaments) && !old(tournaments)[tournamentId].isFinished ==>
        var t := old(tournaments)[tournamentId];
        outcome == Ok &&
        tournaments == old(tournaments)[tournamentId := t.(
          name := if Truthy(name) then name.value else t.name,
          gameId := if gameId.Some? then gameId.value else t.gameId,
          players := if playerIds.Some? then playerIds.value else t.players,
          updatedAt := now)]
    {
      if tournamentId !in tournaments {
        return Err(NotFound);
      }
      var tournament := tournaments[tournamentId];
      if tournament.isFinished {
        return Err(BadRequest);
      }
      if Truthy(name) {
        tournament := tournament.(name := name.value);
      }
      if gameId.Some? {
        tournament := tournament.(gameId := gameId.value);
      }
      if playerIds.Some? {
        tournament := tournament.(players := playerIds.value);
      }
      tournament := tournament.(updatedAt := now);
      tournaments := tournaments[tournamentId := tournament];
      return Ok;
    }

    /** DELETE /delete/:tournamentId: refused for a finished tournament. */
    method DeleteTournament(tournamentId: TournamentId) returns (outcome: Outcome)
      modifies this`tournaments
      ensures players == old(players)
      ensures tournamentId !in old(tournaments) ==> outcome == Err(NotFound) && tournaments == old(tournaments)
      ensures tournamentId in old(tournaments) && old(tournaments)[tournamentId].isFinished ==>
        outcome == Err(BadRequest) && tournaments == old(tournaments)
      ensures tournamentId in old(tournaments) && !old(tournaments)[tournamentId].isFinished ==>
        outcome == Ok && tournaments == old(tournaments) - {tournamentId}
    {
      if tournamentId !in tournaments {
        return Err(NotFound);
      }
      if tournaments[tournamentId].isFinished {
        return Err(BadRequest);
      }
      tournaments := tournaments - {tournamentId};
      return Ok;
    }

    /**
     * POST /update-score: both fields are required (an adjustment of 0 is accepted); the stored
     * score of the player grows by the adjustment.
     */
    method UpdateScore(playerId: Option<PlayerId>, scoreAdjustment: Option<int>) returns (outcome: Outcome)
      requires Valid()
      modifies this`players
      ensures Valid()
      ensures tournaments == old(tournaments)
      ensures playerId.None? || scoreAdjustment.None? ==> outcome == Err(BadRequest) && players == old(players)
      ensures playerId.Some? && scoreAdjustment.Some? && playerId.value !in old(players) ==>
        outcome == Err(NotFound) && players == old(players)
      ensures playerId.Some? && scoreAdjustment.Some? && playerId.value in old(players) ==>
        var p := old(players)[playerId.value];
        outcome == Ok && players == old(players)[playerId.value := p.(score := p.score + scoreAdjustment.value)]
    {
      if playerId.None? || scoreAdjustment.None? {
        return Err(BadRequest);
      }
      if playerId.value !in players {
        return Err(NotFound);
      }
      var player := players[playerId.value];
      players := players[playerId.value := player.(score := player.score + scoreAdjustment.value)];
      return Ok;
    }

    /**
     * PUT /update/:playerId: at least a non-empty name or a tier (0 included) is required; only
     * the supplied fields change.
     */
    method UpdatePlayer(playerId: PlayerId, name: Option<string>, tier: Option<int>) returns (outcome: Outcome)
      requires Valid()
      modifies this`players
      ensures Valid()
      ensures tournaments == old(tournaments)
      ensures !Truthy(name) && tier.None? ==> outcome == Err(BadRequest) && players == old(players)
      ensures (Truthy(name) || tier.Some?) && playerId !in old(players) ==>
        outcome == Err(NotFound) && players == old(players)
      ensures (Truthy(name) || tier.Some?) && playerId in old(players) ==>
        var p := old(players)[playerId];
        outcome == Ok &&
        players == old(players)[playerId := p.(
          name := if Truthy(name) then name.value else p.name,
          tier := if tier.Some? then tier.value else p.tier)]
    {
      if !Truthy(name) && tier.None? {
        return Err(BadRequest);
      }
      if playerId !in players {
        return Err(NotFound);
      }
      var player := players[playerId];
      if Truthy(name) {
        player := player.(name := name.value);
      }
      if tier.Some? {
        player := player.(tier := tier.value);
      }
      players := players[playerId := player];
      return Ok;
    }
  }
}
