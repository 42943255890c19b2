/**
 * Recording round scores (record-scores handler): for each (teamNumber, score) entry, in order,
 * the first team whose number is strictly equal gets `score` added to each of its distinct
 * members; entries naming no team are skipped.
 */
module Scores {
  import opened Common

  datatype ScoreEntry = ScoreEntry(teamNumber: int, score: int)

  /** The index of the team `teams.find(t => t.teamNumber === number)` returns, or -1 when it returns none. */
  function FindTeamIndex(teams: seq<Team>, number: int): (k: int)
    ensures -1 <= k < |teams|
    ensures k == -1 <==> forall j :: 0 <= j < |teams| ==> teams[j].teamNumber != number
    ensures k >= 0 ==> teams[k].teamNumber == number && forall j :: 0 <= j < k ==> teams[j].teamNumber != number
  {
    if teams == [] then -1
    else if teams[0].teamNumber == number then 0
    else
      var k := FindTeamIndex(teams[1..], number);
      if k == -1 then -1 else k + 1
  }

  /** The members of a team as a set: updateMany with `$in` touches each id once. */
  function Members(team: Team): (r: set<PlayerId>)
    ensures forall id :: id in r <==> id in team.players
  {
    set i | 0 <= i < |team.players| :: team.players[i]
  }

  /** updateMany({ _id: { $in: ids } }, { $inc: { score } }): ids not in the store are ignored. */
  function Credit(players: map<PlayerId, Player>, ids: set<PlayerId>, score: int): (r: map<PlayerId, Player>)
    ensures r.Keys == players.Keys
    ensures forall p :: p in players && p in ids ==> r[p] == players[p].(score := players[p].score + score)
    ensures forall p :: p in players && p !in ids ==> r[p] == players[p]
  {
    map p | p in players :: if p in ids then players[p].(score := players[p].score + score) else players[p]
  }

  /** One entry of the request. */
  function ApplyEntry(players: map<PlayerId, Player>, teams: seq<Team>, e: ScoreEntry): (r: map<PlayerId, Player>)
    ensures r.Keys == players.Keys
  {
    var k := FindTeamIndex(teams, e.teamNumber);
    if k == -1 then players else Credit(players, Members(teams[k]), e.score)
  }

  /** All entries, in order. */
  function ApplyAll(players: map<PlayerId, Player>, teams: seq<Team>, entries: seq<ScoreEntry>): (r: map<PlayerId, Player>)
    ensures r.Keys == players.Keys
  {
    if entries == [] then players
    else ApplyEntry(ApplyAll(players, teams, entries[..|entries| - 1]), teams, entries[|entries| - 1])
  }

  /** What one entry credits player p with: its score when p is in the first team with that number. */
  function Gain(teams: seq<Team>, e: ScoreEntry, p: PlayerId): int
  {
    var k := FindTeamIndex(teams, e.teamNumber);
    if k != -1 && p in teams[k].players then e.score else 0
  }

  /** The total credited to p by a list of entries: the sum of its gains. */
  function Earned(teams: seq<Team>, entries: seq<ScoreEntry>, p: PlayerId): int
  {
    if entries == [] then 0 else Gain(teams, entries[0], p) + Earned(teams, entries[1..], p)
  }

  /**
   * Recording scores changes nothing but scores, and each stored player's new score is its old
   * score plus the sum of the scores of the entries whose matched team contains it.
   */
  lemma {:induction false} ApplyAllScores(players: map<PlayerId, Player>, teams: seq<Team>, entries: seq<ScoreEntry>)
    ensures forall p :: p in players ==>
      ApplyAll(players, teams, entries)[p] == players[p].(score := players[p].score + Earned(teams, entries, p))
  {
    if entries != [] {
      var init, last := entries[..|entries| - 1], entries[|entries| - 1];
      ApplyAllScores(players, teams, init);
      EarnedSnoc(teams, init, last);
      assert init + [last] == entries;
      var before := ApplyAll(players, teams, init);
      forall p | p in players
        ensures ApplyAll(players, teams, entries)[p] == players[p].(score := players[p].score + Earned(teams, entries, p))
      {
        var k := FindTeamIndex(teams, last.teamNumber);
        if k != -1 {
          assert p in Members(teams[k]) <==> p in teams[k].players;
        }
      }
    }
  }

  lemma {:induction false} EarnedSnoc(teams: seq<Team>, entries: seq<ScoreEntry>, e: ScoreEntry)
    ensures forall p :: Earned(teams, entries + [e], p) == Earned(teams, entries, p) + Gain(teams, e, p)
  {
    if entries != [] {
      assert (entries + [e])[1..] == entries[1..] + [e];
      EarnedSnoc(teams, entries[1..], e);
    } else {
      assert ([] + [e])[1..] == [];
    }
  }

  /** Entries are applied one after another: recording a + b is recording a, then b. */
  lemma {:induction false} ApplyAllConcat(players: map<PlayerId, Player>, teams: seq<Team>, a: seq<ScoreEntry>, b: seq<ScoreEntry>)
    ensures ApplyAll(players, teams, a + b) == ApplyAll(ApplyAll(players, teams, a), teams, b)
    decreases |b|
  {
    if b == [] {
      assert a + b == a;
    } else {
      var init, last := b[..|b| - 1], b[|b| - 1];
      assert (a + b)[..|a + b| - 1] == a + init;
      ApplyAllConcat(players, teams, a, init);
    }
  }

  /** An entry whose team number matches no team changes nothing. */
  lemma UnmatchedEntrySkipped(players: map<PlayerId, Player>, teams: seq<Team>, e: ScoreEntry)
    requires forall j :: 0 <= j < |teams| ==> teams[j].teamNumber != e.teamNumber
    ensures ApplyAll(players, teams, [e]) == players
  {
    assert [e][..0] == [];
  }

  /** A player in no team matched by an entry keeps its score. */
  lemma UntouchedPlayersUnchanged(players: map<PlayerId, Player>, teams: seq<Team>, entries: seq<ScoreEntry>, p: PlayerId)
    requires p in players
    requires forall i :: 0 <= i < |entries| ==> Gain(teams, entries[i], p) == 0
    ensures ApplyAll(players, teams, entries)[p] == players[p]
  {
    ApplyAllScores(players, teams, entries);
    EarnedZero(teams, entries, p);
  }

  lemma {:induction false} EarnedZero(teams: seq<Team>, entries: seq<ScoreEntry>, p: PlayerId)
    requires forall i :: 0 <= i < |entries| ==> Gain(teams, entries[i], p) == 0
    ensures Earned(teams, entries, p) == 0
  {
    if entries != [] {
      EarnedZero(teams, entries[1..], p);
    }
  }

  /**
   * Recording is additive, not idempotent: the same entry twice credits each member of its
   * team twice.
   */
  lemma RepeatedEntryAccumulates(players: map<PlayerId, Player>, teams: seq<Team>, e: ScoreEntry, p: PlayerId)
    requires p in players
    requires FindTeamIndex(teams, e.teamNumber) != -1 && p in teams[FindTeamIndex(teams, e.teamNumber)].players
    ensures ApplyAll(players, teams, [e, e])[p].score == players[p].score + 2 * e.score
  {
    ApplyAllScores(players, teams, [e, e]);
    assert [e, e][1..] == [e];
    assert [e][1..] == [];
    assert Gain(teams, e, p) == e.score;
    assert Earned(teams, [e], p) == e.score;
    assert Earned(teams, [e, e], p) == 2 * e.score;
  }

  lemma EarnedPair(teams: seq<Team>, e1: ScoreEntry, e2: ScoreEntry)
    ensures forall p :: Earned(teams, [e1, e2], p) == Gain(teams, e1, p) + Gain(teams, e2, p)
  {
    forall p
      ensures Earned(teams, [e1, e2], p) == Gain(teams, e1, p) + Gain(teams, e2, p)
    {
      assert [e1, e2][1..] == [e2];
      assert [e2][1..] == [];
      assert Earned(teams, [e2], p) == Gain(teams, e2, p) + Earned(teams, [], p);
    }
  }

  /**
   * Teams 1 = [A, B] and 2 = [C, D] with entries (1, 5) and (2, -3): A and B gain 5,
   * C and D lose 3.
   */
  lemma TwoTeamsExample(players: map<PlayerId, Player>, a: PlayerId, b: PlayerId, c: PlayerId, d: PlayerId)
    requires a in players && b in players && c in players && d in players
    requires a != c && a != d && b != c && b != d
    ensures var r := ApplyAll(players, [Team(1, [a, b]), Team(2, [c, d])], [ScoreEntry(1, 5), ScoreEntry(2, -3)]);
      r[a].score == players[a].score + 5 && r[b].score == players[b].score + 5 &&
      r[c].score == players[c].score - 3 && r[d].score == players[d].score - 3
  {
    var teams := [Team(1, [a, b]), Team(2, [c, d])];
    var entries := [ScoreEntry(1, 5), ScoreEntry(2, -3)];
    ApplyAllScores(players, teams, entries);
    assert FindTeamIndex(teams, 1) == 0;
    assert FindTeamIndex(teams, 2) == 1;
    EarnedPair(teams, entries[0], entries[1]);
  }
}
