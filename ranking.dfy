/**
 * The ranking aggregation: players are grouped by display name; each group's scores are summed
 * and its distinct games counted; groups are listed by total score, highest first.
 */
module Ranking {
  import opened Common

  datatype Entry = Entry(name: string, totalScore: int, gamesCount: nat)

  predicate NoDuplicates(ns: seq<string>)
  {
    forall i, j :: 0 <= i < j < |ns| ==> ns[i] != ns[j]
  }

  /** The distinct player names (the `_id` of the $group stage), in order of first appearance. */
  function Names(ps: seq<Player>): (r: seq<string>)
    ensures NoDuplicates(r)
    ensures forall n :: n in r <==> exists i :: 0 <= i < |ps| && ps[i].name == n
  {
    if ps == [] then []
    else
      var init, p := ps[..|ps| - 1], ps[|ps| - 1];
      var prior := Names(init);
      assert forall i :: 0 <= i < |init| ==> init[i] == ps[i];
      if p.name in prior then prior else prior + [p.name]
  }

  /** $sum of the scores of the players called n. */
  function TotalScore(ps: seq<Player>, n: string): int
  {
    if ps == [] then 0
    else TotalScore(ps[..|ps| - 1], n) + (if ps[|ps| - 1].name == n then ps[|ps| - 1].score else 0)
  }

  /** $addToSet of the games of the players called n. */
  function Games(ps: seq<Player>, n: string): (r: set<GameId>)
    ensures forall g :: g in r <==> exists i :: 0 <= i < |ps| && ps[i].name == n && ps[i].gameId == g
  {
    if ps == [] then {}
    else
      var init, p := ps[..|ps| - 1], ps[|ps| - 1];
      assert forall i :: 0 <= i < |init| ==> init[i] == ps[i];
      Games(init, n) + (if p.name == n then {p.gameId} else {})
  }

  /** The $group and $project stages: one entry per distinct name. */
  function Group(ps: seq<Player>): (r: seq<Entry>)
    ensures |r| == |Names(ps)|
  {
    GroupOf(ps, Names(ps))
  }

  function GroupOf(ps: seq<Player>, ns: seq<string>): (r: seq<Entry>)
    ensures |r| == |ns| && forall k :: 0 <= k < |ns| ==> r[k].name == ns[k]
    ensures forall k :: 0 <= k < |ns| ==> r[k] == Entry(ns[k], TotalScore(ps, ns[k]), |Games(ps, ns[k])|)
  {
    seq(|ns|, k requires 0 <= k < |ns| => Entry(ns[k], TotalScore(ps, ns[k]), |Games(ps, ns[k])|))
  }

  function SumTotals(es: seq<Entry>): int
  {
    if es == [] then 0 else es[0].totalScore + SumTotals(es[1..])
  }

  function SumScores(ps: seq<Player>): int
  {
    if ps == [] then 0 else SumScores(ps[..|ps| - 1]) + ps[|ps| - 1].score
  }

  predicate SortedDesc(es: seq<Entry>)
  {
    forall i, j :: 0 <= i < j < |es| ==> es[i].totalScore >= es[j].totalScore
  }

  predicate UniqueNames(es: seq<Entry>)
  {
    forall i, j :: 0 <= i < j < |es| ==> es[i].name != es[j].name
  }

  /** Inserts e before the first entry with a lower total. */
  function Insert(e: Entry, s: seq<Entry>): (r: seq<Entry>)
    ensures multiset(r) == multiset(s) + multiset{e}
    ensures SumTotals(r) == SumTotals(s) + e.totalScore
  {
    if s == [] then [e]
    else if e.totalScore >= s[0].totalScore then [e] + s
    else
      assert s == [s[0]] + s[1..];
      [s[0]] + Insert(e, s[1..])
  }

  /** Every entry after insertion is the inserted one or an entry at some index of the old list. */
  lemma InsertFrom(e: Entry, s: seq<Entry>, x: Entry)
    requires x in Insert(e, s)
    ensures x == e || exists k :: 0 <= k < |s| && s[k] == x
  {
    assert x in multiset(Insert(e, s));
    if x != e {
      assert x in multiset(s);
      assert x in s;
    }
  }

  /** An entry that stays in front of an insertion is above everything inserted behind it. */
  lemma HeadAbove(e: Entry, s: seq<Entry>)
    requires SortedDesc(s) && s != [] && e.totalScore < s[0].totalScore
    ensures forall x :: x in Insert(e, s[1..]) ==> s[0].totalScore >= x.totalScore
  {
    forall x | x in Insert(e, s[1..])
      ensures s[0].totalScore >= x.totalScore
    {
      InsertFrom(e, s[1..], x);
      if x != e {
        var k :| 0 <= k < |s[1..]| && s[1..][k] == x;
        assert s[k + 1] == x;
      }
    }
  }

  /** ... and, when names are distinct and new, differs in name from everything behind it. */
  lemma HeadDistinct(e: Entry, s: seq<Entry>)
    requires UniqueNames(s) && s != [] && forall i :: 0 <= i < |s| ==> s[i].name != e.name
    ensures forall x :: x in Insert(e, s[1..]) ==> s[0].name != x.name
  {
    forall x | x in Insert(e, s[1..])
      ensures s[0].name != x.name
    {
      InsertFrom(e, s[1..], x);
      if x != e {
        var k :| 0 <= k < |s[1..]| && s[1..][k] == x;
        assert s[k + 1] == x;
      }
    }
  }

  lemma SortedTail(s: seq<Entry>)
    requires SortedDesc(s) && s != []
    ensures SortedDesc(s[1..])
  {
    forall i, j | 0 <= i < j < |s| - 1
      ensures s[1..][i].totalScore >= s[1..][j].totalScore
    {
      assert s[1..][i] == s[i + 1] && s[1..][j] == s[j + 1];
    }
  }

  lemma {:induction false} InsertSorted(e: Entry, s: seq<Entry>)
    requires SortedDesc(s)
    ensures SortedDesc(Insert(e, s))
  {
    if s != [] && e.totalScore < s[0].totalScore {
      var tail := s[1..];
      var rest := Insert(e, tail);
      SortedTail(s);
      InsertSorted(e, tail);
      HeadAbove(e, s);
      var r := [s[0]] + rest;
      assert Insert(e, s) == r;
      forall i, j | 0 <= i < j < |r|
        ensures r[i].totalScore >= r[j].totalScore
      {
        assert r[j] == rest[j - 1];
        if i > 0 {
          assert r[i] == rest[i - 1];
        }
      }
    }
  }

  lemma {:induction false} InsertUnique(e: Entry, s: seq<Entry>)
    requires UniqueNames(s) && forall i :: 0 <= i < |s| ==> s[i].name != e.name
    ensures UniqueNames(Insert(e, s))
  {
    if s != [] && e.totalScore < s[0].totalScore {
      var tail := s[1..];
      var rest := Insert(e, tail);
      assert UniqueNames(tail);
      InsertUnique(e, tail);
      HeadDistinct(e, s);
      var r := [s[0]] + rest;
      assert Insert(e, s) == r;
      forall i, j | 0 <= i < j < |r|
        ensures r[i].name != r[j].name
      {
        assert r[j] == rest[j - 1];
        if i > 0 {
          assert r[i] == rest[i - 1];
        }
      }
    }
  }

  /** The $sort stage, { totalScore: -1 }. */
  function SortByScore(es: seq<Entry>): (r: seq<Entry>)
    ensures multiset(r) == multiset(es)
    ensures SumTotals(r) == SumTotals(es)
  {
    if es == [] then []
    else
      assert es == [es[0]] + es[1..];
      Insert(es[0], SortByScore(es[1..]))
  }

  lemma {:induction false} SortSorted(es: seq<Entry>)
    ensures SortedDesc(SortByScore(es))
  {
    if es != [] {
      SortSorted(es[1..]);
      InsertSorted(es[0], SortByScore(es[1..]));
    }
  }

  lemma {:induction false} SortUnique(es: seq<Entry>)
    requires UniqueNames(es)
    ensures UniqueNames(SortByScore(es))
  {
    if es != [] {
      var rest := SortByScore(es[1..]);
      SortUnique(es[1..]);
      assert es == [es[0]] + es[1..];
      forall i | 0 <= i < |rest|
        ensures rest[i].name != es[0].name
      {
        assert rest[i] in multiset(es[1..]);
      }
      InsertUnique(es[0], rest);
    }
  }

  /** The whole pipeline. */
  function Rank(ps: seq<Player>): seq<Entry>
  {
    SortByScore(Group(ps))
  }

  /** One entry per distinct name, and every name of a player has its entry. */
  lemma RankOnePerName(ps: seq<Player>)
    ensures UniqueNames(Rank(ps))
    ensures |Rank(ps)| == |Names(ps)|
    ensures forall e :: e in Rank(ps) ==> e.name in Names(ps)
    ensures forall n :: n in Names(ps) ==> exists k :: 0 <= k < |Rank(ps)| && Rank(ps)[k].name == n
  {
    var g, r := Group(ps), Rank(ps);
    SortUnique(g);
    assert |r| == |g| by {
      assert |multiset(r)| == |multiset(g)|;
    }
    forall e | e in r
      ensures e.name in Names(ps)
    {
      assert e in multiset(r);
    }
    forall n | n in Names(ps)
      ensures exists k :: 0 <= k < |r| && r[k].name == n
    {
      var ns := Names(ps);
      var j :| 0 <= j < |ns| && ns[j] == n;
      assert g[j] in multiset(g);
      assert g[j] in r;
    }
  }

  /** Each entry carries the sum of that name's scores and the number of distinct games it played. */
  lemma RankEntries(ps: seq<Player>)
    ensures forall e :: e in Rank(ps) ==>
      e.totalScore == TotalScore(ps, e.name) && e.gamesCount == |Games(ps, e.name)|
  {
    var g, r := Group(ps), Rank(ps);
    forall e | e in r
      ensures e in g
    {
      assert e in multiset(r);
    }
  }

  lemma RankSorted(ps: seq<Player>)
    ensures SortedDesc(Rank(ps))
  {
    SortSorted(Group(ps));
  }

  /** Sum of TotalScore over a list of names. */
  function SumOver(ns: seq<string>, ps: seq<Player>): int
  {
    if ns == [] then 0 else TotalScore(ps, ns[0]) + SumOver(ns[1..], ps)
  }

  lemma {:induction false} SumTotalsGroup(ps: seq<Player>, ns: seq<string>)
    ensures SumTotals(GroupOf(ps, ns)) == SumOver(ns, ps)
  {
    if ns != [] {
      assert GroupOf(ps, ns)[1..] == GroupOf(ps, ns[1..]);
      SumTotalsGroup(ps, ns[1..]);
    }
  }

  lemma {:induction false} SumOverSnocName(ns: seq<string>, n: string, ps: seq<Player>)
    ensures SumOver(ns + [n], ps) == SumOver(ns, ps) + TotalScore(ps, n)
  {
    if ns != [] {
      assert (ns + [n])[1..] == ns[1..] + [n];
      SumOverSnocName(ns[1..], n, ps);
    }
  }

  lemma {:induction false} SumOverSnocPlayer(ns: seq<string>, init: seq<Player>, p: Player)
    requires NoDuplicates(ns)
    ensures SumOver(ns, init + [p]) == SumOver(ns, init) + (if p.name in ns then p.score else 0)
  {
    if ns != [] {
      assert (init + [p])[..|init|] == init;
      SumOverSnocPlayer(ns[1..], init, p);
      assert ns == [ns[0]] + ns[1..];
    }
  }

  lemma {:induction false} TotalScoreAbsent(ps: seq<Player>, n: string)
    requires n !in Names(ps)
    ensures TotalScore(ps, n) == 0
  {
    if ps != [] {
      var init := ps[..|ps| - 1];
      assert n !in Names(init);
      TotalScoreAbsent(init, n);
    }
  }

  lemma {:induction false} SumOverNames(ps: seq<Player>)
    ensures SumOver(Names(ps), ps) == SumScores(ps)
  {
    if ps != [] {
      var init, p := ps[..|ps| - 1], ps[|ps| - 1];
      assert ps == init + [p];
      var prior := Names(init);
      SumOverNames(init);
      SumOverSnocPlayer(prior, init, p);
      if p.name !in prior {
        SumOverSnocName(prior, p.name, ps);
        TotalScoreAbsent(init, p.name);
      }
    }
  }

  /** Ranking neither creates nor loses points: the totals add up to the sum of all scores. */
  lemma RankSum(ps: seq<Player>)
    ensures SumTotals(Rank(ps)) == SumScores(ps)
  {
    SumTotalsGroup(ps, Names(ps));
    SumOverNames(ps);
  }
}
