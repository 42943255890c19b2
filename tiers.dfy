/**
 * The tier grouper of the generate-teams handler: registered players are pushed, in order,
 * onto one queue per tier, and the distinct tiers are sorted ascending.
 */
module Tiers {
  import opened Common
  import opened Seqs

  /** The ids of the players of tier t, in the order the players appear. */
  function IdsWithTier(ps: seq<Player>, t: int): seq<PlayerId>
  {
    if ps == [] then []
    else IdsWithTier(ps[..|ps| - 1], t) + (if ps[|ps| - 1].tier == t then [ps[|ps| - 1].id] else [])
  }

  function TiersOf(ps: seq<Player>): set<int>
  {
    set i | 0 <= i < |ps| :: ps[i].tier
  }

  /** Builds the tier map: tier -> ids of that tier's players, in registration order. */
  method GroupByTier(players: seq<Player>) returns (tierMap: map<int, seq<PlayerId>>)
    ensures tierMap.Keys == TiersOf(players)
    ensures forall t :: t in tierMap ==> tierMap[t] == IdsWithTier(players, t) && tierMap[t] != []
  {
    tierMap := map[];
    for k := 0 to |players|
      invariant tierMap.Keys == TiersOf(players[..k])
      invariant forall t :: t in tierMap ==> tierMap[t] == IdsWithTier(players[..k], t) && tierMap[t] != []
      invariant forall t :: t !in tierMap ==> IdsWithTier(players[..k], t) == []
    {
      var p := players[k];
      GroupStep(players, k);
      if p.tier !in tierMap {
        tierMap := tierMap[p.tier := []];
      }
      tierMap := tierMap[p.tier := tierMap[p.tier] + [p.id]];
    }
    assert players[..|players|] == players;
  }

  /** One more player extends its own tier's ids and adds its tier to the tiers seen. */
  lemma GroupStep(players: seq<Player>, k: int)
    requires 0 <= k < |players|
    ensures TiersOf(players[..k + 1]) == TiersOf(players[..k]) + {players[k].tier}
    ensures forall t ::
      IdsWithTier(players[..k + 1], t) == IdsWithTier(players[..k], t) + (if players[k].tier == t then [players[k].id] else [])
  {
    assert players[..k + 1][..k] == players[..k];
    assert forall i :: 0 <= i < k ==> players[..k + 1][i] == players[..k][i];
  }

  predicate StrictlyIncreasing(s: seq<int>)
  {
    forall i, j :: 0 <= i < j < |s| ==> s[i] < s[j]
  }

  lemma {:induction false} MinExists(s: set<int>)
    requires s != {}
    ensures exists m :: m in s && forall x :: x in s ==> m <= x
    decreases |s|
  {
    if forall x :: x !in s { assert false; }
    var y :| y in s;
    var r := s - {y};
    if r != {} {
      MinExists(r);
      var m :| m in r && forall x :: x in r ==> m <= x;
      var least := if y < m then y else m;
      forall x | x in s
        ensures least <= x
      {
        if x != y { assert x in r; }
      }
      assert least in s;
    } else {
      assert forall x :: x in s ==> x == y || x in r;
    }
  }

  /** The distinct tiers in ascending numeric order (Object.keys(tierMap).sort((a, b) => a - b)). */
  method SortTiers(keys: set<int>) returns (tiers: seq<int>)
    ensures StrictlyIncreasing(tiers)
    ensures forall t :: t in tiers <==> t in keys
  {
    tiers := [];
    var rest := keys;
    while rest != {}
      invariant rest <= keys
      invariant forall t :: t in tiers <==> t in keys && t !in rest
      invariant StrictlyIncreasing(tiers)
      invariant forall i, b :: 0 <= i < |tiers| && b in rest ==> tiers[i] < b
      decreases |rest|
    {
      MinExists(rest);
      var m :| m in rest && forall x :: x in rest ==> m <= x;
      tiers := tiers + [m];
      rest := rest - {m};
    }
  }

  /** Every finite set of tiers can be listed in strictly increasing order. */
  lemma {:induction false} SortedExists(s: set<int>)
    ensures exists r :: StrictlyIncreasing(r) && forall t :: t in r <==> t in s
    decreases |s|
  {
    if s == {} {
      assert StrictlyIncreasing([]);
    } else {
      MinExists(s);
      var m :| m in s && forall x :: x in s ==> m <= x;
      SortedExists(s - {m});
      var rest :| StrictlyIncreasing(rest) && forall t :: t in rest <==> t in s - {m};
      var r := [m] + rest;
      forall i, j | 0 <= i < j < |r|
        ensures r[i] < r[j]
      {
        if i > 0 {
          assert r[i] == rest[i - 1] && r[j] == rest[j - 1];
        } else {
          assert r[j] in rest;
        }
      }
      assert forall t :: t in r <==> t == m || t in rest;
      assert StrictlyIncreasing(r) && forall t :: t in r <==> t in s;
    }
  }

  lemma EmptyTogether(a: seq<int>, b: seq<int>)
    requires forall t :: t in a <==> t in b
    ensures a == [] <==> b == []
  {
    if a != [] { var x := a[0]; assert x in a; assert x in b; }
    if b != [] { var x := b[0]; assert x in b; assert x in a; }
  }

  /** ... and in only one way. */
  lemma {:induction false} SortedUnique(a: seq<int>, b: seq<int>)
    requires StrictlyIncreasing(a) && StrictlyIncreasing(b)
    requires forall t :: t in a <==> t in b
    ensures a == b
  {
    EmptyTogether(a, b);
    if a != [] {
      assert a[0] in a && b[0] in b;
      var j :| 0 <= j < |a| && a[j] == b[0];
      var k :| 0 <= k < |b| && b[k] == a[0];
      assert a[0] <= a[j] && b[0] <= b[k];
      forall t
        ensures t in a[1..] <==> t in b[1..]
      {
        assert t in a[1..] <==> t in a && t != a[0] by {
          assert a == [a[0]] + a[1..];
          assert forall k :: 0 <= k < |a[1..]| ==> a[1..][k] == a[k + 1];
        }
        assert t in b[1..] <==> t in b && t != b[0] by {
          assert b == [b[0]] + b[1..];
          assert forall k :: 0 <= k < |b[1..]| ==> b[1..][k] == b[k + 1];
        }
      }
      SortedUnique(a[1..], b[1..]);
      assert a == [a[0]] + a[1..] && b == [b[0]] + b[1..];
    }
  }

  /** The tiers of s in ascending order, as the handler's sort lists them. */
  ghost function SortedTiers(s: set<int>): (r: seq<int>)
    ensures StrictlyIncreasing(r) && forall t :: t in r <==> t in s
  {
    SortedExists(s);
    var r :| StrictlyIncreasing(r) && forall t :: t in r <==> t in s;
    r
  }

  /** The queue of each listed tier, in the listed order. */
  function Column(ps: seq<Player>, tiers: seq<int>): (r: seq<seq<PlayerId>>)
    ensures |r| == |tiers| && forall k :: 0 <= k < |tiers| ==> r[k] == IdsWithTier(ps, tiers[k])
  {
    seq(|tiers|, k requires 0 <= k < |tiers| => IdsWithTier(ps, tiers[k]))
  }

  /** The queue each tier gains from one more player: that player's id, or nothing. */
  function Single(tiers: seq<int>, p: Player): (r: seq<seq<PlayerId>>)
    ensures |r| == |tiers|
  {
    seq(|tiers|, k requires 0 <= k < |tiers| => if tiers[k] == p.tier then [p.id] else [])
  }

  lemma {:induction false} FlatSingle(tiers: seq<int>, p: Player)
    requires StrictlyIncreasing(tiers) && p.tier in tiers
    ensures multiset(Flat(Single(tiers, p))) == multiset{p.id}
  {
    assert Single(tiers, p)[1..] == Single(tiers[1..], p);
    if tiers[0] == p.tier {
      FlatAllEmpty(Single(tiers[1..], p));
    } else {
      FlatSingle(tiers[1..], p);
    }
  }

  /** One more player adds its id to its own tier's queue and nothing to the others. */
  lemma ColumnSnoc(ps: seq<Player>, tiers: seq<int>)
    requires ps != []
    ensures Column(ps, tiers) == Zip(Column(ps[..|ps| - 1], tiers), Single(tiers, ps[|ps| - 1]))
  {
    var init, p := ps[..|ps| - 1], ps[|ps| - 1];
    forall k | 0 <= k < |tiers|
      ensures Column(ps, tiers)[k] == Column(init, tiers)[k] + Single(tiers, p)[k]
    {
      assert IdsWithTier(ps, tiers[k]) == IdsWithTier(init, tiers[k]) + (if p.tier == tiers[k] then [p.id] else []);
    }
  }

  /**
   * Grouping loses and invents no player: when the listed tiers are distinct and cover every
   * player's tier, the queues together hold exactly the players' ids.
   */
  lemma {:induction false} ColumnIsPermutation(ps: seq<Player>, tiers: seq<int>)
    requires StrictlyIncreasing(tiers)
    requires forall i :: 0 <= i < |ps| ==> ps[i].tier in tiers
    ensures multiset(Flat(Column(ps, tiers))) == multiset(Ids(ps))
  {
    if ps == [] {
      FlatAllEmpty(Column(ps, tiers));
    } else {
      var init, p := ps[..|ps| - 1], ps[|ps| - 1];
      assert forall i :: 0 <= i < |init| ==> init[i] == ps[i];
      ColumnIsPermutation(init, tiers);
      ColumnSnoc(ps, tiers);
      FlatZip(Column(init, tiers), Single(tiers, p));
      FlatSingle(tiers, p);
      assert Ids(ps) == Ids(init) + [p.id];
    }
  }
}
