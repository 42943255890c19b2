/**
 * The team balancer of the generate-teams handler. Tier queues (ascending tier order) are
 * dealt round-robin to N teams: on its turn a team takes the front of the first non-empty
 * "high" queue (index t with t < L/2, scanned upward) and then the front of the first
 * non-empty "low" queue (t >= L/2, scanned downward), each only while the team is below the
 * cap ceil(T/N). Passes repeat until all T players are placed.
 *
 * Deal, Turn, PassFrom and Rounds define the dealing as functions; the method Balance is the
 * loop nest of the handler, proved to compute Rounds.
 */
module Balancer {
  import opened Common
  import opened Seqs

  /** Math.ceil(total / n): the least c with n * c >= total. */
  function Cap(total: nat, n: int): (c: nat)
    requires n >= 1
    ensures n * c >= total
    ensures c == 0 || n * (c - 1) < total
  {
    var c := (total + n - 1) / n;
    assert n * c + (total + n - 1) % n == total + n - 1;
    c
  }

  /** The first non-empty high queue at index t or later (t < L/2 means 2 * t < L); -1 when none. */
  function ScanHigh(queues: seq<seq<PlayerId>>, t: nat): (k: int)
    decreases |queues| - t
    ensures k == -1 || (t <= k && 2 * k < |queues| && queues[k] != [])
    ensures k == -1 ==> forall j :: t <= j && 2 * j < |queues| ==> queues[j] == []
    ensures k != -1 ==> forall j :: t <= j < k ==> queues[j] == []
  {
    if 2 * t >= |queues| then -1
    else if queues[t] != [] then t
    else ScanHigh(queues, t + 1)
  }

  /** The first non-empty low queue at index t or below (t >= L/2 means 2 * t >= L); -1 when none. */
  function ScanLow(queues: seq<seq<PlayerId>>, t: int): (k: int)
    requires t < |queues|
    decreases t + 1
    ensures k == -1 || (k <= t && 2 * k >= |queues| && queues[k] != [])
    ensures k == -1 ==> forall j :: j <= t && 2 * j >= |queues| ==> queues[j] == []
    ensures k != -1 ==> forall j :: k < j <= t ==> queues[j] == []
  {
    if t < 0 || 2 * t < |queues| then -1
    else if queues[t] != [] then t
    else ScanLow(queues, t - 1)
  }

  /** The state of the dealing: what is left in the queues, the teams so far, how many are placed. */
  datatype Deal = Deal(queues: seq<seq<PlayerId>>, teams: seq<seq<PlayerId>>, placed: nat)

  /** Every player is in exactly one place: still queued or in a team. */
  ghost function Pool(d: Deal): multiset<PlayerId>
  {
    multiset(Flat(d.queues)) + multiset(Flat(d.teams))
  }

  /** The counters agree with the contents and no team is over the cap. */
  ghost predicate Counted(d: Deal, total: nat)
  {
    && |Flat(d.queues)| + d.placed == total
    && |Flat(d.teams)| == d.placed
  }

  ghost predicate Consistent(d: Deal, total: nat, cap: nat)
  {
    && Counted(d, total)
    && forall j :: 0 <= j < |d.teams| ==> |d.teams[j]| <= cap
  }

  /** Team i takes the front of queue k. */
  function Move(d: Deal, k: int, i: int): (e: Deal)
    requires 0 <= k < |d.queues| && d.queues[k] != [] && 0 <= i < |d.teams|
    ensures |e.queues| == |d.queues| && |e.teams| == |d.teams| && e.placed == d.placed + 1
    ensures e.teams[i] == d.teams[i] + [d.queues[k][0]]
    ensures forall j :: 0 <= j < |d.teams| && j != i ==> e.teams[j] == d.teams[j]
    ensures e.queues[k] == d.queues[k][1..]
    ensures forall j :: 0 <= j < |d.queues| && j != k ==> e.queues[j] == d.queues[j]
  {
    Deal(d.queues[k := d.queues[k][1..]], d.teams[i := d.teams[i] + [d.queues[k][0]]], d.placed + 1)
  }

  /** A move takes one player out of the queues and puts it into a team: nobody is lost or duplicated. */
  lemma MoveKeepsPlayers(d: Deal, k: int, i: int)
    requires 0 <= k < |d.queues| && d.queues[k] != [] && 0 <= i < |d.teams|
    ensures Pool(Move(d, k, i)) == Pool(d)
    ensures |Flat(Move(d, k, i).queues)| + 1 == |Flat(d.queues)|
    ensures |Flat(Move(d, k, i).teams)| == |Flat(d.teams)| + 1
  {
    var front := d.queues[k][0];
    var e := Move(d, k, i);
    FlatUpdate(d.queues, k, d.queues[k][1..]);
    FlatUpdate(d.teams, i, d.teams[i] + [front]);
    assert d.queues[k] == [front] + d.queues[k][1..];
    assert multiset(d.queues[k]) == multiset{front} + multiset(d.queues[k][1..]);
    assert multiset(d.teams[i] + [front]) == multiset(d.teams[i]) + multiset{front};
    Cancel(multiset(Flat(e.queues)) + multiset{front}, multiset(Flat(d.queues)), multiset(d.queues[k][1..]));
    Cancel(multiset(Flat(e.teams)), multiset(Flat(d.teams)) + multiset{front}, multiset(d.teams[i]));
  }

  /** The high pick of team i: the front of the lowest-index non-empty high queue, if under the cap. */
  function HighPick(d: Deal, i: int, cap: nat): (e: Deal)
    requires 0 <= i < |d.teams|
    ensures |e.queues| == |d.queues| && |e.teams| == |d.teams|
    ensures Pool(e) == Pool(d)
    ensures |Flat(e.queues)| + e.placed == |Flat(d.queues)| + d.placed
    ensures |Flat(e.teams)| - e.placed == |Flat(d.teams)| - d.placed
    ensures e.placed == d.placed || e.placed == d.placed + 1
    ensures e.placed == d.placed ==> e == d
    ensures e.placed > d.placed <==> |d.teams[i]| < cap && ScanHigh(d.queues, 0) >= 0
    ensures e.placed > d.placed ==> e.teams[i] == d.teams[i] + [d.queues[ScanHigh(d.queues, 0)][0]]
    ensures e.placed > d.placed ==> var k := ScanHigh(d.queues, 0); e.queues == d.queues[k := d.queues[k][1..]]
    ensures forall j :: 0 <= j < |d.teams| && j != i ==> e.teams[j] == d.teams[j]
  {
    var k := ScanHigh(d.queues, 0);
    if k >= 0 && |d.teams[i]| < cap then (MoveKeepsPlayers(d, k, i); Move(d, k, i)) else d
  }

  /** The low pick of team i: the front of the highest-index non-empty low queue, if under the cap. */
  function LowPick(d: Deal, i: int, cap: nat): (e: Deal)
    requires 0 <= i < |d.teams|
    ensures |e.queues| == |d.queues| && |e.teams| == |d.teams|
    ensures Pool(e) == Pool(d)
    ensures |Flat(e.queues)| + e.placed == |Flat(d.queues)| + d.placed
    ensures |Flat(e.teams)| - e.placed == |Flat(d.teams)| - d.placed
    ensures e.placed == d.placed || e.placed == d.placed + 1
    ensures e.placed == d.placed ==> e == d
    ensures e.placed > d.placed <==> |d.teams[i]| < cap && ScanLow(d.queues, |d.queues| - 1) >= 0
    ensures e.placed > d.placed ==> e.teams[i] == d.teams[i] + [d.queues[ScanLow(d.queues, |d.queues| - 1)][0]]
    ensures e.placed > d.placed ==> var k := ScanLow(d.queues, |d.queues| - 1); e.queues == d.queues[k := d.queues[k][1..]]
    ensures forall j :: 0 <= j < |d.teams| && j != i ==> e.teams[j] == d.teams[j]
  {
    var k := ScanLow(d.queues, |d.queues| - 1);
    if k >= 0 && |d.teams[i]| < cap then (MoveKeepsPlayers(d, k, i); Move(d, k, i)) else d
  }

  /** Team i's turn: at most one high pick, then at most one low pick, both under the cap. */
  function Turn(d: Deal, i: int, cap: nat): (e: Deal)
    requires 0 <= i < |d.teams|
    ensures |e.queues| == |d.queues| && |e.teams| == |d.teams|
    ensures Pool(e) == Pool(d)
    ensures |Flat(e.queues)| + e.placed == |Flat(d.queues)| + d.placed
    ensures |Flat(e.teams)| - e.placed == |Flat(d.teams)| - d.placed
    ensures d.placed <= e.placed <= d.placed + 2
  {
    LowPick(HighPick(d, i, cap), i, cap)
  }

  /** A turn keeps every team within the cap. */
  lemma TurnWithinCap(d: Deal, i: int, cap: nat)
    requires 0 <= i < |d.teams|
    ensures (forall j :: 0 <= j < |d.teams| ==> |d.teams[j]| <= cap) ==>
              forall j :: 0 <= j < |d.teams| ==> |Turn(d, i, cap).teams[j]| <= cap
  {
    var d1 := HighPick(d, i, cap);
    if forall j :: 0 <= j < |d.teams| ==> |d.teams[j]| <= cap {
      assert forall j :: 0 <= j < |d1.teams| ==> |d1.teams[j]| <= cap;
    }
  }

  /** A turn that places nobody changes nothing, and happens only to a full team or when every queue is empty. */
  lemma TurnStuck(d: Deal, i: int, cap: nat)
    requires 0 <= i < |d.teams|
    requires Turn(d, i, cap).placed == d.placed
    ensures Turn(d, i, cap) == d
    ensures |d.teams[i]| >= cap || Flat(d.queues) == []
  {
    var d1 := HighPick(d, i, cap);
    assert d1 == d;
    if |d.teams[i]| < cap {
      assert forall j :: 0 <= j < |d.queues| ==> d.queues[j] == [] by {
        assert forall j :: 0 <= j < |d.queues| ==> 2 * j < |d.queues| || 2 * j >= |d.queues|;
      }
      FlatAllEmpty(d.queues);
    }
  }

  /** The rest of a pass: the turns of teams i, i+1, ..., N-1, stopping once all are placed. */
  function PassFrom(d: Deal, i: nat, cap: nat, total: nat): (e: Deal)
    decreases |d.teams| - i
    ensures |e.queues| == |d.queues| && |e.teams| == |d.teams|
    ensures Pool(e) == Pool(d)
    ensures Counted(d, total) ==> Counted(e, total)
    ensures Consistent(d, total, cap) ==> Consistent(e, total, cap)
    ensures e.placed >= d.placed
  {
    if i >= |d.teams| || d.placed >= total then d
    else
      TurnWithinCap(d, i, cap);
      PassFrom(Turn(d, i, cap), i + 1, cap, total)
  }

  /** Within a pass, a team that adds nobody while players remain is full. */
  lemma {:induction false} PassFromProgress(d: Deal, i: nat, cap: nat, total: nat)
    requires Counted(d, total) && d.placed < total
    ensures PassFrom(d, i, cap, total).placed > d.placed ||
            forall j :: i <= j < |d.teams| ==> |d.teams[j]| >= cap
    decreases |d.teams| - i
  {
    if i < |d.teams| {
      var e := Turn(d, i, cap);
      assert PassFrom(d, i, cap, total) == PassFrom(e, i + 1, cap, total);
      if e.placed == d.placed {
        TurnStuck(d, i, cap);
        assert |d.teams[i]| >= cap by {
          assert |d.teams[i]| >= cap || Flat(d.queues) == [];
          assert |Flat(d.queues)| > 0;
        }
        PassFromProgress(d, i + 1, cap, total);
        var r := PassFrom(d, i + 1, cap, total);
        assert PassFrom(d, i, cap, total) == r;
      }
    }
  }

  /** A whole pass places at least one player while any remain, since N * cap >= T. */
  lemma PassProgress(d: Deal, cap: nat, total: nat)
    requires |d.teams| * cap >= total
    requires Consistent(d, total, cap) && d.placed < total
    ensures PassFrom(d, 0, cap, total).placed > d.placed
  {
    PassFromProgress(d, 0, cap, total);
    if forall j :: 0 <= j < |d.teams| ==> |d.teams[j]| >= cap {
      FlatLowerBound(d.teams, cap);
      assert false;
    }
  }

  /** Passes until every player is placed; the loop of the handler terminates for N >= 1. */
  function Rounds(d: Deal, cap: nat, total: nat): (e: Deal)
    requires |d.teams| * cap >= total
    requires Consistent(d, total, cap)
    decreases total - d.placed
    ensures |e.queues| == |d.queues| && |e.teams| == |d.teams|
    ensures Pool(e) == Pool(d)
    ensures Consistent(e, total, cap) && e.placed == total
    ensures Flat(e.queues) == []
  {
    if d.placed >= total then d
    else
      PassProgress(d, cap, total);
      Rounds(PassFrom(d, 0, cap, total), cap, total)
  }

  /** The N empty teams the handler starts from. */
  function EmptyTeams(n: nat): (r: seq<seq<PlayerId>>)
    ensures |r| == n && Flat(r) == []
  {
    var r := seq(n, _ => []);
    FlatAllEmpty(r);
    r
  }

  /** The member lists after dealing `total` queued players round-robin into n teams of at most ceil(total / n). */
  ghost function Dealt(queues: seq<seq<PlayerId>>, n: int, total: nat): seq<seq<PlayerId>>
    requires n >= 1 && |Flat(queues)| == total
  {
    Rounds(Deal(queues, EmptyTeams(n), 0), Cap(total, n), total).teams
  }

  /**
   * The upward scan of team i's turn over the high tiers (t < L/2, written 2 * t < L): the first
   * non-empty queue gives up its front, provided the team is below the cap.
   */
  method DrawHigh(tierQueues: seq<seq<PlayerId>>, teamsArray: seq<seq<PlayerId>>, distributedCount: nat,
                  i: int, maxPlayersPerTeam: nat)
    returns (queues': seq<seq<PlayerId>>, teams': seq<seq<PlayerId>>, count': nat)
    requires 0 <= i < |teamsArray|
    ensures Deal(queues', teams', count') == HighPick(Deal(tierQueues, teamsArray, distributedCount), i, maxPlayersPerTeam)
  {
    queues', teams', count' := tierQueues, teamsArray, distributedCount;
    var t := 0;
    while 2 * t < |queues'|
      invariant 0 <= t
      invariant queues' == tierQueues && teams' == teamsArray && count' == distributedCount
      invariant |teams'[i]| < maxPlayersPerTeam ==> ScanHigh(queues', 0) == ScanHigh(queues', t)
      decreases |queues'| - t
    {
      if |queues'[t]| > 0 && |teams'[i]| < maxPlayersPerTeam {
        teams' := teams'[i := teams'[i] + [queues'[t][0]]];
        queues' := queues'[t := queues'[t][1..]];
        count' := count' + 1;
        return;
      }
      t := t + 1;
    }
  }

  /**
   * The downward scan of team i's turn over the low tiers (t >= L/2, written 2 * t >= L): the
   * first non-empty queue gives up its front, provided the team is below the cap.
   */
  method DrawLow(tierQueues: seq<seq<PlayerId>>, teamsArray: seq<seq<PlayerId>>, distributedCount: nat,
                 i: int, maxPlayersPerTeam: nat)
    returns (queues': seq<seq<PlayerId>>, teams': seq<seq<PlayerId>>, count': nat)
    requires 0 <= i < |teamsArray|
    ensures Deal(queues', teams', count') == LowPick(Deal(tierQueues, teamsArray, distributedCount), i, maxPlayersPerTeam)
  {
    queues', teams', count' := tierQueues, teamsArray, distributedCount;
    var t := |queues'| - 1;
    while 2 * t >= |queues'|
      invariant -1 <= t < |queues'|
      invariant queues' == tierQueues && teams' == teamsArray && count' == distributedCount
      invariant |teams'[i]| < maxPlayersPerTeam ==> ScanLow(queues', |queues'| - 1) == ScanLow(queues', t)
      decreases t + 1
    {
      if |queues'[t]| > 0 && |teams'[i]| < maxPlayersPerTeam {
        teams' := teams'[i := teams'[i] + [queues'[t][0]]];
        queues' := queues'[t := queues'[t][1..]];
        count' := count' + 1;
        return;
      }
      t := t - 1;
    }
  }

  /** One pass of the `for` loop over the teams; it stops early once every player is placed. */
  method DealPass(tierQueues: seq<seq<PlayerId>>, teamsArray: seq<seq<PlayerId>>, distributedCount: nat,
                  numberOfTeams: int, maxPlayersPerTeam: nat, totalPlayers: nat)
    returns (queues': seq<seq<PlayerId>>, teams': seq<seq<PlayerId>>, count': nat)
    requires |teamsArray| == numberOfTeams
    ensures Deal(queues', teams', count') ==
            PassFrom(Deal(tierQueues, teamsArray, distributedCount), 0, maxPlayersPerTeam, totalPlayers)
  {
    queues', teams', count' := tierQueues, teamsArray, distributedCount;
    ghost var passEnd := PassFrom(Deal(tierQueues, teamsArray, distributedCount), 0, maxPlayersPerTeam, totalPlayers);
    var i := 0;
    while i < numberOfTeams
      invariant 0 <= i
      invariant |teams'| == numberOfTeams
      invariant PassFrom(Deal(queues', teams', count'), i, maxPlayersPerTeam, totalPlayers) == passEnd
    {
      if count' >= totalPlayers {
        break;
      }
      ghost var before := Deal(queues', teams', count');
      queues', teams', count' := DrawHigh(queues', teams', count', i, maxPlayersPerTeam);
      queues', teams', count' := DrawLow(queues', teams', count', i, maxPlayersPerTeam);
      assert Deal(queues', teams', count') == Turn(before, i, maxPlayersPerTeam);
      i := i + 1;
    }
  }

  /**
   * The dealing loop nest of the generate-teams handler over the tier queues (in ascending tier
   * order, in any order within a tier). The local copies of the queues are consumed from the
   * front and the teams grow at the back, as shift() and push() do.
   */
  method Balance(queues: seq<seq<PlayerId>>, numberOfTeams: int, totalPlayers: nat)
    returns (teams: seq<seq<PlayerId>>)
    requires numberOfTeams >= 1
    requires totalPlayers == |Flat(queues)|
    ensures teams == Rounds(Deal(queues, EmptyTeams(numberOfTeams), 0), Cap(totalPlayers, numberOfTeams), totalPlayers).teams
    ensures |teams| == numberOfTeams
    ensures multiset(Flat(teams)) == multiset(Flat(queues))
    ensures forall j :: 0 <= j < |teams| ==> |teams[j]| <= Cap(totalPlayers, numberOfTeams)
  {
    var teamsArray := EmptyTeams(numberOfTeams);
    var maxPlayersPerTeam := Cap(totalPlayers, numberOfTeams);
    var tierQueues := queues;
    var distributedCount := 0;
    ghost var start := Deal(queues, teamsArray, 0);
    ghost var final := Rounds(start, maxPlayersPerTeam, totalPlayers);

    while distributedCount < totalPlayers
      invariant |teamsArray| == numberOfTeams
      invariant Consistent(Deal(tierQueues, teamsArray, distributedCount), totalPlayers, maxPlayersPerTeam)
      invariant Rounds(Deal(tierQueues, teamsArray, distributedCount), maxPlayersPerTeam, totalPlayers) == final
      decreases totalPlayers - distributedCount
    {
      ghost var passStart := Deal(tierQueues, teamsArray, distributedCount);
      PassProgress(passStart, maxPlayersPerTeam, totalPlayers);
      tierQueues, teamsArray, distributedCount :=
        DealPass(tierQueues, teamsArray, distributedCount, numberOfTeams, maxPlayersPerTeam, totalPlayers);
    }
    teams := teamsArray;
    assert Deal(tierQueues, teamsArray, distributedCount) == final;
    calc {
      multiset(Flat(teams));
      multiset(Flat(final.queues)) + multiset(Flat(final.teams));
      Pool(final);
      Pool(start);
      multiset(Flat(queues)) + multiset(Flat(start.teams));
      multiset(Flat(queues));
    }
  }

  /** Teams are numbered 1..N in dealing order. */
  function NumberTeams(lists: seq<seq<PlayerId>>): (r: seq<Team>)
    ensures |r| == |lists|
    ensures forall i :: 0 <= i < |r| ==> r[i] == Team(i + 1, lists[i])
  {
    seq(|lists|, i requires 0 <= i < |lists| => Team(i + 1, lists[i]))
  }

  lemma UnevenPick1(a: PlayerId, b: PlayerId, c: PlayerId, x: PlayerId, y: PlayerId, z: PlayerId)
    ensures HighPick(Deal([[a, b, c], [x, y, z]], [[], [], [], []], 0), 0, 2) == Deal([[b, c], [x, y, z]], [[a], [], [], []], 1)
  {
    var d, e := Deal([[a, b, c], [x, y, z]], [[], [], [], []], 0), Deal([[b, c], [x, y, z]], [[a], [], [], []], 1);
    assert d.queues[0][1..] == [b, c];
    assert d.teams[0] + [a] == [a];
    assert Move(d, 0, 0) == e;
  }

  lemma UnevenPick2(a: PlayerId, b: PlayerId, c: PlayerId, x: PlayerId, y: PlayerId, z: PlayerId)
    ensures LowPick(Deal([[b, c], [x, y, z]], [[a], [], [], []], 1), 0, 2) == Deal([[b, c], [y, z]], [[a, x], [], [], []], 2)
  {
    var d, e := Deal([[b, c], [x, y, z]], [[a], [], [], []], 1), Deal([[b, c], [y, z]], [[a, x], [], [], []], 2);
    assert d.queues[1][1..] == [y, z];
    assert d.teams[0] + [x] == [a, x];
    assert Move(d, 1, 0) == e;
  }

  lemma UnevenPick3(a: PlayerId, b: PlayerId, c: PlayerId, x: PlayerId, y: PlayerId, z: PlayerId)
    ensures HighPick(Deal([[b, c], [y, z]], [[a, x], [], [], []], 2), 1, 2) == Deal([[c], [y, z]], [[a, x], [b], [], []], 3)
  {
    var d, e := Deal([[b, c], [y, z]], [[a, x], [], [], []], 2), Deal([[c], [y, z]], [[a, x], [b], [], []], 3);
    assert d.queues[0][1..] == [c];
    assert d.teams[1] + [b] == [b];
    assert Move(d, 0, 1) == e;
  }

  lemma UnevenPick4(a: PlayerId, b: PlayerId, c: PlayerId, x: PlayerId, y: PlayerId, z: PlayerId)
    ensures LowPick(Deal([[c], [y, z]], [[a, x], [b], [], []], 3), 1, 2) == Deal([[c], [z]], [[a, x], [b, y], [], []], 4)
  {
    var d, e := Deal([[c], [y, z]], [[a, x], [b], [], []], 3), Deal([[c], [z]], [[a, x], [b, y], [], []], 4);
    assert d.queues[1][1..] == [z];
    assert d.teams[1] + [y] == [b, y];
    assert Move(d, 1, 1) == e;
  }

  lemma UnevenPick5(a: PlayerId, b: PlayerId, c: PlayerId, x: PlayerId, y: PlayerId, z: PlayerId)
    ensures HighPick(Deal([[c], [z]], [[a, x], [b, y], [], []], 4), 2, 2) == Deal([[], [z]], [[a, x], [b, y], [c], []], 5)
  {
    var d, e := Deal([[c], [z]], [[a, x], [b, y], [], []], 4), Deal([[], [z]], [[a, x], [b, y], [c], []], 5);
    assert d.queues[0][1..] == [];
    assert d.teams[2] + [c] == [c];
    assert Move(d, 0, 2) == e;
  }

  lemma UnevenPick6(a: PlayerId, b: PlayerId, c: PlayerId, x: PlayerId, y: PlayerId, z: PlayerId)
    ensures LowPick(Deal([[], [z]], [[a, x], [b, y], [c], []], 5), 2, 2) == Deal([[], []], [[a, x], [b, y], [c, z], []], 6)
  {
    var d, e := Deal([[], [z]], [[a, x], [b, y], [c], []], 5), Deal([[], []], [[a, x], [b, y], [c, z], []], 6);
    assert d.queues[1][1..] == [];
    assert d.teams[2] + [z] == [c, z];
    assert Move(d, 1, 2) == e;
  }

  lemma UnevenTurn1(a: PlayerId, b: PlayerId, c: PlayerId, x: PlayerId, y: PlayerId, z: PlayerId)
    ensures Turn(Deal([[a, b, c], [x, y, z]], [[], [], [], []], 0), 0, 2) == Deal([[b, c], [y, z]], [[a, x], [], [], []], 2)
  {
    UnevenPick1(a, b, c, x, y, z);
    UnevenPick2(a, b, c, x, y, z);
  }

  lemma UnevenTurn2(a: PlayerId, b: PlayerId, c: PlayerId, x: PlayerId, y: PlayerId, z: PlayerId)
    ensures Turn(Deal([[b, c], [y, z]], [[a, x], [], [], []], 2), 1, 2) == Deal([[c], [z]], [[a, x], [b, y], [], []], 4)
  {
    UnevenPick3(a, b, c, x, y, z);
    UnevenPick4(a, b, c, x, y, z);
  }

  lemma UnevenTurn3(a: PlayerId, b: PlayerId, c: PlayerId, x: PlayerId, y: PlayerId, z: PlayerId)
    ensures Turn(Deal([[c], [z]], [[a, x], [b, y], [], []], 4), 2, 2) == Deal([[], []], [[a, x], [b, y], [c, z], []], 6)
  {
    UnevenPick5(a, b, c, x, y, z);
    UnevenPick6(a, b, c, x, y, z);
  }

  lemma UnevenPass(a: PlayerId, b: PlayerId, c: PlayerId, x: PlayerId, y: PlayerId, z: PlayerId)
    ensures PassFrom(Deal([[a, b, c], [x, y, z]], [[], [], [], []], 0), 0, 2, 6) ==
            Deal([[], []], [[a, x], [b, y], [c, z], []], 6)
  {
    var d0, d2, d4, d6 := Deal([[a, b, c], [x, y, z]], [[], [], [], []], 0), Deal([[b, c], [y, z]], [[a, x], [], [], []], 2), Deal([[c], [z]], [[a, x], [b, y], [], []], 4), Deal([[], []], [[a, x], [b, y], [c, z], []], 6);
    UnevenTurn1(a, b, c, x, y, z);
    UnevenTurn2(a, b, c, x, y, z);
    UnevenTurn3(a, b, c, x, y, z);
    assert PassFrom(d6, 3, 2, 6) == d6;
    assert PassFrom(d4, 2, 2, 6) == d6;
    assert PassFrom(d2, 1, 2, 6) == d6;
  }

  lemma UnevenTotal(a: PlayerId, b: PlayerId, c: PlayerId, x: PlayerId, y: PlayerId, z: PlayerId)
    ensures Flat([[a, b, c], [x, y, z]]) == [a, b, c, x, y, z]
  {
    assert [[a, b, c], [x, y, z]] == [[a, b, c]] + [[x, y, z]];
    FlatConcat([[a, b, c]], [[x, y, z]]);
    assert [[a, b, c]][1..] == [] && [[x, y, z]][1..] == [];
  }

  /** After its single pass, the six-player deal is complete. */
  lemma UnevenDone(a: PlayerId, b: PlayerId, c: PlayerId, x: PlayerId, y: PlayerId, z: PlayerId)
    ensures Consistent(Deal([[], []], [[a, x], [b, y], [c, z], []], 6), 6, 2) &&
            Rounds(Deal([[], []], [[a, x], [b, y], [c, z], []], 6), 2, 6) == Deal([[], []], [[a, x], [b, y], [c, z], []], 6)
  {
    var d0 := Deal([[a, b, c], [x, y, z]], [[], [], [], []], 0);
    UnevenTotal(a, b, c, x, y, z);
    assert Consistent(d0, 6, 2) by {
      assert Flat(d0.teams) == [];
    }
    UnevenPass(a, b, c, x, y, z);
  }

  /**
   * Team sizes are not kept within one of each other: six players in two tiers of three,
   * dealt to four teams (cap ceil(6/4) = 2), give sizes 2, 2, 2 and 0, since each of the first three teams
   * takes a high and a low player on the first pass.
   */
  lemma UnevenTeamSizes(a: PlayerId, b: PlayerId, c: PlayerId, x: PlayerId, y: PlayerId, z: PlayerId)
    ensures |Flat([[a, b, c], [x, y, z]])| == 6 &&
            Dealt([[a, b, c], [x, y, z]], 4, 6) == [[a, x], [b, y], [c, z], []]
  {
    var q := [[a, b, c], [x, y, z]];
    assert Cap(6, 4) == 2;
    UnevenTotal(a, b, c, x, y, z);
    var d0 := Deal(q, [[], [], [], []], 0);
    var d6 := Deal([[], []], [[a, x], [b, y], [c, z], []], 6);
    assert EmptyTeams(4) == d0.teams;
    UnevenPass(a, b, c, x, y, z);
    UnevenDone(a, b, c, x, y, z);
    assert Rounds(d0, 2, 6) == Rounds(d6, 2, 6);
  }

  // Seven players in four tiers (two, one, two and two players) dealt to two teams.

  lemma SevenPick1(a: PlayerId, b: PlayerId, c: PlayerId, d: PlayerId, e: PlayerId, f: PlayerId, g: PlayerId)
    ensures HighPick(Deal([[a, b], [c], [d, e], [f, g]], [[], []], 0), 0, 4) == Deal([[b], [c], [d, e], [f, g]], [[a], []], 1)
  {
    var d0, d1 := Deal([[a, b], [c], [d, e], [f, g]], [[], []], 0), Deal([[b], [c], [d, e], [f, g]], [[a], []], 1);
    assert d0.queues[0][1..] == [b];
    assert d0.teams[0] + [a] == [a];
    assert Move(d0, 0, 0) == d1;
  }

  lemma SevenPick2(a: PlayerId, b: PlayerId, c: PlayerId, d: PlayerId, e: PlayerId, f: PlayerId, g: PlayerId)
    ensures LowPick(Deal([[b], [c], [d, e], [f, g]], [[a], []], 1), 0, 4) == Deal([[b], [c], [d, e], [g]], [[a, f], []], 2)
  {
    var d0, d1 := Deal([[b], [c], [d, e], [f, g]], [[a], []], 1), Deal([[b], [c], [d, e], [g]], [[a, f], []], 2);
    assert d0.queues[3][1..] == [g];
    assert d0.teams[0] + [f] == [a, f];
    assert Move(d0, 3, 0) == d1;
  }

  lemma SevenPick3(a: PlayerId, b: PlayerId, c: PlayerId, d: PlayerId, e: PlayerId, f: PlayerId, g: PlayerId)
    ensures HighPick(Deal([[b], [c], [d, e], [g]], [[a, f], []], 2), 1, 4) == Deal([[], [c], [d, e], [g]], [[a, f], [b]], 3)
  {
    var d0, d1 := Deal([[b], [c], [d, e], [g]], [[a, f], []], 2), Deal([[], [c], [d, e], [g]], [[a, f], [b]], 3);
    assert d0.queues[0][1..] == [];
    assert d0.teams[1] + [b] == [b];
    assert Move(d0, 0, 1) == d1;
  }

  lemma SevenPick4(a: PlayerId, b: PlayerId, c: PlayerId, d: PlayerId, e: PlayerId, f: PlayerId, g: PlayerId)
    ensures LowPick(Deal([[], [c], [d, e], [g]], [[a, f], [b]], 3), 1, 4) == Deal([[], [c], [d, e], []], [[a, f], [b, g]], 4)
  {
    var d0, d1 := Deal([[], [c], [d, e], [g]], [[a, f], [b]], 3), Deal([[], [c], [d, e], []], [[a, f], [b, g]], 4);
    assert d0.queues[3][1..] == [];
    assert d0.teams[1] + [g] == [b, g];
    assert Move(d0, 3, 1) == d1;
  }

  lemma SevenPick5(a: PlayerId, b: PlayerId, c: PlayerId, d: PlayerId, e: PlayerId, f: PlayerId, g: PlayerId)
    ensures HighPick(Deal([[], [c], [d, e], []], [[a, f], [b, g]], 4), 0, 4) == Deal([[], [], [d, e], []], [[a, f, c], [b, g]], 5)
  {
    var d0, d1 := Deal([[], [c], [d, e], []], [[a, f], [b, g]], 4), Deal([[], [], [d, e], []], [[a, f, c], [b, g]], 5);
    assert d0.queues[1][1..] == [];
    assert d0.teams[0] + [c] == [a, f, c];
    assert Move(d0, 1, 0) == d1;
  }

  lemma SevenPick6(a: PlayerId, b: PlayerId, c: PlayerId, d: PlayerId, e: PlayerId, f: PlayerId, g: PlayerId)
    ensures LowPick(Deal([[], [], [d, e], []], [[a, f, c], [b, g]], 5), 0, 4) == Deal([[], [], [e], []], [[a, f, c, d], [b, g]], 6)
  {
    var d0, d1 := Deal([[], [], [d, e], []], [[a, f, c], [b, g]], 5), Deal([[], [], [e], []], [[a, f, c, d], [b, g]], 6);
    assert d0.queues[3] == [] && d0.queues[2] != [];
    assert ScanLow(d0.queues, 3) == 2;
    assert d0.queues[2][1..] == [e];
    assert d0.teams[0] + [d] == [a, f, c, d];
    assert Move(d0, 2, 0) == d1;
  }

  /** The high half is exhausted: team 2's high scan finds nothing. */
  lemma SevenPick7(a: PlayerId, b: PlayerId, c: PlayerId, d: PlayerId, e: PlayerId, f: PlayerId, g: PlayerId)
    ensures HighPick(Deal([[], [], [e], []], [[a, f, c, d], [b, g]], 6), 1, 4) == Deal([[], [], [e], []], [[a, f, c, d], [b, g]], 6)
  {
    var q := [[], [], [e], []];
    assert ScanHigh(q, 2) == -1;
    assert ScanHigh(q, 1) == -1;
    assert ScanHigh(q, 0) == -1;
  }

  lemma SevenPick8(a: PlayerId, b: PlayerId, c: PlayerId, d: PlayerId, e: PlayerId, f: PlayerId, g: PlayerId)
    ensures LowPick(Deal([[], [], [e], []], [[a, f, c, d], [b, g]], 6), 1, 4) == Deal([[], [], [], []], [[a, f, c, d], [b, g, e]], 7)
  {
    var d0, d1 := Deal([[], [], [e], []], [[a, f, c, d], [b, g]], 6), Deal([[], [], [], []], [[a, f, c, d], [b, g, e]], 7);
    assert d0.queues[3] == [] && d0.queues[2] != [];
    assert ScanLow(d0.queues, 3) == 2;
    assert d0.queues[2][1..] == [];
    assert d0.teams[1] + [e] == [b, g, e];
    assert Move(d0, 2, 1) == d1;
  }

  lemma SevenPass1(a: PlayerId, b: PlayerId, c: PlayerId, d: PlayerId, e: PlayerId, f: PlayerId, g: PlayerId)
    ensures PassFrom(Deal([[a, b], [c], [d, e], [f, g]], [[], []], 0), 0, 4, 7) ==
            Deal([[], [c], [d, e], []], [[a, f], [b, g]], 4)
  {
    var d0, d2, d4 := Deal([[a, b], [c], [d, e], [f, g]], [[], []], 0), Deal([[b], [c], [d, e], [g]], [[a, f], []], 2),
      Deal([[], [c], [d, e], []], [[a, f], [b, g]], 4);
    SevenPick1(a, b, c, d, e, f, g);
    SevenPick2(a, b, c, d, e, f, g);
    SevenPick3(a, b, c, d, e, f, g);
    SevenPick4(a, b, c, d, e, f, g);
    assert Turn(d0, 0, 4) == d2;
    assert Turn(d2, 1, 4) == d4;
    assert PassFrom(d4, 2, 4, 7) == d4;
    assert PassFrom(d2, 1, 4, 7) == d4;
  }

  lemma SevenPass2(a: PlayerId, b: PlayerId, c: PlayerId, d: PlayerId, e: PlayerId, f: PlayerId, g: PlayerId)
    ensures PassFrom(Deal([[], [c], [d, e], []], [[a, f], [b, g]], 4), 0, 4, 7) ==
            Deal([[], [], [], []], [[a, f, c, d], [b, g, e]], 7)
  {
    var d4, d6, d7 := Deal([[], [c], [d, e], []], [[a, f], [b, g]], 4), Deal([[], [], [e], []], [[a, f, c, d], [b, g]], 6),
      Deal([[], [], [], []], [[a, f, c, d], [b, g, e]], 7);
    SevenPick5(a, b, c, d, e, f, g);
    SevenPick6(a, b, c, d, e, f, g);
    SevenPick7(a, b, c, d, e, f, g);
    SevenPick8(a, b, c, d, e, f, g);
    assert Turn(d4, 0, 4) == d6;
    assert Turn(d6, 1, 4) == d7;
    assert PassFrom(d7, 2, 4, 7) == d7;
    assert PassFrom(d6, 1, 4, 7) == d7;
  }

  lemma SevenTotal(a: PlayerId, b: PlayerId, c: PlayerId, d: PlayerId, e: PlayerId, f: PlayerId, g: PlayerId)
    ensures |Flat([[a, b], [c], [d, e], [f, g]])| == 7
  {
    var q := [[a, b], [c], [d, e], [f, g]];
    assert q == [[a, b], [c]] + [[d, e], [f, g]];
    FlatConcat([[a, b], [c]], [[d, e], [f, g]]);
    assert [[a, b], [c]] == [[a, b]] + [[c]];
    FlatConcat([[a, b]], [[c]]);
    assert [[d, e], [f, g]] == [[d, e]] + [[f, g]];
    FlatConcat([[d, e]], [[f, g]]);
    assert [[a, b]][1..] == [] && [[c]][1..] == [] && [[d, e]][1..] == [] && [[f, g]][1..] == [];
  }

  lemma SevenCap()
    ensures Cap(7, 2) == 4
  {
  }

  /** After the first pass, the second pass places the last three players. */
  lemma SevenSecondRound(a: PlayerId, b: PlayerId, c: PlayerId, d: PlayerId, e: PlayerId, f: PlayerId, g: PlayerId)
    ensures Consistent(Deal([[], [c], [d, e], []], [[a, f], [b, g]], 4), 7, 4) &&
            Rounds(Deal([[], [c], [d, e], []], [[a, f], [b, g]], 4), 4, 7) == Deal([[], [], [], []], [[a, f, c, d], [b, g, e]], 7)
  {
    var d0 := Deal([[a, b], [c], [d, e], [f, g]], [[], []], 0);
    var d4 := Deal([[], [c], [d, e], []], [[a, f], [b, g]], 4);
    var d7 := Deal([[], [], [], []], [[a, f, c, d], [b, g, e]], 7);
    SevenTotal(a, b, c, d, e, f, g);
    assert Consistent(d0, 7, 4) by {
      assert Flat(d0.teams) == [];
    }
    SevenPass1(a, b, c, d, e, f, g);
    SevenPass2(a, b, c, d, e, f, g);
    assert Rounds(d4, 4, 7) == Rounds(d7, 4, 7);
  }

  /**
   * Seven players in tiers of two, one, two and two, dealt to two teams of at most ceil(7/2) = 4: the
   * teams end with four and three players; in the last turn the high scan finds no queue and
   * team 2 takes only a low player.
   */
  lemma SevenPlayersTwoTeams(a: PlayerId, b: PlayerId, c: PlayerId, d: PlayerId, e: PlayerId, f: PlayerId, g: PlayerId)
    ensures |Flat([[a, b], [c], [d, e], [f, g]])| == 7 &&
            Dealt([[a, b], [c], [d, e], [f, g]], 2, 7) == [[a, f, c, d], [b, g, e]]
  {
    SevenCap();
    var d0 := Deal([[a, b], [c], [d, e], [f, g]], [[], []], 0);
    var d4 := Deal([[], [c], [d, e], []], [[a, f], [b, g]], 4);
    SevenTotal(a, b, c, d, e, f, g);
    assert EmptyTeams(2) == d0.teams;
    SevenPass1(a, b, c, d, e, f, g);
    SevenSecondRound(a, b, c, d, e, f, g);
    assert Rounds(d0, 4, 7) == Rounds(d4, 4, 7);
  }
}
