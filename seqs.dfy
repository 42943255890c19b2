/** Concatenation of a sequence of sequences, and how it counts its elements. */
module Seqs {

  function Flat<T>(s: seq<seq<T>>): seq<T>
  {
    if s == [] then [] else s[0] + Flat(s[1..])
  }

  lemma {:induction false} FlatConcat<T>(a: seq<seq<T>>, b: seq<seq<T>>)
    ensures Flat(a + b) == Flat(a) + Flat(b)
  {
    if a != [] {
      assert (a + b)[1..] == a[1..] + b;
      FlatConcat(a[1..], b);
    } else {
      assert a + b == b;
    }
  }

  /** Replacing one inner sequence replaces exactly its elements in the concatenation. */
  lemma FlatUpdate<T>(s: seq<seq<T>>, k: int, x: seq<T>)
    requires 0 <= k < |s|
    ensures multiset(Flat(s[k := x])) + multiset(s[k]) == multiset(Flat(s)) + multiset(x)
    ensures |Flat(s[k := x])| + |s[k]| == |Flat(s)| + |x|
  {
    assert s == s[..k] + [s[k]] + s[k + 1..];
    assert s[k := x] == s[..k] + [x] + s[k + 1..];
    FlatConcat(s[..k] + [s[k]], s[k + 1..]);
    FlatConcat(s[..k], [s[k]]);
    FlatConcat(s[..k] + [x], s[k + 1..]);
    FlatConcat(s[..k], [x]);
    assert Flat([s[k]]) == s[k] by { assert [s[k]][1..] == []; }
    assert Flat([x]) == x by { assert [x][1..] == []; }
  }

  lemma {:induction false} FlatAllEmpty<T>(s: seq<seq<T>>)
    requires forall j :: 0 <= j < |s| ==> s[j] == []
    ensures Flat(s) == []
  {
    if s != [] {
      FlatAllEmpty(s[1..]);
    }
  }

  /** When every inner sequence holds at least c elements, the concatenation holds at least |s| * c. */
  lemma {:induction false} FlatLowerBound<T>(s: seq<seq<T>>, c: int)
    requires forall j :: 0 <= j < |s| ==> |s[j]| >= c
    ensures |Flat(s)| >= |s| * c
  {
    if s != [] {
      FlatLowerBound(s[1..], c);
      assert |s| * c == c + (|s| - 1) * c;
    }
  }

  /** Element-wise concatenation of two equally long sequences of sequences. */
  function Zip<T>(a: seq<seq<T>>, b: seq<seq<T>>): (r: seq<seq<T>>)
    requires |a| == |b|
    ensures |r| == |a| && forall k :: 0 <= k < |a| ==> r[k] == a[k] + b[k]
  {
    seq(|a|, k requires 0 <= k < |a| => a[k] + b[k])
  }

  lemma {:induction false} FlatZip<T>(a: seq<seq<T>>, b: seq<seq<T>>)
    requires |a| == |b|
    ensures multiset(Flat(Zip(a, b))) == multiset(Flat(a)) + multiset(Flat(b))
  {
    if a != [] {
      assert Zip(a, b)[1..] == Zip(a[1..], b[1..]);
      FlatZip(a[1..], b[1..]);
    }
  }

  /** Cancelling a common part of two multiset sums. */
  lemma Cancel<T>(a: multiset<T>, b: multiset<T>, c: multiset<T>)
    requires a + c == b + c
    ensures a == b
  {
    forall x
      ensures a[x] == b[x]
    {
      assert (a + c)[x] == (b + c)[x];
    }
  }
}
