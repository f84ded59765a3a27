/** Sequences without repetition and the sets they list. */
module Distinct {

  ghost predicate NoDuplicates<T>(s: seq<T>) {
    forall i, j :: 0 <= i < j < |s| ==> s[i] != s[j]
  }

  lemma {:induction false} DistinctCount<T>(s: seq<T>, all: set<T>)
    requires NoDuplicates(s) && forall x :: x in all <==> x in s
    ensures |s| == |all|
    decreases |s|
  {
    if s == [] {
      assert all == {};
    } else {
      var last := s[|s| - 1];
      assert last in all;
      forall x
        ensures x in all - {last} <==> x in s[..|s| - 1]
      {
        if x in s && x != last {
          var i :| 0 <= i < |s| && s[i] == x;
          assert s[..|s| - 1][i] == x;
        }
      }
      DistinctCount(s[..|s| - 1], all - {last});
    }
  }

  lemma {:induction false} OnceInDistinct<T>(s: seq<T>, x: T)
    requires NoDuplicates(s)
    ensures multiset(s)[x] <= 1
  {
    if s != [] {
      OnceInDistinct(s[1..], x);
      assert s == [s[0]] + s[1..];
      assert s[0] !in s[1..];
    }
  }

  lemma TwiceInRepeated<T>(s: seq<T>, i: nat, j: nat)
    requires i < j < |s| && s[i] == s[j]
    ensures multiset(s)[s[i]] >= 2
  {
    assert s == s[..j] + [s[j]] + s[j + 1..];
    assert s[i] == s[..j][i];
  }

  lemma PermutedNoDuplicates<T>(a: seq<T>, b: seq<T>)
    requires NoDuplicates(a) && multiset(a) == multiset(b)
    ensures NoDuplicates(b)
  {
    forall i, j | 0 <= i < j < |b|
      ensures b[i] != b[j]
    {
      OnceInDistinct(a, b[i]);
      if b[i] == b[j] {
        TwiceInRepeated(b, i, j);
      }
    }
  }

  lemma NotInPrefix<T>(s: seq<T>, n: nat, j: nat)
    requires n <= |s| && j < |s| && s[j] !in s[..n]
    ensures n <= j
  {
    assert forall k :: 0 <= k < n ==> s[k] == s[..n][k] && s[..n][k] in s[..n];
  }

  lemma TakeNext<T>(s: seq<T>, i: nat)
    requires i < |s|
    ensures s[..i + 1] == s[..i] + [s[i]]
  {
  }

  /** Lists the members of a set in some order. */
  method Enumerate<T(==)>(all: set<T>) returns (s: seq<T>)
    ensures NoDuplicates(s) && |s| == |all|
    ensures forall x :: x in s <==> x in all
  {
    s := [];
    var rest := all;
    while rest != {}
      invariant NoDuplicates(s) && rest <= all
      invariant forall x :: x in s <==> x in all - rest
      decreases rest
    {
      var x :| x in rest;
      assert x !in s;
      s, rest := s + [x], rest - {x};
    }
    DistinctCount(s, all);
  }

  lemma SubsetSize<T>(a: set<T>, b: set<T>)
    requires a <= b
    ensures |a| <= |b|
  {
    assert b == a + (b - a) && a !! (b - a);
  }
}
