/** Lexicographic ranks and the stable sort that the event store, the due-list,
    the feature builder and the revision lake all order their records by. */
module Ranking {

  /** A comparison tuple (time, revision, id); a component a caller does not use is constant. */
  datatype Rank = Rank(time: int, revision: int, id: string)

  predicate StringLeq(a: string, b: string) {
    || a == []
    || (b != [] && (a[0] < b[0] || (a[0] == b[0] && StringLeq(a[1..], b[1..]))))
  }

  predicate Leq(a: Rank, b: Rank) {
    || a.time < b.time
    || (a.time == b.time && a.revision < b.revision)
    || (a.time == b.time && a.revision == b.revision && StringLeq(a.id, b.id))
  }

  predicate Less(a: Rank, b: Rank) {
    Leq(a, b) && a != b
  }

  lemma StringTotal(a: string, b: string)
    ensures StringLeq(a, b) || StringLeq(b, a)
  {
    if a != [] && b != [] && a[0] == b[0] {
      StringTotal(a[1..], b[1..]);
    }
  }

  lemma {:induction false} StringAntisymmetric(a: string, b: string)
    requires StringLeq(a, b) && StringLeq(b, a)
    ensures a == b
  {
    if a != [] && b != [] {
      StringAntisymmetric(a[1..], b[1..]);
      assert a == [a[0]] + a[1..] && b == [b[0]] + b[1..];
    }
  }

  lemma {:induction false} StringTransitive(a: string, b: string, c: string)
    requires StringLeq(a, b) && StringLeq(b, c)
    ensures StringLeq(a, c)
  {
    if a != [] && a[0] == b[0] && b[0] == c[0] {
      StringTransitive(a[1..], b[1..], c[1..]);
    }
  }

  /** `Leq` is a total order: any two ranks compare, and only equal ones compare both ways. */
  lemma {:induction false} RankTotal(a: Rank, b: Rank)
    ensures Leq(a, b) || Leq(b, a)
    ensures Leq(a, b) && Leq(b, a) ==> a == b
  {
    StringTotal(a.id, b.id);
    if Leq(a, b) && Leq(b, a) {
      StringAntisymmetric(a.id, b.id);
    }
  }

  lemma {:induction false} RankTransitive(a: Rank, b: Rank, c: Rank)
    requires Leq(a, b) && Leq(b, c)
    ensures Leq(a, c)
  {
    if a.time == b.time == c.time && a.revision == b.revision == c.revision {
      StringTransitive(a.id, b.id, c.id);
    }
  }

  // ----- stable sorting -----

  ghost predicate SortedBy<T(!new)>(rank: T -> Rank, s: seq<T>) {
    forall i, j :: 0 <= i < j < |s| ==> Leq(rank(s[i]), rank(s[j]))
  }

  /** Inserts x behind every element that does not rank above it. */
  function Insert<T>(rank: T -> Rank, x: T, s: seq<T>): seq<T> {
    if s == [] then [x]
    else if Leq(rank(s[0]), rank(x)) then [s[0]] + Insert(rank, x, s[1..])
    else [x] + s
  }

  function Sort<T>(rank: T -> Rank, s: seq<T>): seq<T> {
    if s == [] then [] else Insert(rank, s[|s| - 1], Sort(rank, s[..|s| - 1]))
  }

  function Filter<T>(p: T -> bool, s: seq<T>): seq<T> {
    if s == [] then []
    else if p(s[|s| - 1]) then Filter(p, s[..|s| - 1]) + [s[|s| - 1]]
    else Filter(p, s[..|s| - 1])
  }

  lemma {:induction false} InsertContents<T(!new)>(rank: T -> Rank, x: T, s: seq<T>)
    ensures multiset(Insert(rank, x, s)) == multiset(s) + multiset{x}
    ensures forall y :: y in Insert(rank, x, s) ==> y == x || y in s
  {
    if s != [] && Leq(rank(s[0]), rank(x)) {
      InsertContents(rank, x, s[1..]);
      assert s == [s[0]] + s[1..];
    }
  }

  lemma {:induction false} InsertSorts<T(!new)>(rank: T -> Rank, x: T, s: seq<T>)
    requires SortedBy(rank, s)
    ensures SortedBy(rank, Insert(rank, x, s))
  {
    if s == [] {
    } else if Leq(rank(s[0]), rank(x)) {
      InsertSorts(rank, x, s[1..]);
      InsertContents(rank, x, s[1..]);
      SortedCons(rank, s[0], Insert(rank, x, s[1..]));
    } else {
      RankTotal(rank(s[0]), rank(x));
      forall y | y in s
        ensures Leq(rank(x), rank(y))
      {
        if y != s[0] {
          RankTransitive(rank(x), rank(s[0]), rank(y));
        }
      }
      SortedCons(rank, x, s);
    }
  }

  lemma SortedCons<T(!new)>(rank: T -> Rank, x: T, s: seq<T>)
    requires SortedBy(rank, s) && forall y :: y in s ==> Leq(rank(x), rank(y))
    ensures SortedBy(rank, [x] + s)
  {
    var r := [x] + s;
    forall i, j | 0 <= i < j < |r|
      ensures Leq(rank(r[i]), rank(r[j]))
    {
      assert r[j] == s[j - 1];
      if i > 0 {
        assert r[i] == s[i - 1];
      }
    }
  }

  /** Sorting yields a sorted permutation of its input. */
  lemma {:induction false} SortSorts<T(!new)>(rank: T -> Rank, s: seq<T>)
    ensures SortedBy(rank, Sort(rank, s))
    ensures multiset(Sort(rank, s)) == multiset(s)
    ensures |Sort(rank, s)| == |s|
  {
    if s != [] {
      SortSorts(rank, s[..|s| - 1]);
      InsertSorts(rank, s[|s| - 1], Sort(rank, s[..|s| - 1]));
      InsertContents(rank, s[|s| - 1], Sort(rank, s[..|s| - 1]));
      assert s == s[..|s| - 1] + [s[|s| - 1]];
    }
    assert |multiset(Sort(rank, s))| == |multiset(s)|;
  }

  lemma SortElements<T(!new)>(rank: T -> Rank, s: seq<T>)
    ensures forall x :: x in Sort(rank, s) <==> x in s
  {
    SortSorts(rank, s);
    assert forall x :: x in Sort(rank, s) <==> x in multiset(Sort(rank, s));
    assert forall x :: x in s <==> x in multiset(s);
  }

  lemma SortedHead<T(!new)>(rank: T -> Rank, s: seq<T>, x: T)
    requires SortedBy(rank, s) && x in multiset(s)
    ensures s != [] && Leq(rank(s[0]), rank(x))
  {
    assert x in s;
    var i :| 0 <= i < |s| && s[i] == x;
    if i == 0 {
      RankTotal(rank(x), rank(x));
    }
  }

  /** With pairwise different ranks, a sorted sequence is determined by its contents. */
  lemma {:induction false} SortedUnique<T(!new)>(rank: T -> Rank, a: seq<T>, b: seq<T>)
    requires SortedBy(rank, a) && SortedBy(rank, b)
    requires multiset(a) == multiset(b)
    requires forall x, y :: x in a && y in a && rank(x) == rank(y) ==> x == y
    ensures a == b
  {
    assert |a| == |multiset(a)| == |multiset(b)| == |b|;
    if a != [] {
      SameHead(rank, a, b);
      TailContents(a);
      TailContents(b);
      SortedUnique(rank, a[1..], b[1..]);
    }
  }

  lemma SameHead<T(!new)>(rank: T -> Rank, a: seq<T>, b: seq<T>)
    requires SortedBy(rank, a) && SortedBy(rank, b) && a != [] && b != []
    requires multiset(a) == multiset(b)
    requires forall x, y :: x in a && y in a && rank(x) == rank(y) ==> x == y
    ensures a[0] == b[0]
  {
    assert a[0] in multiset(a) && b[0] in multiset(b);
    SortedHead(rank, a, b[0]);
    SortedHead(rank, b, a[0]);
    RankTotal(rank(a[0]), rank(b[0]));
    assert b[0] in a;
  }

  lemma TailContents<T(!new)>(s: seq<T>)
    requires s != []
    ensures s == [s[0]] + s[1..]
    ensures multiset(s[1..]) == multiset(s) - multiset{s[0]}
  {
    assert s == [s[0]] + s[1..];
  }

  // ----- filtering a sorted sequence by time -----

  predicate AtOrBefore<T>(rank: T -> Rank, bound: int, x: T) {
    rank(x).time <= bound
  }

  function UpTo<T>(rank: T -> Rank, bound: int, s: seq<T>): seq<T> {
    Filter((x: T) => AtOrBefore(rank, bound, x), s)
  }

  lemma {:induction false} FilterElements<T(!new)>(p: T -> bool, s: seq<T>)
    ensures forall x :: x in Filter(p, s) <==> x in s && p(x)
  {
    if s != [] {
      FilterElements(p, s[..|s| - 1]);
      assert s == s[..|s| - 1] + [s[|s| - 1]];
    }
  }

  lemma {:induction false} FilterConcat<T(!new)>(p: T -> bool, a: seq<T>, b: seq<T>)
    ensures Filter(p, a + b) == Filter(p, a) + Filter(p, b)
  {
    if b == [] {
      assert a + b == a;
    } else {
      FilterConcat(p, a, b[..|b| - 1]);
      assert (a + b)[..|a + b| - 1] == a + b[..|b| - 1];
    }
  }

  lemma {:induction false} FilterAll<T(!new)>(p: T -> bool, s: seq<T>)
    requires forall k :: 0 <= k < |s| ==> p(s[k])
    ensures Filter(p, s) == s
  {
    if s != [] {
      FilterAll(p, s[..|s| - 1]);
    }
  }

  lemma {:induction false} FilterNone<T(!new)>(p: T -> bool, s: seq<T>)
    requires forall k :: 0 <= k < |s| ==> !p(s[k])
    ensures Filter(p, s) == []
  {
    if s != [] {
      FilterNone(p, s[..|s| - 1]);
    }
  }

  /** Filtering by time keeps exactly a prefix of a sorted sequence. */
  lemma {:induction false} UpToIsPrefix<T(!new)>(rank: T -> Rank, bound: int, s: seq<T>)
    requires SortedBy(rank, s)
    ensures UpTo(rank, bound, s) <= s
    ensures forall i :: |UpTo(rank, bound, s)| <= i < |s| ==> bound < rank(s[i]).time
  {
    if s != [] {
      var n := |s| - 1;
      UpToIsPrefix(rank, bound, s[..n]);
      if AtOrBefore(rank, bound, s[n]) {
        var kept := UpTo(rank, bound, s[..n]);
        assert |kept| == n;
        assert s == s[..n] + [s[n]];
      }
    }
  }

  lemma {:induction false} UpToInsert<T(!new)>(rank: T -> Rank, bound: int, x: T, s: seq<T>)
    requires SortedBy(rank, s)
    ensures UpTo(rank, bound, Insert(rank, x, s)) ==
            if AtOrBefore(rank, bound, x) then Insert(rank, x, UpTo(rank, bound, s)) else UpTo(rank, bound, s)
  {
    var p := (y: T) => AtOrBefore(rank, bound, y);
    if s == [] {
      assert Filter(p, [x]) == if p(x) then [x] else [];
    } else {
      var h, t := s[0], s[1..];
      assert s == [h] + t;
      FilterConcat(p, [h], t);
      assert Filter(p, [h]) == if p(h) then [h] else [];
      if Leq(rank(h), rank(x)) {
        UpToInsert(rank, bound, x, t);
        FilterConcat(p, [h], Insert(rank, x, t));
      } else {
        RankTotal(rank(h), rank(x));
        FilterConcat(p, [x], s);
        assert Filter(p, [x]) == if p(x) then [x] else [];
        if p(h) {
          assert Insert(rank, x, UpTo(rank, bound, s)) == [x] + UpTo(rank, bound, s);
        } else {
          UpToIsPrefix(rank, bound, s);
          FilterElements(p, s);
          assert UpTo(rank, bound, s) == [];
        }
      }
    }
  }

  /** Filtering by time and stable sorting commute. */
  lemma {:induction false} UpToSort<T(!new)>(rank: T -> Rank, bound: int, s: seq<T>)
    ensures Sort(rank, UpTo(rank, bound, s)) == UpTo(rank, bound, Sort(rank, s))
  {
    if s != [] {
      var n := |s| - 1;
      UpToSort(rank, bound, s[..n]);
      SortSorts(rank, s[..n]);
      UpToInsert(rank, bound, s[n], Sort(rank, s[..n]));
      if AtOrBefore(rank, bound, s[n]) {
        var kept := UpTo(rank, bound, s[..n]);
        assert (kept + [s[n]])[..|kept + [s[n]]| - 1] == kept;
      }
    }
  }
}
