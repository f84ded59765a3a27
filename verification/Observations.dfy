/** Point-in-time observations. All times are integer ticks of one clock. */
module Observations {
  import opened Records
  import opened Ranking

  /** The fields the quantitative engine computes with; descriptive columns are carried in `body`. */
  datatype Observation = Observation(
    intelligenceId: string,
    revision: int,
    revisionId: string,
    eventType: string,
    category: Option<string>,
    entities: seq<string>,
    assets: seq<string>,
    impactDirection: Option<string>,
    confidence: Option<real>,
    eventTime: Option<int>,
    sourcePublishedAt: Option<int>,
    tnlPublishedAt: int,
    retrievedAt: int,
    availableAt: int,
    body: string)

  function Key(o: Observation): string {
    o.intelligenceId + ":" + o.revisionId
  }

  /** The sort key (available_at, key). */
  function Arrival(o: Observation): Rank {
    Rank(o.availableAt, 0, Key(o))
  }

  /** The rows a computation as of `bound` may see, in arrival order. */
  function Visible(observations: seq<Observation>, bound: int): seq<Observation> {
    Sort(Arrival, UpTo(Arrival, bound, observations))
  }

  lemma VisibleSorted(observations: seq<Observation>, bound: int)
    ensures SortedBy(Arrival, Visible(observations, bound))
    ensures forall o :: o in Visible(observations, bound) <==> o in observations && o.availableAt <= bound
  {
    var kept := UpTo(Arrival, bound, observations);
    SortSorts(Arrival, kept);
    SortElements(Arrival, kept);
    FilterElements((o: Observation) => AtOrBefore(Arrival, bound, o), observations);
  }

  /** No look-ahead at the source: a later bound only appends rows that became available after the
      earlier one. */
  lemma VisiblePrefix(observations: seq<Observation>, earlier: int, later: int)
    requires earlier <= later
    ensures Visible(observations, earlier) <= Visible(observations, later)
    ensures forall i :: |Visible(observations, earlier)| <= i < |Visible(observations, later)| ==>
              earlier < Visible(observations, later)[i].availableAt
  {
    var wide := UpTo(Arrival, later, observations);
    UpToSort(Arrival, earlier, wide);
    UpToNested(observations, earlier, later);
    SortSorts(Arrival, wide);
    UpToIsPrefix(Arrival, earlier, Sort(Arrival, wide));
  }

  lemma {:induction false} UpToNested(observations: seq<Observation>, earlier: int, later: int)
    requires earlier <= later
    ensures UpTo(Arrival, earlier, UpTo(Arrival, later, observations)) == UpTo(Arrival, earlier, observations)
  {
    if observations != [] {
      var n := |observations| - 1;
      UpToNested(observations[..n], earlier, later);
      if AtOrBefore(Arrival, later, observations[n]) {
        var kept := UpTo(Arrival, later, observations[..n]);
        assert (kept + [observations[n]])[..|kept|] == kept;
      }
    }
  }

  /** Adding observations that become available after the bound, anywhere in the input, changes nothing. */
  lemma LateArrivalsInvisible(before: seq<Observation>, late: seq<Observation>, after: seq<Observation>, bound: int)
    requires forall o :: o in late ==> bound < o.availableAt
    ensures Visible(before + late + after, bound) == Visible(before + after, bound)
  {
    var p := (o: Observation) => AtOrBefore(Arrival, bound, o);
    FilterConcat(p, before + late, after);
    FilterConcat(p, before, late);
    FilterConcat(p, before, after);
    FilterNone(p, late);
    assert Filter(p, before) + [] + Filter(p, after) == Filter(p, before) + Filter(p, after);
  }

  /** When no two different visible rows share an arrival key, the input order does not matter. */
  lemma VisibleIgnoresInputOrder(a: seq<Observation>, b: seq<Observation>, bound: int)
    requires multiset(a) == multiset(b)
    requires forall x, y :: x in a && y in a && Arrival(x) == Arrival(y) ==> x == y
    ensures Visible(a, bound) == Visible(b, bound)
  {
    VisibleSorted(a, bound);
    VisibleSorted(b, bound);
    var p := (o: Observation) => AtOrBefore(Arrival, bound, o);
    FilterMultiset(p, a);
    FilterMultiset(p, b);
    SortSorts(Arrival, Filter(p, a));
    SortSorts(Arrival, Filter(p, b));
    var va, vb := Visible(a, bound), Visible(b, bound);
    assert forall o :: multiset(va)[o] == multiset(vb)[o];
    SortedUnique(Arrival, va, vb);
  }

  lemma {:induction false} FilterMultiset(p: Observation -> bool, s: seq<Observation>)
    ensures forall o :: multiset(Filter(p, s))[o] == if p(o) then multiset(s)[o] else 0
  {
    if s != [] {
      FilterMultiset(p, s[..|s| - 1]);
      assert s == s[..|s| - 1] + [s[|s| - 1]];
    }
  }
}
