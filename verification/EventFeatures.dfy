/** Event features over a sliding novelty window: the incremental counters against a recount. */
module EventFeatures {
  import opened Records
  import opened Ranking
  import opened Observations

  /** One feature row; the columns copied from the observation are the observation itself. */
  datatype Row = Row(
    item: Observation,
    novelty: real,
    revisionCount: nat,
    sinceEvent: Option<int>,
    sinceSource: Option<int>,
    sincePublication: int)

  // ----- the reference definition: recount the window for every row -----

  predicate InWindow(item: Observation, window: int, earlier: Observation) {
    item.availableAt - window <= earlier.availableAt
  }

  predicate SameCategory(item: Observation, earlier: Observation) {
    item.category.Some? && item.category.value != "" && earlier.category == item.category
  }

  function Positions(entities: seq<string>, wanted: set<string>): nat {
    if entities == [] then 0
    else Positions(entities[..|entities| - 1], wanted) + if entities[|entities| - 1] in wanted then 1 else 0
  }

  function EntitySet(item: Observation): set<string> {
    set e | e in item.entities
  }

  /** How strongly one earlier row relates to this one. */
  function Affinity(item: Observation, earlier: Observation): nat {
    Positions(earlier.entities, EntitySet(item))
    + (if SameCategory(item, earlier) then 1 else 0)
    + (if earlier.eventType == item.eventType then 1 else 0)
  }

  function Related(item: Observation, rows: seq<Observation>): nat {
    if rows == [] then 0 else Related(item, rows[..|rows| - 1]) + Affinity(item, rows[|rows| - 1])
  }

  function WindowOf(item: Observation, window: int, earlier: seq<Observation>): seq<Observation> {
    Filter((e: Observation) => InWindow(item, window, e), earlier)
  }

  function RevisionsOf(id: string, rows: seq<Observation>): nat {
    if rows == [] then 0
    else RevisionsOf(id, rows[..|rows| - 1]) + if rows[|rows| - 1].intelligenceId == id then 1 else 0
  }

  function Since(at: int, time: Option<int>): Option<int> {
    if time.Some? then Some(at - time.value) else None
  }

  function RowFrom(item: Observation, related: nat, revisionCount: nat): Row {
    Row(item, 1.0 / (1.0 + related as real), revisionCount,
        Since(item.availableAt, item.eventTime), Since(item.availableAt, item.sourcePublishedAt),
        item.availableAt - item.tnlPublishedAt)
  }

  function RowOf(item: Observation, window: int, earlier: seq<Observation>): Row {
    RowFrom(item, Related(item, WindowOf(item, window, earlier)), RevisionsOf(item.intelligenceId, earlier) + 1)
  }

  function Rows(items: seq<Observation>, window: int): (rows: seq<Row>)
    ensures |rows| == |items|
  {
    if items == [] then []
    else Rows(items[..|items| - 1], window) + [RowOf(items[|items| - 1], window, items[..|items| - 1])]
  }

  lemma {:induction false} RowAt(items: seq<Observation>, window: int, i: nat)
    requires i < |items|
    ensures Rows(items, window)[i] == RowOf(items[i], window, items[..i])
  {
    var n := |items| - 1;
    if i < n {
      RowAt(items[..n], window, i);
      assert items[..n][..i] == items[..i];
    }
  }

  // ----- the incremental counters -----

  function Tally(counts: map<string, int>, key: string): int {
    if key in counts then counts[key] else 0
  }

  function Occurrences(entity: string, rows: seq<Observation>): nat {
    if rows == [] then 0 else Occurrences(entity, rows[..|rows| - 1]) + Positions(rows[|rows| - 1].entities, {entity})
  }

  function CategoryCount(category: string, rows: seq<Observation>): nat {
    if rows == [] then 0
    else CategoryCount(category, rows[..|rows| - 1])
         + if category != "" && rows[|rows| - 1].category == Some(category) then 1 else 0
  }

  function TypeCount(eventType: string, rows: seq<Observation>): nat {
    if rows == [] then 0
    else TypeCount(eventType, rows[..|rows| - 1]) + if rows[|rows| - 1].eventType == eventType then 1 else 0
  }

  /** The local state of the pass: the deque of active rows and its three counters. */
  datatype Window = Window(active: seq<Observation>, entities: map<string, int>, categories: map<string, int>,
                           types: map<string, int>)

  /** The counters hold exactly the recount of the active rows: entities with multiplicity. */
  ghost predicate Counted(w: Window) {
    && (forall e :: Tally(w.entities, e) == Occurrences(e, w.active))
    && (forall c :: c != "" ==> Tally(w.categories, c) == CategoryCount(c, w.active))
    && (forall t :: Tally(w.types, t) == TypeCount(t, w.active))
  }

  // Recounts are sums over rows, so they split at any point.

  lemma {:induction false} CountsConcat(a: seq<Observation>, b: seq<Observation>, key: string)
    ensures Occurrences(key, a + b) == Occurrences(key, a) + Occurrences(key, b)
    ensures CategoryCount(key, a + b) == CategoryCount(key, a) + CategoryCount(key, b)
    ensures TypeCount(key, a + b) == TypeCount(key, a) + TypeCount(key, b)
  {
    if b == [] {
      assert a + b == a;
    } else {
      CountsConcat(a, b[..|b| - 1], key);
      assert (a + b)[..|a + b| - 1] == a + b[..|b| - 1];
    }
  }

  lemma SingleCounts(o: Observation, key: string)
    ensures Occurrences(key, [o]) == Positions(o.entities, {key})
    ensures CategoryCount(key, [o]) == if key != "" && o.category == Some(key) then 1 else 0
    ensures TypeCount(key, [o]) == if o.eventType == key then 1 else 0
  {
    assert [o][..0] == [];
  }

  // ----- counting by key equals counting by row -----

  /** Occurrences, in all rows, of the entities in a set. */
  function Hits(wanted: set<string>, rows: seq<Observation>): nat {
    if rows == [] then 0 else Hits(wanted, rows[..|rows| - 1]) + Positions(rows[|rows| - 1].entities, wanted)
  }

  lemma {:induction false} PositionsSplit(entities: seq<string>, wanted: set<string>, e: string)
    requires e !in wanted
    ensures Positions(entities, wanted + {e}) == Positions(entities, wanted) + Positions(entities, {e})
  {
    if entities != [] {
      PositionsSplit(entities[..|entities| - 1], wanted, e);
    }
  }

  lemma {:induction false} HitsSplit(wanted: set<string>, e: string, rows: seq<Observation>)
    requires e !in wanted
    ensures Hits(wanted + {e}, rows) == Hits(wanted, rows) + Occurrences(e, rows)
  {
    if rows != [] {
      HitsSplit(wanted, e, rows[..|rows| - 1]);
      PositionsSplit(rows[|rows| - 1].entities, wanted, e);
    }
  }

  lemma {:induction false} NoHits(rows: seq<Observation>)
    ensures Hits({}, rows) == 0
  {
    if rows != [] {
      NoHits(rows[..|rows| - 1]);
      NoPositions(rows[|rows| - 1].entities);
    }
  }

  lemma {:induction false} NoPositions(entities: seq<string>)
    ensures Positions(entities, {}) == 0
  {
    if entities != [] {
      NoPositions(entities[..|entities| - 1]);
    }
  }

  /** Summing the counters of an item's keys gives the same number as summing its affinity to each row. */
  lemma {:induction false} RelatedByKey(item: Observation, rows: seq<Observation>)
    ensures Related(item, rows) ==
            Hits(EntitySet(item), rows)
            + (if item.category.Some? then CategoryCount(item.category.value, rows) else 0)
            + TypeCount(item.eventType, rows)
  {
    if rows != [] {
      RelatedByKey(item, rows[..|rows| - 1]);
    }
  }

  // ----- the builder -----

  method SumEntities(item: Observation, counts: map<string, int>, ghost active: seq<Observation>) returns (sum: int)
    requires forall e :: Tally(counts, e) == Occurrences(e, active)
    ensures sum == Hits(EntitySet(item), active)
  {
    sum := 0;
    var rest := set e | e in item.entities;
    ghost var seen: set<string> := {};
    NoHits(active);
    while rest != {}
      invariant seen + rest == EntitySet(item) && seen !! rest
      invariant sum == Hits(seen, active)
      decreases rest
    {
      var e :| e in rest;
      HitsSplit(seen, e, active);
      sum := sum + Tally(counts, e);
      seen, rest := seen + {e}, rest - {e};
    }
    assert seen == EntitySet(item);
  }

  /** Adds `step` for every entity position: +1 when a row enters the window, -1 when it leaves. */
  method Shift(counts: map<string, int>, entities: seq<string>, step: int) returns (shifted: map<string, int>)
    ensures forall e :: Tally(shifted, e) == Tally(counts, e) + step * Positions(entities, {e})
  {
    shifted := counts;
    for i := 0 to |entities|
      invariant forall e :: Tally(shifted, e) == Tally(counts, e) + step * Positions(entities[..i], {e})
    {
      assert entities[..i + 1][..i] == entities[..i];
      shifted := shifted[entities[i] := Tally(shifted, entities[i]) + step];
    }
    assert entities[..|entities|] == entities;
  }

  /** The window at a row: the earlier rows still inside it are a suffix of all earlier rows. */
  lemma WindowIsSuffix(items: seq<Observation>, i: nat, window: int, start: nat)
    requires SortedBy(Arrival, items) && start <= i < |items|
    requires forall k :: 0 <= k < start ==> !InWindow(items[i], window, items[k])
    requires start < i ==> InWindow(items[i], window, items[start])
    ensures items[start..i] == WindowOf(items[i], window, items[..i])
  {
    var p := (e: Observation) => InWindow(items[i], window, e);
    forall k | start <= k < i
      ensures InWindow(items[i], window, items[k])
    {
      if start < k {
        assert Leq(Arrival(items[start]), Arrival(items[k]));
      }
    }
    assert items[..i] == items[..start] + items[start..i];
    FilterConcat(p, items[..start], items[start..i]);
    FilterAll(p, items[start..i]);
    FilterNone(p, items[..start]);
  }

  lemma JoinedCounts(a: seq<Observation>, o: Observation, b: seq<Observation>)
    ensures forall key :: Occurrences(key, a + [o] + b) == Occurrences(key, a) + Positions(o.entities, {key}) + Occurrences(key, b)
    ensures forall key :: CategoryCount(key, a + [o] + b) ==
                          CategoryCount(key, a) + CategoryCount(key, b) + (if key != "" && o.category == Some(key) then 1 else 0)
    ensures forall key :: TypeCount(key, a + [o] + b) ==
                          TypeCount(key, a) + TypeCount(key, b) + (if o.eventType == key then 1 else 0)
  {
    forall key: string
      ensures Occurrences(key, a + [o] + b) == Occurrences(key, a) + Positions(o.entities, {key}) + Occurrences(key, b)
      ensures CategoryCount(key, a + [o] + b) ==
              CategoryCount(key, a) + CategoryCount(key, b) + (if key != "" && o.category == Some(key) then 1 else 0)
      ensures TypeCount(key, a + [o] + b) ==
              TypeCount(key, a) + TypeCount(key, b) + (if o.eventType == key then 1 else 0)
    {
      CountsConcat(a + [o], b, key);
      CountsConcat(a, [o], key);
      SingleCounts(o, key);
    }
  }

  /** Moves the three counters by one row: `step` is +1 when it enters the window and -1 when it leaves. */
  method Recount(item: Observation, step: int, w: Window, active: seq<Observation>) returns (moved: Window)
    ensures moved.active == active
    ensures forall e :: Tally(moved.entities, e) == Tally(w.entities, e) + step * Positions(item.entities, {e})
    ensures forall c :: c != "" ==>
      Tally(moved.categories, c) == Tally(w.categories, c) + if item.category == Some(c) then step else 0
    ensures forall t :: Tally(moved.types, t) == Tally(w.types, t) + if item.eventType == t then step else 0
  {
    var entities := Shift(w.entities, item.entities, step);
    var categories := w.categories;
    if item.category.Some? && item.category.value != "" {
      categories := categories[item.category.value := Tally(categories, item.category.value) + step];
    }
    var types := w.types[item.eventType := Tally(w.types, item.eventType) + step];
    moved := Window(active, entities, categories, types);
  }

  method RelatedCount(item: Observation, w: Window) returns (related: int)
    requires Counted(w)
    ensures related == Related(item, w.active)
  {
    RelatedByKey(item, w.active);
    EmptyCategory(w.active);
    related := SumEntities(item, w.entities, w.active);
    if item.category.Some? && item.category.value != "" {
      related := related + Tally(w.categories, item.category.value);
    }
    related := related + Tally(w.types, item.eventType);
  }

  method Leave(w: Window) returns (left: Window)
    requires Counted(w) && w.active != []
    ensures Counted(left) && left.active == w.active[1..]
  {
    var expired, rest := w.active[0], w.active[1..];
    JoinedCounts([], expired, rest);
    assert [] + [expired] + rest == w.active;
    left := Recount(expired, -1, w, rest);
  }

  method Enter(w: Window, item: Observation) returns (entered: Window)
    requires Counted(w)
    ensures Counted(entered) && entered.active == w.active + [item]
  {
    JoinedCounts(w.active, item, []);
    assert w.active + [item] + [] == w.active + [item];
    entered := Recount(item, 1, w, w.active + [item]);
  }

  /** The first `start` rows have left the window of row i. */
  ghost predicate LeftWindow(items: seq<Observation>, i: nat, window: int, start: nat) {
    i < |items| ==> forall k :: 0 <= k < start <= |items| ==> !InWindow(items[i], window, items[k])
  }

  /** Pops the rows that have left the window from the front of the deque. */
  method Expire(items: seq<Observation>, i: nat, window: int, ghost from: nat, w: Window)
    returns (ghost start: nat, kept: Window)
    requires SortedBy(Arrival, items) && from <= i < |items|
    requires w.active == items[from..i] && Counted(w) && LeftWindow(items, i, window, from)
    ensures start <= i && kept.active == items[start..i] && Counted(kept) && LeftWindow(items, i, window, start)
    ensures kept.active == WindowOf(items[i], window, items[..i])
  {
    start, kept := from, w;
    while kept.active != [] && kept.active[0].availableAt < items[i].availableAt - window
      invariant start <= i && kept.active == items[start..i] && Counted(kept)
      invariant LeftWindow(items, i, window, start)
      decreases |kept.active|
    {
      kept := Leave(kept);
      start := start + 1;
    }
    WindowIsSuffix(items, i, window, start);
  }

  lemma {:induction false} EmptyCategory(rows: seq<Observation>)
    ensures CategoryCount("", rows) == 0
  {
    if rows != [] {
      EmptyCategory(rows[..|rows| - 1]);
    }
  }

  lemma CutoffAdvances(items: seq<Observation>, i: nat, window: int, start: nat)
    requires SortedBy(Arrival, items) && i < |items| && LeftWindow(items, i, window, start)
    ensures LeftWindow(items, i + 1, window, start)
  {
    assert i + 1 < |items| ==> Leq(Arrival(items[i]), Arrival(items[i + 1]));
  }

  lemma SliceGrows(items: seq<Observation>, start: nat, i: nat)
    requires start <= i < |items|
    ensures items[start..i] + [items[i]] == items[start..i + 1]
    ensures items[..i] + [items[i]] == items[..i + 1]
  {
  }

  lemma RowsGrow(seen: seq<Observation>, item: Observation, window: int)
    ensures Rows(seen + [item], window) == Rows(seen, window) + [RowOf(item, window, seen)]
  {
    assert (seen + [item])[..|seen|] == seen;
  }

  method CountRevision(revisions: map<string, int>, item: Observation, ghost seen: seq<Observation>)
    returns (revisions': map<string, int>, count: nat)
    requires forall id :: Tally(revisions, id) == RevisionsOf(id, seen)
    ensures forall id :: Tally(revisions', id) == RevisionsOf(id, seen + [item])
    ensures count == RevisionsOf(item.intelligenceId, seen) + 1
  {
    assert (seen + [item])[..|seen|] == seen;
    count := Tally(revisions, item.intelligenceId) + 1;
    revisions' := revisions[item.intelligenceId := count];
  }

  /** One iteration: expire, count, emit the row, then let the row itself enter the window. */
  method Emit(items: seq<Observation>, i: nat, window: int, ghost from: nat, w: Window, revisions: map<string, int>)
    returns (ghost start: nat, next: Window, revisions': map<string, int>, row: Row)
    requires SortedBy(Arrival, items) && from <= i < |items|
    requires w.active == items[from..i] && Counted(w) && LeftWindow(items, i, window, from)
    requires forall id :: Tally(revisions, id) == RevisionsOf(id, items[..i])
    ensures start <= i && next.active == items[start..i + 1] && Counted(next) && LeftWindow(items, i + 1, window, start)
    ensures forall id :: Tally(revisions', id) == RevisionsOf(id, items[..i + 1])
    ensures row == RowOf(items[i], window, items[..i])
  {
    var item, count, related := items[i], 0, 0;
    start, next := Expire(items, i, window, from, w);
    related := RelatedCount(item, next);
    revisions', count := CountRevision(revisions, item, items[..i]);
    row := RowFrom(item, related, count);
    next := Enter(next, item);
    SliceGrows(items, start, i);
    CutoffAdvances(items, i, window, start);
  }

  /** The incremental pass computes exactly the recounted rows of what is visible as of the bound. */
  method BuildEventFeatures(observations: seq<Observation>, asOf: int, window: int) returns (result: seq<Row>)
    ensures result == Rows(Visible(observations, asOf), window)
  {
    var items := Visible(observations, asOf);
    VisibleSorted(observations, asOf);
    var w, revisions: map<string, int> := Window([], map[], map[], map[]), map[];
    ghost var start: nat := 0;
    result := [];
    for i := 0 to |items|
      invariant start <= i && w.active == items[start..i] && Counted(w) && LeftWindow(items, i, window, start)
      invariant forall id :: Tally(revisions, id) == RevisionsOf(id, items[..i])
      invariant result == Rows(items[..i], window)
    {
      var row;
      start, w, revisions, row := Emit(items, i, window, start, w, revisions);
      RowsGrow(items[..i], items[i], window);
      SliceGrows(items, i, i);
      result := result + [row];
    }
    assert items[..|items|] == items;
  }

  // ----- what the rows guarantee -----

  /** Novelty lies in (0, 1], and is 1 exactly when nothing in the window relates to the row. */
  lemma NoveltyRange(items: seq<Observation>, window: int, i: nat)
    requires i < |items|
    ensures 0.0 < Rows(items, window)[i].novelty <= 1.0
    ensures Rows(items, window)[i].novelty == 1.0 <==> Related(items[i], WindowOf(items[i], window, items[..i])) == 0
  {
    RowAt(items, window, i);
    var n := Related(items[i], WindowOf(items[i], window, items[..i]));
    Reciprocal(1.0 + n as real);
  }

  lemma Reciprocal(x: real)
    requires 1.0 <= x
    ensures 0.0 < 1.0 / x <= 1.0
    ensures 1.0 / x == 1.0 <==> x == 1.0
  {
    assert (1.0 / x) * x == 1.0;
  }

  lemma {:induction false} RowsPrefix(a: seq<Observation>, b: seq<Observation>, window: int)
    requires a <= b
    ensures Rows(a, window) <= Rows(b, window)
  {
    forall i | 0 <= i < |a|
      ensures Rows(a, window)[i] == Rows(b, window)[i]
    {
      RowAt(a, window, i);
      RowAt(b, window, i);
      assert a[..i] == b[..i];
    }
  }

  /** No look-ahead: moving the bound later only appends rows, and every appended row became available
      after the earlier bound. */
  lemma NoLookAhead(observations: seq<Observation>, earlier: int, later: int, window: int)
    requires earlier <= later
    ensures var past, now := Rows(Visible(observations, earlier), window), Rows(Visible(observations, later), window);
      past <= now && forall i :: |past| <= i < |now| ==> earlier < now[i].item.availableAt
  {
    VisiblePrefix(observations, earlier, later);
    RowsPrefix(Visible(observations, earlier), Visible(observations, later), window);
    forall i | 0 <= i < |Visible(observations, later)| {
      RowAt(Visible(observations, later), window, i);
    }
  }

  /** Stability: observations that become available after `bound`, wherever they are inserted, change no
      row at or before it, even in a computation as of a later time. */
  lemma LateArrivalsChangeNothing(before: seq<Observation>, late: seq<Observation>, after: seq<Observation>,
                                  bound: int, asOf: int, window: int)
    requires bound <= asOf && forall o :: o in late ==> bound < o.availableAt
    ensures Rows(Visible(before + after, bound), window) <= Rows(Visible(before + late + after, asOf), window)
    ensures Rows(Visible(before + after, bound), window) <= Rows(Visible(before + after, asOf), window)
  {
    LateArrivalsInvisible(before, late, after, bound);
    NoLookAhead(before + late + after, bound, asOf, window);
    NoLookAhead(before + after, bound, asOf, window);
  }
}
