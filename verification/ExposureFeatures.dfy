/** Exposure features: rows per entity mapping, and the second pass that marks contradictory directions. */
module ExposureFeatures {
  import opened Observations
  import opened Ranking
  import opened Records

  datatype Mapping = Mapping(
    id: string,
    entityId: string,
    asset: string,
    validFrom: int,
    validTo: Option<int>,
    confidence: real)

  datatype Row = Row(
    item: Observation,
    entityId: string,
    mapping: Mapping,
    direction: string,
    decay: real,
    weight: real,
    uncertain: bool,
    contradictory: bool)

  const UNCERTAIN := "uncertain"

  /** What a direction is about. */
  type Pair = (string, string)

  function PairOf(row: Row): Pair {
    (row.entityId, row.mapping.asset)
  }

  predicate ValidAt(m: Mapping, time: int) {
    m.validFrom <= time && (m.validTo.None? || time < m.validTo.value)
  }

  /** An absent or empty direction reads as uncertain. */
  function Direction(item: Observation): string {
    if item.impactDirection.Some? && item.impactDirection.value != "" then item.impactDirection.value else UNCERTAIN
  }

  /** How far an observation of this age has faded. */
  type Decay = int -> real

  function RowFor(item: Observation, entity: string, m: Mapping, fade: real): Row {
    Row(item, entity, m, Direction(item), fade,
        fade * (if item.confidence.Some? then item.confidence.value else 0.5) * m.confidence,
        Direction(item) == UNCERTAIN || item.confidence.None?, false)
  }

  predicate Applies(m: Mapping, entity: string, time: int) {
    m.entityId == entity && ValidAt(m, time)
  }

  /** The rows one entity of one observation contributes: one per mapping valid when it became available. */
  function EntityRows(item: Observation, entity: string, mappings: seq<Mapping>, fade: real): seq<Row> {
    if mappings == [] then []
    else
      var m := mappings[|mappings| - 1];
      EntityRows(item, entity, mappings[..|mappings| - 1], fade)
      + if Applies(m, entity, item.availableAt) then [RowFor(item, entity, m, fade)] else []
  }

  function ItemRows(item: Observation, entities: seq<string>, mappings: seq<Mapping>, fade: real): seq<Row> {
    if entities == [] then []
    else ItemRows(item, entities[..|entities| - 1], mappings, fade)
         + EntityRows(item, entities[|entities| - 1], mappings, fade)
  }

  function AllRows(items: seq<Observation>, mappings: seq<Mapping>, asOf: int, decay: Decay): seq<Row> {
    if items == [] then []
    else
      var item := items[|items| - 1];
      AllRows(items[..|items| - 1], mappings, asOf, decay)
      + ItemRows(item, item.entities, mappings, decay(asOf - item.availableAt))
  }

  // ----- contradiction, stated on the rows -----

  predicate Claims(rows: seq<Row>, pair: Pair, i: int, direction: string) {
    0 <= i < |rows| && PairOf(rows[i]) == pair && rows[i].direction == direction != UNCERTAIN
  }

  /** Two rows about the same pair claim different, certain directions. */
  ghost predicate Contradicted(rows: seq<Row>, pair: Pair) {
    exists a, b, x, y :: Claims(rows, pair, a, x) && Claims(rows, pair, b, y) && x != y
  }

  /** Every row is as the first pass made it, marked exactly when its pair is contradicted by some rows. */
  ghost predicate Marked(plain: seq<Row>, marked: seq<Row>) {
    |marked| == |plain| && forall i :: 0 <= i < |plain| ==>
      marked[i] == plain[i].(contradictory := Contradicted(plain, PairOf(plain[i])))
  }

  // ----- the first pass -----

  type Directions = map<Pair, set<string>>

  function DirectionsOf(rows: seq<Row>, pair: Pair): set<string> {
    set row | row in rows && PairOf(row) == pair :: row.direction
  }

  function At(directions: Directions, pair: Pair): set<string> {
    if pair in directions then directions[pair] else {}
  }

  /** The dictionary holds, for every pair, exactly the directions of its rows. */
  ghost predicate Collected(directions: Directions, rows: seq<Row>) {
    forall pair :: At(directions, pair) == DirectionsOf(rows, pair)
  }

  lemma CollectStep(directions: Directions, rows: seq<Row>, row: Row)
    requires Collected(directions, rows)
    ensures Collected(directions[PairOf(row) := At(directions, PairOf(row)) + {row.direction}], rows + [row])
  {
    var next := directions[PairOf(row) := At(directions, PairOf(row)) + {row.direction}];
    forall pair
      ensures At(next, pair) == DirectionsOf(rows + [row], pair)
    {
      assert forall r :: r in rows + [row] <==> r in rows || r == row;
      assert DirectionsOf(rows + [row], pair)
        == DirectionsOf(rows, pair) + if PairOf(row) == pair then {row.direction} else {};
    }
  }

  datatype Pass = Pass(rows: seq<Row>, directions: Directions)

  method AddEntity(item: Observation, entity: string, mappings: seq<Mapping>, fade: real, p: Pass) returns (next: Pass)
    requires Collected(p.directions, p.rows)
    ensures next.rows == p.rows + EntityRows(item, entity, mappings, fade) && Collected(next.directions, next.rows)
  {
    next := p;
    assert p.rows + [] == p.rows;
    for i := 0 to |mappings|
      invariant next.rows == p.rows + EntityRows(item, entity, mappings[..i], fade) && Collected(next.directions, next.rows)
    {
      assert mappings[..i + 1][..i] == mappings[..i];
      if Applies(mappings[i], entity, item.availableAt) {
        var row := RowFor(item, entity, mappings[i], fade);
        CollectStep(next.directions, next.rows, row);
        next := Pass(next.rows + [row], next.directions[PairOf(row) := At(next.directions, PairOf(row)) + {row.direction}]);
      }
    }
    assert mappings[..|mappings|] == mappings;
  }

  method AddItem(item: Observation, mappings: seq<Mapping>, fade: real, p: Pass) returns (next: Pass)
    requires Collected(p.directions, p.rows)
    ensures next.rows == p.rows + ItemRows(item, item.entities, mappings, fade) && Collected(next.directions, next.rows)
  {
    next := p;
    assert p.rows + [] == p.rows;
    for i := 0 to |item.entities|
      invariant next.rows == p.rows + ItemRows(item, item.entities[..i], mappings, fade)
      invariant Collected(next.directions, next.rows)
    {
      assert item.entities[..i + 1][..i] == item.entities[..i];
      next := AddEntity(item, item.entities[i], mappings, fade, next);
    }
    assert item.entities[..|item.entities|] == item.entities;
  }

  method FirstPass(items: seq<Observation>, mappings: seq<Mapping>, asOf: int, decay: Decay) returns (p: Pass)
    ensures p.rows == AllRows(items, mappings, asOf, decay) && Collected(p.directions, p.rows)
  {
    p := Pass([], map[]);
    for i := 0 to |items|
      invariant p.rows == AllRows(items[..i], mappings, asOf, decay) && Collected(p.directions, p.rows)
    {
      ghost var head := items[..i + 1];
      assert head[..i] == items[..i] && head[i] == items[i];
      p := AddItem(items[i], mappings, decay(asOf - items[i].availableAt), p);
    }
    assert items[..|items|] == items;
  }

  /** Both passes. A half-life that is not positive is rejected. */
  method BuildExposureFeatures(observations: seq<Observation>, mappings: seq<Mapping>, asOf: int, halfLife: int,
                               decay: Decay) returns (result: Option<seq<Row>>)
    ensures result.None? <==> halfLife <= 0
    ensures result.Some? ==> Marked(AllRows(Visible(observations, asOf), mappings, asOf, decay), result.value)
  {
    if halfLife <= 0 {
      return None;
    }
    var p := FirstPass(Visible(observations, asOf), mappings, asOf, decay);
    var rows := MarkContradictions(p);
    result := Some(rows);
  }

  function Certain(directions: Directions, pair: Pair): set<string> {
    At(directions, pair) - {UNCERTAIN}
  }

  lemma CertainClaim(directions: Directions, rows: seq<Row>, pair: Pair, direction: string) returns (i: int)
    requires Collected(directions, rows) && direction in Certain(directions, pair)
    ensures Claims(rows, pair, i, direction)
  {
    assert direction in DirectionsOf(rows, pair);
    i :| 0 <= i < |rows| && PairOf(rows[i]) == pair && rows[i].direction == direction;
  }

  lemma ClaimCertain(directions: Directions, rows: seq<Row>, pair: Pair, i: int, direction: string)
    requires Collected(directions, rows) && Claims(rows, pair, i, direction)
    ensures direction in Certain(directions, pair)
  {
    assert rows[i] in rows;
    assert direction in DirectionsOf(rows, pair);
  }

  lemma ContradictedIff(directions: Directions, rows: seq<Row>, pair: Pair)
    requires Collected(directions, rows)
    ensures |Certain(directions, pair)| > 1 <==> Contradicted(rows, pair)
  {
    var certain := Certain(directions, pair);
    if |certain| > 1 {
      var x :| x in certain;
      assert |certain - {x}| > 0;
      var y :| y in certain - {x};
      var a := CertainClaim(directions, rows, pair, x);
      var b := CertainClaim(directions, rows, pair, y);
    }
    if Contradicted(rows, pair) {
      var a, b, x, y :| Claims(rows, pair, a, x) && Claims(rows, pair, b, y) && x != y;
      ClaimCertain(directions, rows, pair, a, x);
      ClaimCertain(directions, rows, pair, b, y);
      TwoMembers(certain, x, y);
    }
  }

  lemma TwoMembers<T>(s: set<T>, x: T, y: T)
    requires x in s && y in s && x != y
    ensures |s| > 1
  {
    assert |s - {x}| == |s| - 1 && y in s - {x};
  }

  /** The second pass overwrites the flag of every row. */
  method MarkContradictions(p: Pass) returns (rows: seq<Row>)
    requires Collected(p.directions, p.rows)
    ensures Marked(p.rows, rows)
  {
    rows := p.rows;
    for i := 0 to |p.rows|
      invariant |rows| == |p.rows|
      invariant forall k :: i <= k < |p.rows| ==> rows[k] == p.rows[k]
      invariant forall k :: 0 <= k < i ==> rows[k] == p.rows[k].(contradictory := Contradicted(p.rows, PairOf(p.rows[k])))
    {
      var pair := PairOf(rows[i]);
      ContradictedIff(p.directions, p.rows, pair);
      rows := rows[i := rows[i].(contradictory := |Certain(p.directions, pair)| > 1)];
    }
  }

  // ----- what changes when the bound moves -----

  /** A row without what depends on the bound. */
  function Identity(row: Row): Row {
    row.(decay := 0.0, weight := 0.0, contradictory := false)
  }

  ghost predicate SameRows(a: seq<Row>, b: seq<Row>) {
    |a| <= |b| && forall i :: 0 <= i < |a| ==> Identity(a[i]) == Identity(b[i])
  }

  lemma {:induction false} EntityRowsIdentity(item: Observation, entity: string, mappings: seq<Mapping>, f: real, g: real)
    ensures |EntityRows(item, entity, mappings, f)| == |EntityRows(item, entity, mappings, g)|
    ensures SameRows(EntityRows(item, entity, mappings, f), EntityRows(item, entity, mappings, g))
  {
    if mappings != [] {
      EntityRowsIdentity(item, entity, mappings[..|mappings| - 1], f, g);
    }
  }

  lemma {:induction false} ItemRowsIdentity(item: Observation, entities: seq<string>, mappings: seq<Mapping>, f: real, g: real)
    ensures |ItemRows(item, entities, mappings, f)| == |ItemRows(item, entities, mappings, g)|
    ensures SameRows(ItemRows(item, entities, mappings, f), ItemRows(item, entities, mappings, g))
  {
    if entities != [] {
      ItemRowsIdentity(item, entities[..|entities| - 1], mappings, f, g);
      EntityRowsIdentity(item, entities[|entities| - 1], mappings, f, g);
    }
  }

  lemma SameRowsAppend(a: seq<Row>, x: seq<Row>, b: seq<Row>, y: seq<Row>)
    requires SameRows(a, b) && |a| == |b| && SameRows(x, y) && |x| == |y|
    ensures SameRows(a + x, b + y) && |a + x| == |b + y|
  {
  }

  /** The same observations make the same rows at any bound. */
  lemma {:induction false} AllRowsSame(items: seq<Observation>, mappings: seq<Mapping>, t: int, u: int, decay: Decay)
    ensures |AllRows(items, mappings, t, decay)| == |AllRows(items, mappings, u, decay)|
    ensures SameRows(AllRows(items, mappings, t, decay), AllRows(items, mappings, u, decay))
  {
    if items != [] {
      var n := |items| - 1;
      var item := items[n];
      var f, g := decay(t - item.availableAt), decay(u - item.availableAt);
      AllRowsSame(items[..n], mappings, t, u, decay);
      ItemRowsIdentity(item, item.entities, mappings, f, g);
      var a, x := AllRows(items[..n], mappings, t, decay), ItemRows(item, item.entities, mappings, f);
      var b, y := AllRows(items[..n], mappings, u, decay), ItemRows(item, item.entities, mappings, g);
      SameRowsAppend(a, x, b, y);
      assert AllRows(items, mappings, t, decay) == a + x && AllRows(items, mappings, u, decay) == b + y;
    }
  }

  /** More observations at the end only append rows. */
  lemma {:induction false} AllRowsPrefix(a: seq<Observation>, b: seq<Observation>, mappings: seq<Mapping>, t: int, decay: Decay)
    requires a <= b
    ensures AllRows(a, mappings, t, decay) <= AllRows(b, mappings, t, decay)
    decreases |b|
  {
    if a != b {
      assert a <= b[..|b| - 1];
      AllRowsPrefix(a, b[..|b| - 1], mappings, t, decay);
    }
  }

  lemma AllRowsGrow(a: seq<Observation>, b: seq<Observation>, mappings: seq<Mapping>, t: int, u: int, decay: Decay)
    requires a <= b
    ensures SameRows(AllRows(a, mappings, t, decay), AllRows(b, mappings, u, decay))
  {
    AllRowsSame(a, mappings, t, u, decay);
    AllRowsPrefix(a, b, mappings, u, decay);
  }

  /** Moving the bound later keeps every earlier row in place and can only add contradiction marks. */
  lemma MarksOnlyGrow(observations: seq<Observation>, mappings: seq<Mapping>, earlier: int, later: int, decay: Decay,
                      past: seq<Row>, now: seq<Row>)
    requires earlier <= later
    requires Marked(AllRows(Visible(observations, earlier), mappings, earlier, decay), past)
    requires Marked(AllRows(Visible(observations, later), mappings, later, decay), now)
    ensures SameRows(past, now) && forall i :: 0 <= i < |past| && past[i].contradictory ==> now[i].contradictory
  {
    var a, b := AllRows(Visible(observations, earlier), mappings, earlier, decay),
                AllRows(Visible(observations, later), mappings, later, decay);
    VisiblePrefix(observations, earlier, later);
    AllRowsGrow(Visible(observations, earlier), Visible(observations, later), mappings, earlier, later, decay);
    forall i | 0 <= i < |past|
      ensures Identity(past[i]) == Identity(now[i]) && (past[i].contradictory ==> now[i].contradictory)
    {
      assert Identity(past[i]) == Identity(a[i]) == Identity(b[i]) == Identity(now[i]);
      assert PairOf(a[i]) == PairOf(Identity(a[i])) == PairOf(b[i]);
      if past[i].contradictory {
        ContradictionGrows(a, b, PairOf(a[i]));
      }
    }
  }

  lemma ContradictionGrows(a: seq<Row>, b: seq<Row>, pair: Pair)
    requires SameRows(a, b) && Contradicted(a, pair)
    ensures Contradicted(b, pair)
  {
    var i, j, x, y :| Claims(a, pair, i, x) && Claims(a, pair, j, y) && x != y;
    assert Claims(b, pair, i, x) && Claims(b, pair, j, y) by {
      SameClaim(a, b, pair, i, x);
      SameClaim(a, b, pair, j, y);
    }
  }

  lemma SameClaim(a: seq<Row>, b: seq<Row>, pair: Pair, i: int, direction: string)
    requires SameRows(a, b) && Claims(a, pair, i, direction)
    ensures Claims(b, pair, i, direction)
  {
    assert Identity(a[i]) == Identity(b[i]);
    assert PairOf(Identity(a[i])) == PairOf(a[i]) && PairOf(Identity(b[i])) == PairOf(b[i]);
    assert Identity(a[i]).direction == a[i].direction && Identity(b[i]).direction == b[i].direction;
  }

  // ----- exactly when a mark is stable -----

  lemma {:induction false} EntityRowItems(item: Observation, entity: string, mappings: seq<Mapping>, fade: real)
    ensures forall k :: 0 <= k < |EntityRows(item, entity, mappings, fade)| ==> EntityRows(item, entity, mappings, fade)[k].item == item
  {
    if mappings != [] {
      EntityRowItems(item, entity, mappings[..|mappings| - 1], fade);
    }
  }

  lemma {:induction false} ItemRowItems(item: Observation, entities: seq<string>, mappings: seq<Mapping>, fade: real)
    ensures forall k :: 0 <= k < |ItemRows(item, entities, mappings, fade)| ==> ItemRows(item, entities, mappings, fade)[k].item == item
  {
    if entities != [] {
      ItemRowItems(item, entities[..|entities| - 1], mappings, fade);
      EntityRowItems(item, entities[|entities| - 1], mappings, fade);
    }
  }

  /** Every row belongs to one of the observations. */
  lemma {:induction false} RowItems(items: seq<Observation>, mappings: seq<Mapping>, t: int, decay: Decay, k: nat)
    requires k < |AllRows(items, mappings, t, decay)|
    ensures AllRows(items, mappings, t, decay)[k].item in items
  {
    var n := |items| - 1;
    var head := AllRows(items[..n], mappings, t, decay);
    assert items == items[..n] + [items[n]];
    if k < |head| {
      RowItems(items[..n], mappings, t, decay, k);
    } else {
      ItemRowItems(items[n], items[n].entities, mappings, decay(t - items[n].availableAt));
    }
  }

  /** A later bound's rows come from the early observations exactly for the first |a| observations' rows. */
  lemma {:induction false} AppendedRowItems(a: seq<Observation>, b: seq<Observation>, mappings: seq<Mapping>, t: int, decay: Decay,
                                            k: nat)
    requires a <= b && |AllRows(a, mappings, t, decay)| <= k < |AllRows(b, mappings, t, decay)|
    ensures AllRows(b, mappings, t, decay)[k].item in b[|a|..]
    decreases |b|
  {
    var n := |b| - 1;
    assert a != b && a <= b[..n];
    assert b[|a|..] == b[..n][|a|..] + [b[n]];
    if k < |AllRows(b[..n], mappings, t, decay)| {
      AppendedRowItems(a, b[..n], mappings, t, decay, k);
    } else {
      ItemRowItems(b[n], b[n].entities, mappings, decay(t - b[n].availableAt));
    }
  }

  /** Which rows are new at the later bound: those of observations that arrived after the earlier one. */
  lemma NewRowsArriveLater(observations: seq<Observation>, mappings: seq<Mapping>, earlier: int, later: int, decay: Decay, k: nat)
    requires earlier <= later && k < |AllRows(Visible(observations, later), mappings, later, decay)|
    ensures var a, b := AllRows(Visible(observations, earlier), mappings, earlier, decay),
                        AllRows(Visible(observations, later), mappings, later, decay);
      k < |a| <==> b[k].item.availableAt <= earlier
  {
    var early, now := Visible(observations, earlier), Visible(observations, later);
    VisiblePrefix(observations, earlier, later);
    VisibleSorted(observations, earlier);
    AllRowsSame(early, mappings, earlier, later, decay);
    AllRowsPrefix(early, now, mappings, later, decay);
    if k < |AllRows(early, mappings, later, decay)| {
      RowItems(early, mappings, later, decay, k);
    } else {
      AppendedRowItems(early, now, mappings, later, decay, k);
    }
  }

  /** One of the rows from n on claims a direction that differs from another certain claim on the pair. */
  ghost predicate NewOpposition(rows: seq<Row>, pair: Pair, n: nat) {
    exists i, j, x, y :: n <= i && Claims(rows, pair, i, x) && Claims(rows, pair, j, y) && x != y
  }

  /** A pair keeps its status exactly when it is contradicted already or nothing new opposes any claim on it. */
  lemma StatusStableIff(a: seq<Row>, b: seq<Row>, pair: Pair)
    requires SameRows(a, b)
    ensures (Contradicted(a, pair) <==> Contradicted(b, pair)) <==> Contradicted(a, pair) || !NewOpposition(b, pair, |a|)
  {
    if Contradicted(a, pair) {
      ContradictionGrows(a, b, pair);
    } else if i, j, x, y :| Claims(b, pair, i, x) && Claims(b, pair, j, y) && x != y {
      if i < |a| && j < |a| {
        ClaimBack(a, b, pair, i, x);
        ClaimBack(a, b, pair, j, y);
      }
      assert i < |a| && j < |a| ==> Contradicted(a, pair);
      assert |a| <= i || |a| <= j;
    }
  }

  lemma ClaimBack(a: seq<Row>, b: seq<Row>, pair: Pair, i: int, direction: string)
    requires SameRows(a, b) && Claims(b, pair, i, direction) && i < |a|
    ensures Claims(a, pair, i, direction)
  {
    assert Identity(a[i]) == Identity(b[i]);
    assert PairOf(Identity(a[i])) == PairOf(a[i]) && PairOf(Identity(b[i])) == PairOf(b[i]);
    assert Identity(a[i]).direction == a[i].direction && Identity(b[i]).direction == b[i].direction;
  }

  /** Marks look ahead, exactly: a row's mark is the same at both bounds if and only if the row is marked already, or no
      row that arrives after the earlier bound claims a direction that differs from another certain claim on its pair. */
  lemma MarkStableIff(observations: seq<Observation>, mappings: seq<Mapping>, earlier: int, later: int, decay: Decay,
                      past: seq<Row>, now: seq<Row>, i: nat)
    requires earlier <= later && i < |past|
    requires Marked(AllRows(Visible(observations, earlier), mappings, earlier, decay), past)
    requires Marked(AllRows(Visible(observations, later), mappings, later, decay), now)
    ensures i < |now| && PairOf(past[i]) == PairOf(now[i])
    ensures past[i].contradictory == now[i].contradictory <==>
      past[i].contradictory || !exists j, k, x, y :: Claims(now, PairOf(now[i]), j, x) && earlier < now[j].item.availableAt
                                                      && Claims(now, PairOf(now[i]), k, y) && x != y
  {
    var a, b := AllRows(Visible(observations, earlier), mappings, earlier, decay),
                AllRows(Visible(observations, later), mappings, later, decay);
    MarksOnlyGrow(observations, mappings, earlier, later, decay, past, now);
    VisiblePrefix(observations, earlier, later);
    AllRowsGrow(Visible(observations, earlier), Visible(observations, later), mappings, earlier, later, decay);
    assert Identity(a[i]) == Identity(past[i]) == Identity(now[i]) == Identity(b[i]);
    var pair := PairOf(a[i]);
    assert PairOf(past[i]) == pair && PairOf(now[i]) == PairOf(Identity(now[i])) == PairOf(Identity(a[i])) == pair;
    assert PairOf(b[i]) == PairOf(Identity(b[i])) == pair;
    StatusStableIff(a, b, pair);
    OppositionArrives(observations, mappings, earlier, later, decay, now, pair);
  }

  lemma OppositionArrives(observations: seq<Observation>, mappings: seq<Mapping>, earlier: int, later: int, decay: Decay,
                          now: seq<Row>, pair: Pair)
    requires earlier <= later && Marked(AllRows(Visible(observations, later), mappings, later, decay), now)
    ensures var a, b := AllRows(Visible(observations, earlier), mappings, earlier, decay),
                        AllRows(Visible(observations, later), mappings, later, decay);
      NewOpposition(b, pair, |a|) <==>
        exists j, k, x, y :: Claims(now, pair, j, x) && earlier < now[j].item.availableAt && Claims(now, pair, k, y) && x != y
  {
    var a, b := AllRows(Visible(observations, earlier), mappings, earlier, decay),
                AllRows(Visible(observations, later), mappings, later, decay);
    forall j, x
      ensures Claims(now, pair, j, x) <==> Claims(b, pair, j, x)
      ensures Claims(b, pair, j, x) ==> (|a| <= j <==> earlier < now[j].item.availableAt)
    {
      if Claims(b, pair, j, x) {
        NewRowsArriveLater(observations, mappings, earlier, later, decay, j);
      }
    }
  }

  // ----- weights -----

  /** What the decay is: it halves with every half-life and never fades to nothing. */
  ghost predicate HalvesEvery(decay: Decay, halfLife: int) {
    decay(0) == 1.0 && forall age :: decay(age) > 0.0 && 2.0 * decay(age + halfLife) == decay(age)
  }

  ghost predicate Weighed(rows: seq<Row>, asOf: int, decay: Decay) {
    forall k :: 0 <= k < |rows| ==> WeighedRow(rows[k], asOf, decay)
  }

  predicate WeighedRow(row: Row, asOf: int, decay: Decay) {
    row.decay == decay(asOf - row.item.availableAt) && row.weight == row.decay * BaseWeight(row)
  }

  /** The confidences a weight is scaled by; an unknown one counts half. */
  function BaseWeight(row: Row): real {
    (if row.item.confidence.Some? then row.item.confidence.value else 0.5) * row.mapping.confidence
  }

  lemma {:induction false} EntityWeights(item: Observation, entity: string, mappings: seq<Mapping>, asOf: int, decay: Decay)
    ensures Weighed(EntityRows(item, entity, mappings, decay(asOf - item.availableAt)), asOf, decay)
  {
    if mappings != [] {
      EntityWeights(item, entity, mappings[..|mappings| - 1], asOf, decay);
    }
  }

  lemma {:induction false} ItemWeights(item: Observation, entities: seq<string>, mappings: seq<Mapping>, asOf: int, decay: Decay)
    ensures Weighed(ItemRows(item, entities, mappings, decay(asOf - item.availableAt)), asOf, decay)
  {
    if entities != [] {
      ItemWeights(item, entities[..|entities| - 1], mappings, asOf, decay);
      EntityWeights(item, entities[|entities| - 1], mappings, asOf, decay);
    }
  }

  /** Every row fades with its own age and is scaled by both confidences. */
  lemma {:induction false} AllWeights(items: seq<Observation>, mappings: seq<Mapping>, asOf: int, decay: Decay)
    ensures Weighed(AllRows(items, mappings, asOf, decay), asOf, decay)
  {
    if items != [] {
      var item := items[|items| - 1];
      AllWeights(items[..|items| - 1], mappings, asOf, decay);
      ItemWeights(item, item.entities, mappings, asOf, decay);
    }
  }

  /** Moving the bound one half-life later halves the weight of every earlier row, and nothing else changes it. */
  lemma WeightsHalve(observations: seq<Observation>, mappings: seq<Mapping>, asOf: int, halfLife: nat, decay: Decay, i: nat)
    requires HalvesEvery(decay, halfLife) && i < |AllRows(Visible(observations, asOf), mappings, asOf, decay)|
    ensures var past, now := AllRows(Visible(observations, asOf), mappings, asOf, decay),
                             AllRows(Visible(observations, asOf + halfLife), mappings, asOf + halfLife, decay);
      i < |now| && 2.0 * now[i].weight == past[i].weight
  {
    var a, b := Visible(observations, asOf), Visible(observations, asOf + halfLife);
    var past, now := AllRows(a, mappings, asOf, decay), AllRows(b, mappings, asOf + halfLife, decay);
    VisiblePrefix(observations, asOf, asOf + halfLife);
    AllRowsGrow(a, b, mappings, asOf, asOf + halfLife, decay);
    AllWeights(a, mappings, asOf, decay);
    AllWeights(b, mappings, asOf + halfLife, decay);
    RowHalves(past[i], now[i], asOf, halfLife, decay);
  }

  lemma RowHalves(past: Row, now: Row, asOf: int, halfLife: nat, decay: Decay)
    requires HalvesEvery(decay, halfLife) && Identity(past) == Identity(now)
    requires WeighedRow(past, asOf, decay) && WeighedRow(now, asOf + halfLife, decay)
    ensures 2.0 * now.weight == past.weight
  {
    assert now.item == Identity(now).item == past.item && now.mapping == Identity(now).mapping == past.mapping;
    var age := asOf - past.item.availableAt;
    assert asOf + halfLife - now.item.availableAt == age + halfLife;
    assert 2.0 * decay(age + halfLife) == decay(age);
    HalfOfProduct(decay(age + halfLife), decay(age), BaseWeight(past));
  }

  lemma HalfOfProduct(x: real, y: real, f: real)
    requires 2.0 * x == y
    ensures 2.0 * (x * f) == y * f
  {
  }

  // ----- weights follow age -----

  /** Older observations have faded no less. */
  ghost predicate Fades(decay: Decay) {
    forall young, aged :: young <= aged ==> decay(aged) <= decay(young)
  }

  ghost predicate FadesStrictly(decay: Decay) {
    forall young, aged :: young < aged ==> decay(aged) < decay(young)
  }

  ghost predicate InOrder(items: seq<Observation>) {
    forall a, b :: 0 <= a < b < |items| ==> items[a].availableAt <= items[b].availableAt
  }

  /** Rows come in the order their observations arrived in. */
  lemma {:induction false} RowsInOrder(items: seq<Observation>, mappings: seq<Mapping>, asOf: int, decay: Decay, i: nat, j: nat)
    requires InOrder(items) && i <= j < |AllRows(items, mappings, asOf, decay)|
    ensures AllRows(items, mappings, asOf, decay)[i].item.availableAt <= AllRows(items, mappings, asOf, decay)[j].item.availableAt
  {
    var n := |items| - 1;
    var head, last := AllRows(items[..n], mappings, asOf, decay), items[n];
    if j < |head| {
      RowsInOrder(items[..n], mappings, asOf, decay, i, j);
    } else {
      ItemRowItems(last, last.entities, mappings, decay(asOf - last.availableAt));
      if i < |head| {
        RowItems(items[..n], mappings, asOf, decay, i);
        var k :| 0 <= k < n && items[..n][k] == head[i].item;
        assert items[k].availableAt <= items[n].availableAt;
      }
    }
  }

  lemma VisibleInOrder(observations: seq<Observation>, asOf: int)
    ensures InOrder(Visible(observations, asOf))
  {
    var items := Visible(observations, asOf);
    VisibleSorted(observations, asOf);
    forall a, b | 0 <= a < b < |items|
      ensures items[a].availableAt <= items[b].availableAt
    {
      assert Leq(Arrival(items[a]), Arrival(items[b]));
    }
  }

  lemma ProductsOrdered(x: real, y: real, f: real, g: real)
    requires x <= y && 0.0 <= f && 0.0 <= g
    ensures (x * f) * g <= (y * g) * f
  {
    var fg := f * g;
    assert (x * f) * g == x * fg && (y * g) * f == y * fg;
    assert x * fg <= y * fg;
  }

  /** Whatever the decay, as long as it never grows with age: further down the table rows have faded no more, so that for
      the same confidences they weigh no less; and if age always tells, two rows have faded alike exactly when their
      observations arrived together. */
  lemma WeightsFollowAge(observations: seq<Observation>, mappings: seq<Mapping>, asOf: int, decay: Decay, i: nat, j: nat)
    requires Fades(decay) && i <= j < |AllRows(Visible(observations, asOf), mappings, asOf, decay)|
    ensures var rows := AllRows(Visible(observations, asOf), mappings, asOf, decay);
      && rows[i].decay <= rows[j].decay
      && (0.0 <= BaseWeight(rows[i]) && 0.0 <= BaseWeight(rows[j]) ==>
            rows[i].weight * BaseWeight(rows[j]) <= rows[j].weight * BaseWeight(rows[i]))
      && (FadesStrictly(decay) ==> (rows[i].decay == rows[j].decay <==> rows[i].item.availableAt == rows[j].item.availableAt))
  {
    var items := Visible(observations, asOf);
    var rows := AllRows(items, mappings, asOf, decay);
    VisibleInOrder(observations, asOf);
    RowsInOrder(items, mappings, asOf, decay, i, j);
    AllWeights(items, mappings, asOf, decay);
    assert WeighedRow(rows[i], asOf, decay) && WeighedRow(rows[j], asOf, decay);
    if 0.0 <= BaseWeight(rows[i]) && 0.0 <= BaseWeight(rows[j]) {
      ProductsOrdered(rows[i].decay, rows[j].decay, BaseWeight(rows[i]), BaseWeight(rows[j]));
    }
  }

  /** A later bound never makes an earlier row weigh more. */
  lemma WeightsFadeLater(observations: seq<Observation>, mappings: seq<Mapping>, asOf: int, later: int, decay: Decay, i: nat)
    requires Fades(decay) && asOf <= later && i < |AllRows(Visible(observations, asOf), mappings, asOf, decay)|
    ensures var past, now := AllRows(Visible(observations, asOf), mappings, asOf, decay),
                             AllRows(Visible(observations, later), mappings, later, decay);
      i < |now| && (0.0 <= BaseWeight(past[i]) ==> now[i].weight <= past[i].weight)
  {
    var a, b := Visible(observations, asOf), Visible(observations, later);
    var past, now := AllRows(a, mappings, asOf, decay), AllRows(b, mappings, later, decay);
    VisiblePrefix(observations, asOf, later);
    AllRowsGrow(a, b, mappings, asOf, later, decay);
    AllWeights(a, mappings, asOf, decay);
    AllWeights(b, mappings, later, decay);
    if 0.0 <= BaseWeight(past[i]) {
      RowFades(past[i], now[i], asOf, later, decay);
    }
  }

  lemma RowFades(past: Row, now: Row, asOf: int, later: int, decay: Decay)
    requires Fades(decay) && asOf <= later && Identity(past) == Identity(now) && 0.0 <= BaseWeight(past)
    requires WeighedRow(past, asOf, decay) && WeighedRow(now, later, decay)
    ensures now.weight <= past.weight
  {
    assert now.item == Identity(now).item == past.item && now.mapping == Identity(now).mapping == past.mapping;
    ProductMonotone(now.decay, past.decay, BaseWeight(past));
  }

  lemma ProductMonotone(x: real, y: real, f: real)
    requires x <= y && 0.0 <= f
    ensures x * f <= y * f
  {
  }

  /** Exposure features do look ahead: of two observations with opposite directions, the first is unmarked as of its
      own arrival and marked once the second has arrived. */
  lemma MarksLookAhead(up: Observation, down: Observation, m: Mapping, decay: Decay)
    requires up.availableAt == 0 && down.availableAt == 1 && up.entities == ["e"] == down.entities
    requires up.impactDirection == Some("up") && down.impactDirection == Some("down")
    requires m.entityId == "e" && m.validFrom == 0 && m.validTo == None
    ensures var pair := ("e", m.asset);
      && !Contradicted(AllRows([up], [m], 0, decay), pair) && Contradicted(AllRows([up, down], [m], 1, decay), pair)
  {
    RowsOfFirst(up, m, 0, decay);
    RowsOfBoth(up, down, m, decay);
    var second := AllRows([up, down], [m], 1, decay);
    assert Claims(second, ("e", m.asset), 0, "up") && Claims(second, ("e", m.asset), 1, "down");
  }

  lemma RowsOfFirst(up: Observation, m: Mapping, asOf: int, decay: Decay)
    requires up.entities == ["e"] && m.entityId == "e" && ValidAt(m, up.availableAt)
    ensures AllRows([up], [m], asOf, decay) == [RowFor(up, "e", m, decay(asOf - up.availableAt))]
  {
    assert [] + [up] == [up];
    OneItem([], up, [m], asOf, decay);
    OneMapping(up, m, decay(asOf - up.availableAt));
  }

  lemma RowsOfBoth(up: Observation, down: Observation, m: Mapping, decay: Decay)
    requires up.availableAt == 0 && down.availableAt == 1 && up.entities == ["e"] == down.entities
    requires m.entityId == "e" && ValidAt(m, 0) && ValidAt(m, 1)
    ensures AllRows([up, down], [m], 1, decay) == [RowFor(up, "e", m, decay(1)), RowFor(down, "e", m, decay(0))]
  {
    assert [up] + [down] == [up, down];
    RowsOfFirst(up, m, 1, decay);
    OneItem([up], down, [m], 1, decay);
    OneMapping(down, m, decay(0));
  }

  lemma OneItem(items: seq<Observation>, item: Observation, mappings: seq<Mapping>, asOf: int, decay: Decay)
    ensures AllRows(items + [item], mappings, asOf, decay)
      == AllRows(items, mappings, asOf, decay) + ItemRows(item, item.entities, mappings, decay(asOf - item.availableAt))
  {
    assert (items + [item])[..|items|] == items;
  }

  lemma OneMapping(item: Observation, m: Mapping, fade: real)
    requires item.entities == ["e"] && m.entityId == "e" && ValidAt(m, item.availableAt)
    ensures ItemRows(item, item.entities, [m], fade) == [RowFor(item, "e", m, fade)]
  {
    assert [m][..0] == [] && ["e"][..0] == [];
    assert EntityRows(item, "e", [m], fade) == EntityRows(item, "e", [], fade) + [RowFor(item, "e", m, fade)];
    assert ItemRows(item, ["e"], [m], fade) == ItemRows(item, [], [m], fade) + EntityRows(item, "e", [m], fade);
  }
}
