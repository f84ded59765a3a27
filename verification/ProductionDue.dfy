/** The PostgreSQL delivery store's choice of what a dispatch pass attempts: tenants in the order they were served last,
    an equal share of the batch for each, and a lease on every chosen row. */
module ProductionDue {
  import opened Records
  import opened Ranking
  import opened Distinct
  import DeliverySchedule
  import Pipeline
  import PostgresStores

  datatype RowLease = RowLease(owner: string, until: int)

  datatype Row = Row(record: Delivery, lease: Option<RowLease>)

  type Rows = map<string, Row>

  predicate Claimable(r: Row, now: int) {
    DeliverySchedule.IsDue(r.record, now) && (r.lease.None? || r.lease.value.until <= now)
  }

  function Claimables(rows: Rows, now: int, tenant: string): set<string> {
    set id | id in rows && Claimable(rows[id], now) && rows[id].record.tenantId == tenant
  }

  function Waiting(rows: Rows, now: int): set<string> {
    set id | id in rows && Claimable(rows[id], now) :: rows[id].record.tenantId
  }

  // ----- a set in rank order -----

  ghost predicate Separates(rank: string -> Rank) {
    forall x, y :: rank(x) == rank(y) ==> x == y
  }

  ghost predicate Lists(rank: string -> Rank, all: set<string>, s: seq<string>) {
    NoDuplicates(s) && SortedBy(rank, s) && forall x :: x in s <==> x in all
  }

  lemma {:induction false} Enumerable(all: set<string>)
    ensures exists s: seq<string> :: NoDuplicates(s) && forall x :: x in s <==> x in all
    decreases all
  {
    if x :| x in all {
      Enumerable(all - {x});
      var rest: seq<string> :| NoDuplicates(rest) && forall y :: y in rest <==> y in all - {x};
      assert NoDuplicates([x] + rest) && forall y :: y in [x] + rest <==> y in all;
    } else {
      assert NoDuplicates<string>([]) && forall y: string :: y in [] <==> y in all;
    }
  }

  lemma Listable(rank: string -> Rank, all: set<string>)
    ensures exists s :: Lists(rank, all, s)
  {
    Enumerable(all);
    var s: seq<string> :| NoDuplicates(s) && forall x :: x in s <==> x in all;
    SortSorts(rank, s);
    SortElements(rank, s);
    PermutedNoDuplicates(s, Sort(rank, s));
    assert Lists(rank, all, Sort(rank, s));
  }

  lemma ListsUnique(rank: string -> Rank, all: set<string>, a: seq<string>, b: seq<string>)
    requires Separates(rank) && Lists(rank, all, a) && Lists(rank, all, b)
    ensures a == b
  {
    DeliverySchedule.SameContents(a, b);
    SortedUnique(rank, a, b);
  }

  ghost function Ordered(rank: string -> Rank, all: set<string>): seq<string> {
    Listable(rank, all);
    var s :| Lists(rank, all, s);
    s
  }

  lemma OrderedLists(rank: string -> Rank, all: set<string>)
    ensures Lists(rank, all, Ordered(rank, all))
  {
    Listable(rank, all);
  }

  method SortSet(rank: string -> Rank, all: set<string>) returns (s: seq<string>)
    requires Separates(rank)
    ensures s == Ordered(rank, all)
  {
    var ids := Enumerate(all);
    s := Sort(rank, ids);
    SortSorts(rank, ids);
    SortElements(rank, ids);
    PermutedNoDuplicates(ids, s);
    OrderedLists(rank, all);
    ListsUnique(rank, all, s, Ordered(rank, all));
  }

  function TurnRank(cursor: map<string, int>): string -> Rank {
    tenant => Rank(PostgresStores.ServedAt(cursor, tenant), 0, tenant)
  }

  function RowRank(rows: Rows): string -> Rank {
    id => if id in rows then Rank(rows[id].record.nextAttemptAt, 0, id) else Rank(0, 0, id)
  }

  // ----- shares -----

  function Least(a: nat, b: nat): nat {
    if a < b then a else b
  }

  /** max(1, ceil(limit / max(1, tenants))) */
  function Share(limit: nat, tenants: nat): nat {
    var n := if tenants == 0 then 1 else tenants;
    var share := (limit + n - 1) / n;
    if share == 0 then 1 else share
  }

  ghost function TenantList(rows: Rows, now: int, tenant: string): seq<string> {
    Ordered(RowRank(rows), Claimables(rows, now, tenant))
  }

  ghost function Given(rows: Rows, now: int, tenant: string, share: nat, room: nat): (ids: seq<string>)
    ensures |ids| <= room && |ids| <= share && ids <= TenantList(rows, now, tenant)
  {
    var all := TenantList(rows, now, tenant);
    all[..Least(|all|, Least(share, room))]
  }

  /** What the tenants get, one after the other, until the batch is full. */
  ghost function Chosen(rows: Rows, now: int, tenants: seq<string>, share: nat, room: nat): (ids: seq<string>)
    ensures |ids| <= room
    decreases |tenants|
  {
    if tenants == [] || room == 0 then []
    else
      var got := Given(rows, now, tenants[0], share, room);
      got + Chosen(rows, now, tenants[1..], share, room - |got|)
  }

  /** How many tenants are visited: a full batch ends the loop. */
  ghost function Visits(rows: Rows, now: int, tenants: seq<string>, share: nat, room: nat): (n: nat)
    ensures n <= |tenants|
    decreases |tenants|
  {
    if tenants == [] || room == 0 then 0
    else 1 + Visits(rows, now, tenants[1..], share, room - |Given(rows, now, tenants[0], share, room)|)
  }

  function Stamped(cursor: map<string, int>, tenants: seq<string>, now: int): map<string, int> {
    if tenants == [] then cursor else Stamped(cursor, tenants[..|tenants| - 1], now)[tenants[|tenants| - 1] := now]
  }

  function Leased(rows: Rows, ids: seq<string>, lease: RowLease): Rows {
    map id | id in rows :: if id in ids then rows[id].(lease := Some(lease)) else rows[id]
  }

  datatype Store = Store(rows: Rows, cursor: map<string, int>)

  ghost function Turns(s: Store, now: int): seq<string> {
    Ordered(TurnRank(s.cursor), Waiting(s.rows, now))
  }

  ghost function Batch(s: Store, now: int, limit: nat): seq<string> {
    Chosen(s.rows, now, Turns(s, now), Share(limit, |Turns(s, now)|), limit)
  }

  ghost function Visited(s: Store, now: int, limit: nat): (tenants: seq<string>)
    ensures tenants <= Turns(s, now)
  {
    Turns(s, now)[..Visits(s.rows, now, Turns(s, now), Share(limit, |Turns(s, now)|), limit)]
  }

  ghost function AfterDue(s: Store, now: int, limit: nat, lease: RowLease): Store {
    Store(Leased(s.rows, Batch(s, now, limit), lease), Stamped(s.cursor, Visited(s, now, limit), now))
  }

  // ----- the loop over the tenants -----

  ghost function ShareOf(s: Store, now: int, limit: nat): nat {
    Share(limit, |Turns(s, now)|)
  }

  ghost predicate OfVisited(s: Store, now: int, visited: nat, selected: seq<string>)
    requires visited <= |Turns(s, now)|
  {
    forall id :: id in selected ==> id in s.rows && s.rows[id].record.tenantId in Turns(s, now)[..visited]
  }

  ghost predicate Midway(s: Store, now: int, limit: nat, lease: RowLease, visited: nat, selected: seq<string>, t: Store) {
    var tenants := Turns(s, now);
    && visited <= |tenants| && |selected| <= limit
    && t == Store(Leased(s.rows, selected, lease), Stamped(s.cursor, tenants[..visited], now))
    && OfVisited(s, now, visited, selected)
    && selected + Chosen(s.rows, now, tenants[visited..], ShareOf(s, now, limit), limit - |selected|) == Batch(s, now, limit)
    && visited + Visits(s.rows, now, tenants[visited..], ShareOf(s, now, limit), limit - |selected|) == |Visited(s, now, limit)|
  }

  lemma MidwayStart(s: Store, now: int, limit: nat, lease: RowLease)
    ensures Midway(s, now, limit, lease, 0, [], s)
  {
    assert Leased(s.rows, [], lease) == s.rows;
    assert Turns(s, now)[0..] == Turns(s, now);
    assert [] + Batch(s, now, limit) == Batch(s, now, limit);
  }

  lemma MidwayEnd(s: Store, now: int, limit: nat, lease: RowLease, visited: nat, selected: seq<string>, t: Store)
    requires Midway(s, now, limit, lease, visited, selected, t)
    requires visited == |Turns(s, now)| || |selected| == limit
    ensures selected == Batch(s, now, limit) && t == AfterDue(s, now, limit, lease)
  {
    assert Turns(s, now)[..visited] == Visited(s, now, limit);
  }

  lemma NotYetVisited(s: Store, now: int, visited: nat, selected: seq<string>)
    requires visited < |Turns(s, now)| && OfVisited(s, now, visited, selected)
    ensures forall id :: id in selected && id in s.rows ==> s.rows[id].record.tenantId != Turns(s, now)[visited]
  {
    OrderedLists(TurnRank(s.cursor), Waiting(s.rows, now));
    assert Turns(s, now)[visited] !in Turns(s, now)[..visited];
  }

  lemma GivenOfTenant(rows: Rows, now: int, tenant: string, share: nat, room: nat)
    ensures forall id :: id in Given(rows, now, tenant, share, room) ==>
      id in rows && Claimable(rows[id], now) && rows[id].record.tenantId == tenant
  {
    OrderedLists(RowRank(rows), Claimables(rows, now, tenant));
    assert forall id :: id in Given(rows, now, tenant, share, room) ==> id in TenantList(rows, now, tenant);
  }

  lemma MidwayStep(s: Store, now: int, limit: nat, lease: RowLease, visited: nat, selected: seq<string>, got: seq<string>, t: Store)
    requires visited < |Turns(s, now)| && |selected| < limit && |selected + got| <= limit
    requires got == Given(s.rows, now, Turns(s, now)[visited], ShareOf(s, now, limit), limit - |selected|)
    requires Midway(s, now, limit, lease, visited, selected, Store(Leased(s.rows, selected, lease), t.cursor))
    requires t.rows == Leased(Leased(s.rows, selected, lease), got, lease)
    ensures Midway(s, now, limit, lease, visited + 1, selected + got, Store(t.rows, t.cursor[Turns(s, now)[visited] := now]))
  {
    var tenants := Turns(s, now);
    var rest := tenants[visited..];
    GivenOfTenant(s.rows, now, tenants[visited], ShareOf(s, now, limit), limit - |selected|);
    LeasedTwice(s.rows, selected, got, lease);
    assert rest[0] == tenants[visited] && rest[1..] == tenants[visited + 1..];
    TakeNext(tenants, visited);
    assert tenants[..visited + 1][..visited] == tenants[..visited];
    var further := Chosen(s.rows, now, rest[1..], ShareOf(s, now, limit), limit - |selected| - |got|);
    assert selected + (got + further) == selected + got + further;
  }

  // ----- the store -----

  class PostgresDeliveryStore {
    var rows: Rows
    var cursor: map<string, int>
    const owner: string
    const leaseMs: int

    constructor (owner: string, leaseMs: int)
      ensures rows == map[] && cursor == map[] && this.owner == owner && this.leaseMs == leaseMs
    {
      rows, cursor := map[], map[];
      this.owner, this.leaseMs := owner, leaseMs;
    }

    /** Nobody is visited twice, and leasing one tenant's rows does not change what the others are given. */
    method Due(now: int, limit: nat) returns (selected: seq<string>)
      modifies this
      ensures selected == Batch(old(Store(rows, cursor)), now, limit)
      ensures Store(rows, cursor) == AfterDue(old(Store(rows, cursor)), now, limit, RowLease(owner, now + leaseMs))
    {
      ghost var s := Store(rows, cursor);
      var tenants := SortSet(TurnRank(cursor), Waiting(rows, now));
      var share := Share(limit, |tenants|);
      selected := [];
      var visited := 0;
      MidwayStart(s, now, limit, RowLease(owner, now + leaseMs));
      while visited < |tenants| && |selected| < limit
        invariant Midway(s, now, limit, RowLease(owner, now + leaseMs), visited, selected, Store(rows, cursor))
      {
        selected := Visit(s, now, limit, visited, tenants[visited], share, selected);
        visited := visited + 1;
      }
      MidwayEnd(s, now, limit, RowLease(owner, now + leaseMs), visited, selected, Store(rows, cursor));
    }

    method Visit(ghost s: Store, now: int, limit: nat, ghost visited: nat, tenant: string, share: nat, selected: seq<string>)
      returns (longer: seq<string>)
      requires Midway(s, now, limit, RowLease(owner, now + leaseMs), visited, selected, Store(rows, cursor))
      requires visited < |Turns(s, now)| && tenant == Turns(s, now)[visited]
      requires |selected| < limit && share == ShareOf(s, now, limit)
      modifies this
      ensures Midway(s, now, limit, RowLease(owner, now + leaseMs), visited + 1, longer, Store(rows, cursor))
    {
      NotYetVisited(s, now, visited, selected);
      OthersUntouched(s.rows, selected, RowLease(owner, now + leaseMs), now, tenant);
      var got := Claim(now, tenant, Least(share, limit - |selected|));
      MidwayStep(s, now, limit, RowLease(owner, now + leaseMs), visited, selected, got, Store(rows, cursor));
      cursor := cursor[tenant := now];
      longer := selected + got;
    }

    /** Leases the first rows of one tenant. */
    method Claim(now: int, tenant: string, most: nat) returns (got: seq<string>)
      modifies this`rows
      ensures var all := TenantList(old(rows), now, tenant); got == all[..Least(|all|, most)]
      ensures rows == Leased(old(rows), got, RowLease(owner, now + leaseMs))
    {
      var all := SortSet(RowRank(rows), Claimables(rows, now, tenant));
      got := all[..Least(|all|, most)];
      rows := Leased(rows, got, RowLease(owner, now + leaseMs));
    }

    /** Writes the outcome of an attempt and gives the lease up, whoever holds it; a row that is gone stays gone. */
    method Save(record: Delivery)
      modifies this`rows
      ensures rows == Saved(old(rows), record)
      ensures rows.Keys == old(rows).Keys
      ensures record.id in rows ==>
        rows[record.id].lease.None? && rows[record.id].record.tenantId == old(rows)[record.id].record.tenantId
    {
      if record.id in rows {
        rows := rows[record.id := Row(Pipeline.Revised(rows[record.id].record, record), None)];
      }
    }
  }

  function Saved(rows: Rows, record: Delivery): Rows {
    if record.id in rows then rows[record.id := Row(Pipeline.Revised(rows[record.id].record, record), None)] else rows
  }

  lemma LeasedTwice(rows: Rows, a: seq<string>, b: seq<string>, lease: RowLease)
    ensures Leased(Leased(rows, a, lease), b, lease) == Leased(rows, a + b, lease)
  {
  }

  lemma OthersUntouched(rows: Rows, taken: seq<string>, lease: RowLease, now: int, tenant: string)
    requires forall id :: id in taken && id in rows ==> rows[id].record.tenantId != tenant
    ensures TenantList(Leased(rows, taken, lease), now, tenant) == TenantList(rows, now, tenant)
  {
    assert Claimables(Leased(rows, taken, lease), now, tenant) == Claimables(rows, now, tenant);
    var a, b := RowRank(Leased(rows, taken, lease)), RowRank(rows);
    assert forall id :: a(id) == b(id);
    OrderedLists(a, Claimables(rows, now, tenant));
    OrderedLists(b, Claimables(rows, now, tenant));
    ListsUnique(b, Claimables(rows, now, tenant), TenantList(Leased(rows, taken, lease), now, tenant),
                TenantList(rows, now, tenant));
  }

  // ----- what one call gives -----

  /** What the tenants ask for, each up to its share. */
  ghost function Demand(rows: Rows, now: int, tenants: seq<string>, share: nat): nat
    decreases |tenants|
  {
    if tenants == [] then 0
    else Least(share, |Claimables(rows, now, tenants[0])|) + Demand(rows, now, tenants[1..], share)
  }

  lemma ListSize(rows: Rows, now: int, tenant: string)
    ensures |TenantList(rows, now, tenant)| == |Claimables(rows, now, tenant)|
  {
    OrderedLists(RowRank(rows), Claimables(rows, now, tenant));
    DistinctCount(TenantList(rows, now, tenant), Claimables(rows, now, tenant));
  }

  /** A tenant is visited exactly when those before it do not ask for the whole batch. */
  lemma {:induction false} VisitedIff(rows: Rows, now: int, tenants: seq<string>, share: nat, room: nat, p: nat)
    requires p < |tenants|
    ensures p < Visits(rows, now, tenants, share, room) <==> Demand(rows, now, tenants[..p], share) < room
    decreases p
  {
    if p > 0 && room > 0 {
      ListSize(rows, now, tenants[0]);
      var got := Given(rows, now, tenants[0], share, room);
      VisitedIff(rows, now, tenants[1..], share, room - |got|, p - 1);
      assert tenants[..p][1..] == tenants[1..][..p - 1];
    }
  }

  function Place(tenants: seq<string>, tenant: string): (p: nat)
    ensures p <= |tenants| && (p < |tenants| <==> tenant in tenants)
    ensures tenant in tenants ==> tenants[p] == tenant
    ensures tenant !in tenants[..p]
  {
    if tenants == [] || tenants[0] == tenant then 0 else 1 + Place(tenants[1..], tenant)
  }

  /** What the tenants ask for whose turn comes before that of `tenant`. */
  ghost function AskedAhead(s: Store, now: int, limit: nat, tenant: string): nat {
    Demand(s.rows, now, Turns(s, now)[..Place(Turns(s, now), tenant)], ShareOf(s, now, limit))
  }

  /** A call visits a waiting tenant exactly when the tenants before it in turn leave room in the batch. */
  lemma VisitedInTurnIff(s: Store, now: int, limit: nat, tenant: string)
    requires tenant in Waiting(s.rows, now)
    ensures tenant in Visited(s, now, limit) <==> AskedAhead(s, now, limit, tenant) < limit
  {
    var turns := Turns(s, now);
    OrderedLists(TurnRank(s.cursor), Waiting(s.rows, now));
    var p := Place(turns, tenant);
    VisitedIff(s.rows, now, turns, ShareOf(s, now, limit), limit, p);
    InPrefixIff(turns, |Visited(s, now, limit)|, p);
  }

  lemma InPrefixIff(s: seq<string>, n: nat, p: nat)
    requires NoDuplicates(s) && n <= |s| && p < |s|
    ensures s[p] in s[..n] <==> p < n
  {
    if p < n {
      assert s[..n][p] == s[p];
    }
  }

  /** The batch holds what is asked for, up to the limit. */
  lemma {:induction false} ChosenSize(rows: Rows, now: int, tenants: seq<string>, share: nat, room: nat)
    ensures |Chosen(rows, now, tenants, share, room)| == Least(room, Demand(rows, now, tenants, share))
    decreases |tenants|
  {
    if tenants != [] && room > 0 {
      ListSize(rows, now, tenants[0]);
      ChosenSize(rows, now, tenants[1..], share, room - |Given(rows, now, tenants[0], share, room)|);
    }
  }

  function All(rows: Rows, now: int, tenants: seq<string>): nat {
    if tenants == [] then 0 else |Claimables(rows, now, tenants[0])| + All(rows, now, tenants[1..])
  }

  lemma {:induction false} DemandIsAllIff(rows: Rows, now: int, tenants: seq<string>, share: nat)
    ensures Demand(rows, now, tenants, share) <= All(rows, now, tenants)
    ensures Demand(rows, now, tenants, share) == All(rows, now, tenants)
      <==> forall p :: 0 <= p < |tenants| ==> |Claimables(rows, now, tenants[p])| <= share
    decreases |tenants|
  {
    if tenants != [] {
      var rest := tenants[1..];
      DemandIsAllIff(rows, now, rest, share);
      assert forall p :: 0 <= p < |rest| ==> rest[p] == tenants[p + 1];
      assert forall p :: 1 <= p < |tenants| ==> tenants[p] == rest[p - 1];
    }
  }

  /** Unlike the in-memory store, this one can return a short batch while rows are due: it takes as many rows as there are
      and the limit allows exactly when the batch is filled or no tenant has more rows than its share. */
  lemma FullBatchIff(s: Store, now: int, limit: nat)
    ensures var tenants := Turns(s, now);
      |Batch(s, now, limit)| == Least(limit, All(s.rows, now, tenants)) <==>
        limit <= Demand(s.rows, now, tenants, ShareOf(s, now, limit))
        || forall p :: 0 <= p < |tenants| ==> |Claimables(s.rows, now, tenants[p])| <= ShareOf(s, now, limit)
  {
    var tenants := Turns(s, now);
    ChosenSize(s.rows, now, tenants, ShareOf(s, now, limit), limit);
    DemandIsAllIff(s.rows, now, tenants, ShareOf(s, now, limit));
  }

  /** The part of a batch that one tenant gets: the first rows of its list by time and id, as many as its share and what
      the tenants before it left allow. */
  lemma {:induction false} TenantPart(rows: Rows, now: int, tenants: seq<string>, share: nat, room: nat, p: nat, id: string)
    requires NoDuplicates(tenants) && p < |tenants| && id in rows && rows[id].record.tenantId == tenants[p]
    ensures var before := Least(room, Demand(rows, now, tenants[..p], share));
      id in Chosen(rows, now, tenants, share, room) <==> id in Given(rows, now, tenants[p], share, room - before)
    decreases p
  {
    if p == 0 {
      FirstPart(rows, now, tenants, share, room, id);
    } else if room > 0 {
      GivenOfTenant(rows, now, tenants[0], share, room);
      TenantPart(rows, now, tenants[1..], share, room - |Given(rows, now, tenants[0], share, room)|, p - 1, id);
      LaterRoom(rows, now, tenants, share, room, p);
    }
  }

  lemma FirstPart(rows: Rows, now: int, tenants: seq<string>, share: nat, room: nat, id: string)
    requires NoDuplicates(tenants) && tenants != [] && id in rows && rows[id].record.tenantId == tenants[0]
    ensures Least(room, Demand(rows, now, tenants[..0], share)) == 0
    ensures id in Chosen(rows, now, tenants, share, room) <==> id in Given(rows, now, tenants[0], share, room)
  {
    if room > 0 {
      ChosenOthers(rows, now, tenants[1..], share, room - |Given(rows, now, tenants[0], share, room)|, tenants[0]);
    }
  }

  lemma LaterRoom(rows: Rows, now: int, tenants: seq<string>, share: nat, room: nat, p: nat)
    requires 0 < p < |tenants| && room > 0
    ensures var left := room - |Given(rows, now, tenants[0], share, room)|;
      room - Least(room, Demand(rows, now, tenants[..p], share))
      == left - Least(left, Demand(rows, now, tenants[1..][..p - 1], share))
  {
    ListSize(rows, now, tenants[0]);
    assert tenants[..p][1..] == tenants[1..][..p - 1];
  }

  lemma {:induction false} ChosenOthers(rows: Rows, now: int, tenants: seq<string>, share: nat, room: nat, other: string)
    requires other !in tenants
    ensures forall k :: 0 <= k < |Chosen(rows, now, tenants, share, room)| ==>
      var id := Chosen(rows, now, tenants, share, room)[k]; id in rows && rows[id].record.tenantId != other
    decreases |tenants|
  {
    if tenants != [] && room > 0 {
      var got := Given(rows, now, tenants[0], share, room);
      GivenOfTenant(rows, now, tenants[0], share, room);
      ChosenOthers(rows, now, tenants[1..], share, room - |got|, other);
      assert forall k :: 0 <= k < |got| ==> got[k] in got;
    }
  }

  // ----- runs -----

  /** What happens to the two tables: a dispatcher takes a batch, a worker dequeues an event and so stamps its tenant in
      the same cursor table, a fan-out creates a row, an attempt saves one, and retention removes some. */
  datatype Op =
    | DueCall(now: int, limit: nat, lease: RowLease)
    | Dequeued(tenant: string, at: int)
    | Create(record: Delivery)
    | Save(record: Delivery)
    | Prune(ids: set<string>)

  ghost function Step(s: Store, op: Op): Store {
    match op
    case DueCall(now, limit, lease) => AfterDue(s, now, limit, lease)
    case Dequeued(tenant, at) => s.(cursor := s.cursor[tenant := at])
    case Create(record) => if record.id in s.rows then s else s.(rows := s.rows[record.id := Row(record, None)])
    case Save(record) => s.(rows := Saved(s.rows, record))
    case Prune(ids) => s.(rows := s.rows - ids)
  }

  /** The state before the `n`th operation. */
  ghost function At(s: Store, ops: seq<Op>, n: nat): Store
    requires n <= |ops|
  {
    if n == 0 then s else Step(At(s, ops, n - 1), ops[n - 1])
  }

  lemma AtStep(s: Store, ops: seq<Op>, n: nat)
    requires n < |ops|
    ensures At(s, ops, n + 1) == Step(At(s, ops, n), ops[n])
  {
  }

  lemma {:induction false} ChosenClaimable(rows: Rows, now: int, tenants: seq<string>, share: nat, room: nat)
    ensures forall id :: id in Chosen(rows, now, tenants, share, room) ==> id in rows && Claimable(rows[id], now)
    decreases |tenants|
  {
    if tenants != [] && room > 0 {
      var got := Given(rows, now, tenants[0], share, room);
      GivenOfTenant(rows, now, tenants[0], share, room);
      ChosenClaimable(rows, now, tenants[1..], share, room - |got|);
    }
  }

  lemma BatchInRows(s: Store, now: int, limit: nat)
    ensures forall id :: id in Batch(s, now, limit) ==> id in s.rows
  {
    ChosenClaimable(s.rows, now, Turns(s, now), ShareOf(s, now, limit), limit);
  }

  lemma {:induction false} ChosenDistinct(rows: Rows, now: int, tenants: seq<string>, share: nat, room: nat)
    requires NoDuplicates(tenants)
    ensures NoDuplicates(Chosen(rows, now, tenants, share, room))
    decreases |tenants|
  {
    if tenants != [] && room > 0 {
      var got := Given(rows, now, tenants[0], share, room);
      var rest := Chosen(rows, now, tenants[1..], share, room - |got|);
      ChosenDistinct(rows, now, tenants[1..], share, room - |got|);
      ChosenOthers(rows, now, tenants[1..], share, room - |got|, tenants[0]);
      GivenOfTenant(rows, now, tenants[0], share, room);
      OrderedLists(RowRank(rows), Claimables(rows, now, tenants[0]));
      DistinctConcat(got, rest);
    }
  }

  lemma DistinctConcat(a: seq<string>, b: seq<string>)
    requires NoDuplicates(a) && NoDuplicates(b) && forall k :: 0 <= k < |b| ==> b[k] !in a
    ensures NoDuplicates(a + b)
  {
    forall i, j | 0 <= i < j < |a + b|
      ensures (a + b)[i] != (a + b)[j]
    {
      if i < |a| <= j {
        assert a[i] in a;
      }
    }
  }

  /** The operation neither saves nor removes the row, and is no call made after the lease has ended. */
  predicate Leaves(op: Op, id: string, until: int) {
    match op
    case DueCall(now, _, _) => now < until
    case Save(record) => record.id != id
    case Prune(ids) => id !in ids
    case _ => true
  }

  predicate SameRow(s: Store, t: Store, id: string) {
    id in s.rows && id in t.rows && t.rows[id] == s.rows[id]
  }

  lemma NotTaken(s: Store, now: int, limit: nat, id: string)
    requires id in s.rows && s.rows[id].lease.Some? && now < s.rows[id].lease.value.until
    ensures id !in Batch(s, now, limit)
  {
    ChosenClaimable(s.rows, now, Turns(s, now), ShareOf(s, now, limit), limit);
  }

  lemma LeaseStays(s: Store, op: Op, id: string, until: int)
    requires id in s.rows && s.rows[id].lease.Some? && until <= s.rows[id].lease.value.until && Leaves(op, id, until)
    ensures SameRow(s, Step(s, op), id)
  {
    if op.DueCall? {
      NotTaken(s, op.now, op.limit, id);
    }
  }

  lemma {:induction false} LeaseLasts(s: Store, ops: seq<Op>, id: string, until: int, n: nat)
    requires n <= |ops| && id in s.rows && s.rows[id].lease.Some? && until <= s.rows[id].lease.value.until
    requires forall k :: 0 <= k < n ==> Leaves(ops[k], id, until)
    ensures SameRow(s, At(s, ops, n), id)
  {
    if n > 0 {
      LeaseLasts(s, ops, id, until, n - 1);
      var t := At(s, ops, n - 1);
      AtStep(s, ops, n - 1);
      assert Leaves(ops[n - 1], id, until);
      LeaseStays(t, ops[n - 1], id, until);
    }
  }

  /** A leased delivery is in no other batch before its lease ends, over any run in which it is not saved or removed and
      the calls are made before that time; afterwards, if its attempt was never saved, it can be taken again. */
  lemma LeaseExcludes(s: Store, ops: seq<Op>, id: string, n: nat, now: int, limit: nat)
    requires n <= |ops| && id in s.rows && s.rows[id].lease.Some?
    requires forall k :: 0 <= k < n ==> Leaves(ops[k], id, s.rows[id].lease.value.until)
    ensures now < s.rows[id].lease.value.until ==> id !in Batch(At(s, ops, n), now, limit)
    ensures id in Claimables(At(s, ops, n).rows, now, s.rows[id].record.tenantId)
      <==> DeliverySchedule.IsDue(s.rows[id].record, now) && s.rows[id].lease.value.until <= now
  {
    LeaseLasts(s, ops, id, s.rows[id].lease.value.until, n);
    if now < s.rows[id].lease.value.until {
      NotTaken(At(s, ops, n), now, limit, id);
    }
  }

  // ----- no tenant waits for ever -----

  lemma {:induction false} StampedAt(cursor: map<string, int>, tenants: seq<string>, now: int, tenant: string)
    ensures PostgresStores.ServedAt(Stamped(cursor, tenants, now), tenant)
      == if tenant in tenants then now else PostgresStores.ServedAt(cursor, tenant)
  {
    if tenants != [] {
      var n := |tenants| - 1;
      StampedAt(cursor, tenants[..n], now, tenant);
      assert tenants == tenants[..n] + [tenants[n]];
    }
  }

  /** Of the tenants there are, those whose turn comes before that of `tenant`. */
  ghost function Before(cursor: map<string, int>, all: set<string>, tenant: string): set<string> {
    set other | other in all && Less(TurnRank(cursor)(other), TurnRank(cursor)(tenant))
  }

  /** The operation leaves `tenant` without a turn although it is due: a call of a positive limit, made later than the
      tenant was last served, has a row of it to take and does not visit it, and nobody dequeues one of its events. */
  ghost predicate PassesOver(s: Store, op: Op, all: set<string>, tenant: string) {
    match op
    case DueCall(now, limit, _) =>
      && limit > 0 && PostgresStores.ServedAt(s.cursor, tenant) < now && Waiting(s.rows, now) <= all
      && tenant in Waiting(s.rows, now) && tenant !in Visited(s, now, limit)
    case Dequeued(other, at) => other != tenant && PostgresStores.ServedAt(s.cursor, tenant) < at
    case _ => true
  }

  ghost predicate PassedAt(s: Store, ops: seq<Op>, k: nat, all: set<string>, tenant: string) {
    k < |ops| && PassesOver(At(s, ops, k), ops[k], all, tenant)
  }

  function Calls(ops: seq<Op>, n: nat): nat
    requires n <= |ops|
  {
    if n == 0 then 0 else Calls(ops, n - 1) + if ops[n - 1].DueCall? then 1 else 0
  }

  lemma PassedBy(s: Store, now: int, limit: nat, lease: RowLease, all: set<string>, tenant: string)
    requires PassesOver(s, DueCall(now, limit, lease), all, tenant)
    ensures |Before(AfterDue(s, now, limit, lease).cursor, all, tenant)| < |Before(s.cursor, all, tenant)|
  {
    var turns, visited, after := Turns(s, now), Visited(s, now, limit), AfterDue(s, now, limit, lease).cursor;
    OrderedLists(TurnRank(s.cursor), Waiting(s.rows, now));
    assert turns != [] && limit > 0 && |visited| > 0;
    var first := turns[0];
    assert first == visited[0] && first in visited && first in turns;
    SortedHead(TurnRank(s.cursor), turns, tenant) by {
      assert tenant in turns;
    }
    StampedAt(s.cursor, visited, now, tenant);
    StampedAt(s.cursor, visited, now, first);
    forall other | other in Before(after, all, tenant)
      ensures other in Before(s.cursor, all, tenant)
    {
      StampedAt(s.cursor, visited, now, other);
    }
    assert first in Before(s.cursor, all, tenant) && first !in Before(after, all, tenant);
    DeliverySchedule.Smaller(Before(after, all, tenant), Before(s.cursor, all, tenant), first);
  }

  lemma NobodyJoins(s: Store, op: Op, all: set<string>, tenant: string)
    requires !op.DueCall? && PassesOver(s, op, all, tenant)
    ensures |Before(Step(s, op).cursor, all, tenant)| <= |Before(s.cursor, all, tenant)|
  {
    SubsetSize(Before(Step(s, op).cursor, all, tenant), Before(s.cursor, all, tenant));
  }

  lemma WaitStep(s: Store, op: Op, all: set<string>, tenant: string)
    requires PassesOver(s, op, all, tenant)
    ensures (if op.DueCall? then 1 else 0) + |Before(Step(s, op).cursor, all, tenant)| <= |Before(s.cursor, all, tenant)|
  {
    if op.DueCall? {
      PassedBy(s, op.now, op.limit, op.lease, all, tenant);
    } else {
      NobodyJoins(s, op, all, tenant);
    }
  }

  /** Fairness: however many rows the others have, a tenant with a row to take is visited once all tenants whose turn came
      before its own have been, provided the clock moves on and none of its own events is dequeued meanwhile. */
  lemma {:induction false} BoundedWait(s: Store, ops: seq<Op>, n: nat, all: set<string>, tenant: string)
    requires n <= |ops| && forall k :: 0 <= k < n ==> PassedAt(s, ops, k, all, tenant)
    ensures Calls(ops, n) + |Before(At(s, ops, n).cursor, all, tenant)| <= |Before(s.cursor, all, tenant)|
  {
    if n > 0 {
      BoundedWait(s, ops, n - 1, all, tenant);
      assert PassedAt(s, ops, n - 1, all, tenant);
      AtStep(s, ops, n - 1);
      WaitStep(At(s, ops, n - 1), ops[n - 1], all, tenant);
    }
  }
}
