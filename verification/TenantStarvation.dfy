/** When the PostgreSQL delivery store passes a waiting tenant over, call after call. */
module TenantStarvation {
  import opened Records
  import opened Ranking
  import opened Distinct
  import opened ProductionDue
  import Dispatch
  import Subscriptions
  import Pipeline
  import PostgresStores

  // ----- when every call of a run passes a tenant over -----

  ghost predicate LeftOut(s: Store, ops: seq<Op>, k: nat, tenant: string) {
    k < |ops| && ops[k].DueCall? ==> tenant !in Visited(At(s, ops, k), ops[k].now, ops[k].limit)
  }

  ghost predicate CrowdedOut(s: Store, ops: seq<Op>, k: nat, tenant: string) {
    k < |ops| && ops[k].DueCall? ==> ops[k].limit <= AskedAhead(At(s, ops, k), ops[k].now, ops[k].limit, tenant)
  }

  ghost predicate Waits(s: Store, ops: seq<Op>, k: nat, tenant: string) {
    k < |ops| && ops[k].DueCall? ==> tenant in Waiting(At(s, ops, k).rows, ops[k].now)
  }

  /** A tenant that waits at every call of a run is passed over by all of them if and only if, before each one, the tenants
      ahead of it in turn ask for the whole batch. */
  lemma StarvedIff(s: Store, ops: seq<Op>, tenant: string)
    requires forall k: nat :: Waits(s, ops, k, tenant)
    ensures (forall k: nat :: LeftOut(s, ops, k, tenant)) <==> (forall k: nat :: CrowdedOut(s, ops, k, tenant))
  {
    forall k: nat
      ensures LeftOut(s, ops, k, tenant) <==> CrowdedOut(s, ops, k, tenant)
    {
      assert Waits(s, ops, k, tenant);
      if k < |ops| && ops[k].DueCall? {
        VisitedInTurnIff(At(s, ops, k), ops[k].now, ops[k].limit, tenant);
      }
    }
  }

  // ----- how many tenants it takes -----

  /** So many times the share. */
  function Times(n: nat, share: nat): nat {
    if n == 0 then 0 else Times(n - 1, share) + share
  }

  lemma {:induction false} TimesIs(n: nat, share: nat)
    ensures Times(n, share) == n * share
  {
    if n > 0 {
      TimesIs(n - 1, share);
    }
  }

  lemma {:induction false} TimesGrows(a: nat, b: nat, share: nat)
    requires a <= b
    ensures Times(a, share) <= Times(b, share)
  {
    if a < b {
      TimesGrows(a, b - 1, share);
    }
  }

  lemma {:induction false} DemandAtMost(rows: Rows, now: int, tenants: seq<string>, share: nat)
    ensures Demand(rows, now, tenants, share) <= Times(|tenants|, share)
    decreases |tenants|
  {
    if tenants != [] {
      DemandAtMost(rows, now, tenants[1..], share);
    }
  }

  lemma {:induction false} DemandFull(rows: Rows, now: int, tenants: seq<string>, share: nat)
    requires forall t :: t in tenants ==> share <= |Claimables(rows, now, t)|
    ensures Demand(rows, now, tenants, share) == Times(|tenants|, share)
    decreases |tenants|
  {
    if tenants != [] {
      assert tenants[0] in tenants && forall t :: t in tenants[1..] ==> t in tenants;
      DemandFull(rows, now, tenants[1..], share);
    }
  }

  lemma TurnsCount(s: Store, now: int)
    ensures |Turns(s, now)| == |Waiting(s.rows, now)| && NoDuplicates(Turns(s, now))
    ensures forall t :: t in Turns(s, now) <==> t in Waiting(s.rows, now)
  {
    OrderedLists(TurnRank(s.cursor), Waiting(s.rows, now));
    DistinctCount(Turns(s, now), Waiting(s.rows, now));
  }

  /** Whether so many tenants can fill a batch before the last of them has its turn. */
  predicate CanCrowd(tenants: nat, limit: nat) {
    tenants > 0 && limit <= Times(tenants - 1, Share(limit, tenants))
  }

  /** At the default batch of 100 rows eleven tenants are enough, and no fewer. */
  lemma AtDefaultBatch(tenants: nat)
    ensures CanCrowd(11, 100)
    ensures CanCrowd(tenants, 100) ==> 11 <= tenants
  {
    TimesIs(10, Share(100, 11));
    if 0 < tenants < 11 {
      TimesIs(tenants - 1, Share(100, tenants));
    }
  }

  /** With too few tenants for that everyone who waits is visited. */
  lemma FewAreAllVisited(s: Store, now: int, limit: nat, tenant: string)
    requires tenant in Waiting(s.rows, now) && !CanCrowd(|Waiting(s.rows, now)|, limit)
    ensures tenant in Visited(s, now, limit)
  {
    TurnsCount(s, now);
    var p, share := Place(Turns(s, now), tenant), ShareOf(s, now, limit);
    DemandAtMost(s.rows, now, Turns(s, now)[..p], share);
    TimesGrows(p, |Turns(s, now)| - 1, share);
    VisitedInTurnIff(s, now, limit, tenant);
  }

  // ----- a tenant whose turn comes last -----

  /** The tenant waits, the rivals' turns come before its own, each of them has so many rows to take, and there is nobody
      else. */
  ghost predicate Stocked(s: Store, now: int, tenant: string, rivals: set<string>, stock: nat) {
    && tenant !in rivals && Claimables(s.rows, now, tenant) != {}
    && PostgresStores.ServedAt(s.cursor, tenant) <= now
    && (forall id :: id in s.rows ==> s.rows[id].record.tenantId in rivals + {tenant})
    && (forall r :: r in rivals ==> stock <= |Claimables(s.rows, now, r)|)
    && (forall r :: r in rivals ==> PostgresStores.ServedAt(s.cursor, r) < PostgresStores.ServedAt(s.cursor, tenant))
  }

  lemma StockedWaiting(s: Store, now: int, tenant: string, rivals: set<string>, stock: nat)
    requires Stocked(s, now, tenant, rivals, stock) && stock > 0
    ensures Waiting(s.rows, now) == rivals + {tenant}
  {
    forall r | r in rivals + {tenant}
      ensures r in Waiting(s.rows, now)
    {
      assert Claimables(s.rows, now, r) != {};
      var id :| id in Claimables(s.rows, now, r);
    }
  }

  lemma LastRanksHighest(rank: string -> Rank, s: seq<string>, p: nat)
    requires SortedBy(rank, s) && p < |s|
    ensures p < |s| - 1 ==> Leq(rank(s[p]), rank(s[|s| - 1]))
  {
  }

  lemma RivalsFirst(s: Store, now: int, tenant: string, rivals: set<string>, stock: nat)
    requires Stocked(s, now, tenant, rivals, stock)
    ensures forall r :: r in rivals ==> !Leq(TurnRank(s.cursor)(tenant), TurnRank(s.cursor)(r))
  {
  }

  lemma TurnComesLast(s: Store, now: int, tenant: string, rivals: set<string>, stock: nat)
    requires Stocked(s, now, tenant, rivals, stock) && stock > 0
    ensures |Turns(s, now)| == |rivals| + 1 && Turns(s, now)[|rivals|] == tenant
    ensures forall t :: t in Turns(s, now)[..|rivals|] ==> t in rivals
  {
    StockedWaiting(s, now, tenant, rivals, stock);
    TurnsCount(s, now);
    RivalsFirst(s, now, tenant, rivals, stock);
    OrderedLists(TurnRank(s.cursor), Waiting(s.rows, now));
    HighestIsLast(TurnRank(s.cursor), Turns(s, now), tenant, rivals);
  }

  lemma HighestIsLast(rank: string -> Rank, turns: seq<string>, tenant: string, rivals: set<string>)
    requires SortedBy(rank, turns) && NoDuplicates(turns) && |turns| == |rivals| + 1 && tenant in turns
    requires forall t :: t in turns ==> t in rivals || t == tenant
    requires forall r :: r in rivals ==> !Leq(rank(tenant), rank(r))
    ensures turns[|rivals|] == tenant && forall t :: t in turns[..|rivals|] ==> t in rivals
  {
    var p := Place(turns, tenant);
    LastRanksHighest(rank, turns, p);
    assert turns[|rivals|] in turns;
    forall t | t in turns[..|rivals|]
      ensures t in rivals
    {
      var i :| 0 <= i < |rivals| && turns[i] == t;
      assert turns[i] != turns[|rivals|] && turns[i] in turns;
    }
  }

  /** The rivals ask for the whole batch. */
  lemma RivalsFill(s: Store, now: int, limit: nat, tenant: string, rivals: set<string>, stock: nat)
    requires Stocked(s, now, tenant, rivals, stock) && CanCrowd(|rivals| + 1, limit) && Share(limit, |rivals| + 1) <= stock
    requires |Turns(s, now)| == |rivals| + 1 && forall t :: t in Turns(s, now)[..|rivals|] ==> t in rivals
    ensures limit <= Demand(s.rows, now, Turns(s, now)[..|rivals|], Share(limit, |rivals| + 1))
  {
    DemandFull(s.rows, now, Turns(s, now)[..|rivals|], Share(limit, |rivals| + 1));
  }

  /** It is not visited. */
  lemma StockedCall(s: Store, now: int, limit: nat, tenant: string, rivals: set<string>, stock: nat)
    requires Stocked(s, now, tenant, rivals, stock) && CanCrowd(|rivals| + 1, limit) && Share(limit, |rivals| + 1) <= stock
    ensures tenant in Waiting(s.rows, now) && tenant !in Visited(s, now, limit)
  {
    StockedWaiting(s, now, tenant, rivals, stock);
    TurnComesLast(s, now, tenant, rivals, stock);
    RivalsFill(s, now, limit, tenant, rivals, stock);
    TurnsCount(s, now);
    PlaceIs(Turns(s, now), tenant, |rivals|);
    VisitedInTurnIff(s, now, limit, tenant);
  }

  lemma PlaceIs(tenants: seq<string>, tenant: string, p: nat)
    requires NoDuplicates(tenants) && p < |tenants| && tenants[p] == tenant
    ensures Place(tenants, tenant) == p
  {
    InPrefixIff(tenants, Place(tenants, tenant), p);
  }

  /** None of its rows is taken. */
  lemma NoneTaken(s: Store, now: int, limit: nat, tenant: string, rivals: set<string>, stock: nat)
    requires Stocked(s, now, tenant, rivals, stock) && CanCrowd(|rivals| + 1, limit) && Share(limit, |rivals| + 1) <= stock
    ensures Taken(s, now, limit, tenant) == {}
  {
    TurnComesLast(s, now, tenant, rivals, stock);
    RivalsFill(s, now, limit, tenant, rivals, stock);
    TurnsCount(s, now);
    forall id | id in Taken(s, now, limit, tenant)
      ensures false
    {
      TenantPart(s.rows, now, Turns(s, now), Share(limit, |rivals| + 1), limit, |rivals|, id);
    }
  }

  /** The rows of one tenant in a batch. */
  ghost function Taken(s: Store, now: int, limit: nat, owner: string): set<string> {
    set id | id in Batch(s, now, limit) && id in s.rows && s.rows[id].record.tenantId == owner
  }

  // ----- a round -----

  /** What the attempts meet: for each record some state of the subscriptions and of the network. */
  datatype Outside = Outside(subs: Delivery -> Subscriptions.Table, inputs: Delivery -> Dispatch.Inputs, policy: Dispatch.RetryPolicy)

  /** What an attempt writes. */
  function Outcome(o: Outside, r: Delivery): Delivery {
    Dispatch.Attempted(o.subs(r), r, o.inputs(r), o.policy).record
  }

  lemma OutcomeKeeps(o: Outside, r: Delivery)
    ensures Outcome(o, r).id == r.id && Outcome(o, r).tenantId == r.tenantId && Outcome(o, r).attempts == r.attempts + 1
    ensures Pipeline.Revised(r, Outcome(o, r)) == Outcome(o, r)
  {
  }

  ghost predicate KeepsIds(write: Delivery -> Delivery) {
    forall r :: write(r).id == r.id
  }

  /** The rows after the first attempts of a batch: each saves what it made of the record it was handed. */
  function AfterSaves(rows: Rows, ids: seq<string>, write: Delivery -> Delivery): Rows {
    if ids == [] then rows
    else
      var n := |ids| - 1;
      var before := AfterSaves(rows, ids[..n], write);
      if ids[n] in rows then Saved(before, write(rows[ids[n]].record)) else before
  }

  ghost predicate SavedOnly(rows: Rows, ids: seq<string>, after: Rows) {
    && after.Keys == rows.Keys
    && (forall id :: id in rows && id !in ids ==> after[id] == rows[id])
    && (forall id :: id in rows ==> after[id].record.tenantId == rows[id].record.tenantId)
  }

  lemma {:induction false} SavesTouchOnly(rows: Rows, ids: seq<string>, write: Delivery -> Delivery)
    requires WellKeyed(rows) && KeepsIds(write)
    ensures SavedOnly(rows, ids, AfterSaves(rows, ids, write))
  {
    if ids != [] {
      var n := |ids| - 1;
      SavesTouchOnly(rows, ids[..n], write);
      assert forall id :: id !in ids ==> id !in ids[..n];
    }
  }

  ghost predicate WellKeyed(rows: Rows) {
    forall id :: id in rows ==> rows[id].record.id == id
  }

  function SaveOps(rows: Rows, ids: seq<string>, write: Delivery -> Delivery): seq<Op>
    requires forall id :: id in ids ==> id in rows
  {
    seq(|ids|, i requires 0 <= i < |ids| => assert ids[i] in ids; Save(write(rows[ids[i]].record)))
  }

  /** A round: a call, the attempts of its batch in order, and then an event of the tenant is dequeued. */
  ghost function Round(s: Store, now: int, limit: nat, lease: RowLease, tenant: string, write: Delivery -> Delivery): seq<Op> {
    BatchInRows(s, now, limit);
    [DueCall(now, limit, lease)] + SaveOps(s.rows, Batch(s, now, limit), write) + [Dequeued(tenant, now + 1)]
  }

  /** Where a round is after its call and so many saves. */
  ghost function Midround(s: Store, now: int, limit: nat, lease: RowLease, write: Delivery -> Delivery, saves: nat): Store
    requires saves <= |Batch(s, now, limit)|
  {
    var called := AfterDue(s, now, limit, lease);
    Store(AfterSaves(called.rows, Batch(s, now, limit)[..saves], write), called.cursor)
  }

  lemma Middle(first: Op, saves: seq<Op>, last: Op)
    ensures var ops := [first] + saves + [last];
      |ops| == |saves| + 2 && ops[0] == first && ops[|saves| + 1] == last && forall i :: 0 <= i < |saves| ==> ops[i + 1] == saves[i]
  {
  }

  lemma RoundOps(s: Store, now: int, limit: nat, lease: RowLease, tenant: string, write: Delivery -> Delivery)
    ensures var ops, batch := Round(s, now, limit, lease, tenant, write), Batch(s, now, limit);
      && |ops| == |batch| + 2 && ops[0] == DueCall(now, limit, lease) && ops[|batch| + 1] == Dequeued(tenant, now + 1)
      && forall i :: 0 <= i < |batch| ==> batch[i] in s.rows && ops[i + 1] == Save(write(s.rows[batch[i]].record))
  {
    BatchInRows(s, now, limit);
    var batch := Batch(s, now, limit);
    var saves := SaveOps(s.rows, batch, write);
    Middle(DueCall(now, limit, lease), saves, Dequeued(tenant, now + 1));
    forall i | 0 <= i < |batch|
      ensures batch[i] in s.rows && ([DueCall(now, limit, lease)] + saves + [Dequeued(tenant, now + 1)])[i + 1]
        == Save(write(s.rows[batch[i]].record))
    {
      assert batch[i] in batch && saves[i] == Save(write(s.rows[batch[i]].record));
    }
  }

  /** The operations after the first are the saves of these rows. */
  ghost predicate Saves(rows: Rows, ids: seq<string>, write: Delivery -> Delivery, ops: seq<Op>, saves: nat) {
    && saves <= |ids| && saves < |ops|
    && forall i :: 0 <= i < saves ==> ids[i] in rows && ops[i + 1] == Save(write(rows[ids[i]].record))
  }

  lemma {:induction false} SavedAt(s: Store, called: Store, ids: seq<string>, write: Delivery -> Delivery, ops: seq<Op>, saves: nat)
    requires Saves(called.rows, ids, write, ops, saves) && At(s, ops, 1) == called
    ensures At(s, ops, 1 + saves) == Store(AfterSaves(called.rows, ids[..saves], write), called.cursor)
  {
    AtStep(s, ops, saves);
    if saves > 0 {
      SavedAt(s, called, ids, write, ops, saves - 1);
      assert ids[..saves][..saves - 1] == ids[..saves - 1] && ids[..saves][saves - 1] == ids[saves - 1];
    }
  }

  lemma RoundAt(s: Store, now: int, limit: nat, lease: RowLease, tenant: string, write: Delivery -> Delivery, saves: nat)
    requires saves <= |Batch(s, now, limit)|
    ensures 1 + saves <= |Round(s, now, limit, lease, tenant, write)|
    ensures At(s, Round(s, now, limit, lease, tenant, write), 1 + saves) == Midround(s, now, limit, lease, write, saves)
  {
    var ops, called := Round(s, now, limit, lease, tenant, write), AfterDue(s, now, limit, lease);
    RoundOps(s, now, limit, lease, tenant, write);
    AtStep(s, ops, 0);
    assert At(s, ops, 1) == called;
    SavedAt(s, called, Batch(s, now, limit), write, ops, saves);
  }

  // ----- what a round leaves -----

  lemma {:induction false} ElementsAtMost(s: seq<string>)
    ensures |set x | x in s| <= |s|
  {
    if s != [] {
      var n := |s| - 1;
      ElementsAtMost(s[..n]);
      assert (set x | x in s) == (set x | x in s[..n]) + {s[n]};
    }
  }

  /** No rival loses more rows to a batch than its share. */
  lemma BatchShare(s: Store, now: int, limit: nat, rival: string)
    requires rival in Waiting(s.rows, now)
    ensures |Taken(s, now, limit, rival)| <= ShareOf(s, now, limit)
  {
    TurnsCount(s, now);
    var turns, share := Turns(s, now), ShareOf(s, now, limit);
    var p := Place(turns, rival);
    var got := Given(s.rows, now, rival, share, limit - Least(limit, Demand(s.rows, now, turns[..p], share)));
    var taken := Taken(s, now, limit, rival);
    forall id | id in taken
      ensures id in got
    {
      TenantPart(s.rows, now, turns, share, limit, p, id);
    }
    ElementsAtMost(got);
    SubsetSize(taken, set id | id in got);
  }

  /** The end of a round, whatever the saves wrote: nothing but the batch has changed, the visited tenants and then the
      one whose event was dequeued are stamped. */
  ghost predicate Ended(s: Store, now: int, limit: nat, tenant: string, t: Store) {
    && SavedOnly(s.rows, Batch(s, now, limit), t.rows) && WellKeyed(t.rows)
    && t.cursor == Stamped(s.cursor, Visited(s, now, limit), now)[tenant := now + 1]
  }

  lemma CalledThenSaved(s: Store, now: int, limit: nat, lease: RowLease, write: Delivery -> Delivery)
    requires WellKeyed(s.rows) && KeepsIds(write)
    ensures var batch := Batch(s, now, limit);
      var rows := AfterSaves(Leased(s.rows, batch, lease), batch, write);
      SavedOnly(s.rows, batch, rows) && WellKeyed(rows)
  {
    var batch := Batch(s, now, limit);
    SavesTouchOnly(Leased(s.rows, batch, lease), batch, write);
    SavesKeepKeys(Leased(s.rows, batch, lease), batch, write);
  }

  /** The state a round ends in. */
  ghost function AfterRound(s: Store, now: int, limit: nat, lease: RowLease, tenant: string, write: Delivery -> Delivery): Store {
    var rows := AfterSaves(Leased(s.rows, Batch(s, now, limit), lease), Batch(s, now, limit), write);
    Store(rows, Stamped(s.cursor, Visited(s, now, limit), now)[tenant := now + 1])
  }

  lemma RoundLeads(s: Store, now: int, limit: nat, lease: RowLease, tenant: string, write: Delivery -> Delivery)
    ensures var ops := Round(s, now, limit, lease, tenant, write);
      At(s, ops, |ops|) == AfterRound(s, now, limit, lease, tenant, write)
  {
    var ops, n := Round(s, now, limit, lease, tenant, write), |Batch(s, now, limit)|;
    RoundOps(s, now, limit, lease, tenant, write);
    RoundAt(s, now, limit, lease, tenant, write, n);
    AtStep(s, ops, n + 1);
    assert Batch(s, now, limit)[..n] == Batch(s, now, limit);
  }

  lemma RoundEnds(s: Store, now: int, limit: nat, lease: RowLease, tenant: string, write: Delivery -> Delivery)
    requires WellKeyed(s.rows) && KeepsIds(write)
    ensures Ended(s, now, limit, tenant, AfterRound(s, now, limit, lease, tenant, write))
  {
    CalledThenSaved(s, now, limit, lease, write);
  }

  lemma {:induction false} SavesKeepKeys(rows: Rows, ids: seq<string>, write: Delivery -> Delivery)
    requires WellKeyed(rows) && KeepsIds(write)
    ensures WellKeyed(AfterSaves(rows, ids, write))
  {
    if ids != [] {
      SavesKeepKeys(rows, ids[..|ids| - 1], write);
    }
  }

  lemma RowsLeft(s: Store, now: int, limit: nat, tenant: string, t: Store, owner: string)
    requires Ended(s, now, limit, tenant, t)
    ensures Claimables(s.rows, now, owner) - Taken(s, now, limit, owner) <= Claimables(t.rows, now + 2, owner)
    ensures |Claimables(s.rows, now, owner)| - |Taken(s, now, limit, owner)| <= |Claimables(t.rows, now + 2, owner)|
  {
    var taken := Taken(s, now, limit, owner);
    var all, left := Claimables(s.rows, now, owner), Claimables(t.rows, now + 2, owner);
    SubsetSize(all - taken, left);
    assert all <= (all - taken) + taken;
    SubsetSize(all, (all - taken) + taken);
  }

  lemma RivalAgain(s: Store, now: int, limit: nat, tenant: string, t: Store, rival: string)
    requires Ended(s, now, limit, tenant, t) && rival in Waiting(s.rows, now) && rival != tenant
    requires PostgresStores.ServedAt(s.cursor, rival) < PostgresStores.ServedAt(s.cursor, tenant) <= now
    ensures |Claimables(s.rows, now, rival)| - ShareOf(s, now, limit) <= |Claimables(t.rows, now + 2, rival)|
    ensures PostgresStores.ServedAt(t.cursor, rival) < PostgresStores.ServedAt(t.cursor, tenant)
  {
    BatchShare(s, now, limit, rival);
    RowsLeft(s, now, limit, tenant, t, rival);
    StampedAt(s.cursor, Visited(s, now, limit), now, rival);
  }

  lemma SameTenants(s: Store, now: int, limit: nat, tenant: string, t: Store, all: set<string>)
    requires Ended(s, now, limit, tenant, t) && forall id :: id in s.rows ==> s.rows[id].record.tenantId in all
    ensures forall id :: id in t.rows ==> t.rows[id].record.tenantId in all
  {
  }

  lemma StillWaits(s: Store, now: int, limit: nat, tenant: string, t: Store)
    requires Ended(s, now, limit, tenant, t) && Claimables(s.rows, now, tenant) != {} && Taken(s, now, limit, tenant) == {}
    ensures Claimables(t.rows, now + 2, tenant) != {} && PostgresStores.ServedAt(t.cursor, tenant) <= now + 2
  {
    RowsLeft(s, now, limit, tenant, t, tenant);
    var id :| id in Claimables(s.rows, now, tenant);
    assert id in Claimables(t.rows, now + 2, tenant);
  }

  /** After a round the tenant is as badly off as before, and the rivals have used up at most one share each. */
  lemma StockedAgain(s: Store, now: int, limit: nat, tenant: string, rivals: set<string>, stock: nat, t: Store)
    requires Stocked(s, now, tenant, rivals, stock) && CanCrowd(|rivals| + 1, limit) && Share(limit, |rivals| + 1) <= stock
    requires Ended(s, now, limit, tenant, t)
    ensures Stocked(t, now + 2, tenant, rivals, stock - Share(limit, |rivals| + 1))
  {
    NoneTaken(s, now, limit, tenant, rivals, stock);
    StillWaits(s, now, limit, tenant, t);
    SameTenants(s, now, limit, tenant, t, rivals + {tenant});
    ShareAmong(s, now, limit, tenant, rivals, stock);
    RivalsAgain(s, now, limit, tenant, rivals, stock, Share(limit, |rivals| + 1), t);
  }

  lemma ShareAmong(s: Store, now: int, limit: nat, tenant: string, rivals: set<string>, stock: nat)
    requires Stocked(s, now, tenant, rivals, stock) && stock > 0
    ensures ShareOf(s, now, limit) == Share(limit, |rivals| + 1)
  {
    StockedWaiting(s, now, tenant, rivals, stock);
    TurnsCount(s, now);
    assert |rivals + {tenant}| == |rivals| + 1;
  }

  lemma RivalsAgain(s: Store, now: int, limit: nat, tenant: string, rivals: set<string>, stock: nat, share: nat, t: Store)
    requires Stocked(s, now, tenant, rivals, stock) && 0 < share <= stock && share == ShareOf(s, now, limit)
    requires Ended(s, now, limit, tenant, t)
    ensures forall r :: r in rivals ==> stock - share <= |Claimables(t.rows, now + 2, r)|
    ensures forall r :: r in rivals ==> PostgresStores.ServedAt(t.cursor, r) < PostgresStores.ServedAt(t.cursor, tenant)
  {
    StockedWaiting(s, now, tenant, rivals, stock);
    forall r | r in rivals
      ensures stock - share <= |Claimables(t.rows, now + 2, r)|
      ensures PostgresStores.ServedAt(t.cursor, r) < PostgresStores.ServedAt(t.cursor, tenant)
    {
      RivalAgain(s, now, limit, tenant, t, r);
    }
  }

  // ----- any number of rounds -----

  /** One operation of such a run: a call finds the tenant waiting and does not visit it; a save is what an attempt makes
      of the stored, leased record; and only events of the tenant itself are dequeued. */
  ghost predicate PassesBy(t: Store, op: Op, tenant: string, write: Delivery -> Delivery) {
    match op
    case DueCall(now, limit, _) => tenant in Waiting(t.rows, now) && tenant !in Visited(t, now, limit)
    case Save(record) => record.id in t.rows && t.rows[record.id].lease.Some? && record == write(t.rows[record.id].record)
    case Dequeued(other, _) => other == tenant
    case _ => false
  }

  ghost predicate Starving(s: Store, ops: seq<Op>, k: nat, tenant: string, write: Delivery -> Delivery) {
    k < |ops| ==> PassesBy(At(s, ops, k), ops[k], tenant, write)
  }

  ghost predicate Passed(s: Store, now: int, limit: nat, tenant: string) {
    WellKeyed(s.rows) && tenant in Waiting(s.rows, now) && tenant !in Visited(s, now, limit)
  }

  lemma SaveIsGenuine(s: Store, now: int, limit: nat, lease: RowLease, write: Delivery -> Delivery, i: nat)
    requires WellKeyed(s.rows) && KeepsIds(write) && i < |Batch(s, now, limit)|
    ensures var id, t := Batch(s, now, limit)[i], Midround(s, now, limit, lease, write, i);
      id in s.rows && id in t.rows && t.rows[id] == s.rows[id].(lease := Some(lease))
  {
    var batch := Batch(s, now, limit);
    BatchInRows(s, now, limit);
    TurnsCount(s, now);
    ChosenDistinct(s.rows, now, Turns(s, now), ShareOf(s, now, limit), limit);
    assert batch[i] in batch && batch[i] !in batch[..i];
    SavesTouchOnly(Leased(s.rows, batch, lease), batch[..i], write);
  }

  lemma RoundStarves(s: Store, now: int, limit: nat, lease: RowLease, tenant: string, write: Delivery -> Delivery, k: nat)
    requires Passed(s, now, limit, tenant) && KeepsIds(write)
    ensures Starving(s, Round(s, now, limit, lease, tenant, write), k, tenant, write)
  {
    var ops, n := Round(s, now, limit, lease, tenant, write), |Batch(s, now, limit)|;
    RoundOps(s, now, limit, lease, tenant, write);
    if 0 < k <= n {
      RoundAt(s, now, limit, lease, tenant, write, k - 1);
      SaveIsGenuine(s, now, limit, lease, write, k - 1);
      assert ops[k] == Save(write(s.rows[Batch(s, now, limit)[k - 1]].record));
    }
  }

  /** The rivals have enough for so many more rounds. */
  ghost predicate Supplied(s: Store, now: int, share: nat, tenant: string, rivals: set<string>, rounds: nat) {
    WellKeyed(s.rows) && Stocked(s, now, tenant, rivals, Times(rounds, share))
  }

  lemma OneRound(s: Store, now: int, limit: nat, lease: RowLease, tenant: string, write: Delivery -> Delivery, rivals: set<string>,
                 rounds: nat)
    requires KeepsIds(write) && CanCrowd(|rivals| + 1, limit) && rounds > 0
    requires Supplied(s, now, Share(limit, |rivals| + 1), tenant, rivals, rounds)
    ensures Supplied(AfterRound(s, now, limit, lease, tenant, write), now + 2, Share(limit, |rivals| + 1), tenant, rivals, rounds - 1)
  {
    RoundEnds(s, now, limit, lease, tenant, write);
    StockedAgain(s, now, limit, tenant, rivals, Times(rounds, Share(limit, |rivals| + 1)),
                 AfterRound(s, now, limit, lease, tenant, write));
  }

  /** Who takes the batches, and for how long. */
  datatype Worker = Worker(owner: string, leaseMs: int)

  function LeaseAt(worker: Worker, now: int): RowLease {
    RowLease(worker.owner, now + worker.leaseMs)
  }

  /** One round of a starving run, which leads to the next state: the tenant waits and is not visited, and everything that
      is saved is what an attempt makes of the leased record. */
  ghost predicate StarvingRound(t: Store, now: int, limit: nat, lease: RowLease, tenant: string, write: Delivery -> Delivery, next: Store) {
    var ops := Round(t, now, limit, lease, tenant, write);
    && tenant in Waiting(t.rows, now) && tenant !in Visited(t, now, limit)
    && (forall k: nat :: Starving(t, ops, k, tenant, write)) && At(t, ops, |ops|) == next
  }

  /** So many such rounds, two ticks apart. */
  ghost predicate Starves(t: Store, now: int, limit: nat, worker: Worker, tenant: string, write: Delivery -> Delivery, rounds: nat)
    decreases rounds
  {
    rounds > 0 ==>
      exists next :: StarvingRound(t, now, limit, LeaseAt(worker, now), tenant, write, next)
                     && Starves(next, now + 2, limit, worker, tenant, write, rounds - 1)
  }

  lemma SuppliedRound(t: Store, now: int, limit: nat, lease: RowLease, tenant: string, write: Delivery -> Delivery,
                      rivals: set<string>, rounds: nat)
    returns (next: Store)
    requires KeepsIds(write) && CanCrowd(|rivals| + 1, limit) && rounds > 0
    requires Supplied(t, now, Share(limit, |rivals| + 1), tenant, rivals, rounds)
    ensures StarvingRound(t, now, limit, lease, tenant, write, next)
    ensures Supplied(next, now + 2, Share(limit, |rivals| + 1), tenant, rivals, rounds - 1)
  {
    next := AfterRound(t, now, limit, lease, tenant, write);
    OneRound(t, now, limit, lease, tenant, write, rivals, rounds);
    RoundIsStarving(t, now, limit, lease, tenant, write, rivals, rounds);
  }

  lemma RoundIsStarving(t: Store, now: int, limit: nat, lease: RowLease, tenant: string, write: Delivery -> Delivery,
                        rivals: set<string>, rounds: nat)
    requires KeepsIds(write) && CanCrowd(|rivals| + 1, limit) && rounds > 0
    requires Supplied(t, now, Share(limit, |rivals| + 1), tenant, rivals, rounds)
    ensures StarvingRound(t, now, limit, lease, tenant, write, AfterRound(t, now, limit, lease, tenant, write))
  {
    StockedCall(t, now, limit, tenant, rivals, Times(rounds, Share(limit, |rivals| + 1)));
    RoundLeads(t, now, limit, lease, tenant, write);
    forall k: nat
      ensures Starving(t, Round(t, now, limit, lease, tenant, write), k, tenant, write)
    {
      RoundStarves(t, now, limit, lease, tenant, write, k);
    }
  }

  lemma {:induction false} SuppliedStarves(t: Store, now: int, limit: nat, worker: Worker, tenant: string, write: Delivery -> Delivery,
                                           rivals: set<string>, rounds: nat)
    requires KeepsIds(write) && CanCrowd(|rivals| + 1, limit)
    requires Supplied(t, now, Share(limit, |rivals| + 1), tenant, rivals, rounds)
    ensures Starves(t, now, limit, worker, tenant, write, rounds)
    decreases rounds
  {
    if rounds > 0 {
      var next := SuppliedRound(t, now, limit, LeaseAt(worker, now), tenant, write, rivals, rounds);
      SuppliedStarves(next, now + 2, limit, worker, tenant, write, rivals, rounds - 1);
    }
  }

  // ----- where it starts -----

  /** As many different strings as needed. */
  function Name(n: nat): string {
    if n == 0 then "r" else Name(n - 1) + "r"
  }

  lemma {:induction false} NameLength(n: nat)
    ensures |Name(n)| == n + 1
  {
    if n > 0 {
      NameLength(n - 1);
    }
  }

  /** So many deliveries of one tenant that were never attempted. */
  function Shelf(tenant: string, first: nat, n: nat): Rows {
    if n == 0 then map[]
    else
      var id := Name(first + n - 1);
      Shelf(tenant, first, n - 1)[id := Row(FreshDelivery(id, Event("e", tenant, "r", 1, "k"), "s", 0), None)]
  }

  function Shelves(tenants: seq<string>, each: nat, first: nat): Rows {
    if tenants == [] then map[] else Shelves(tenants[1..], each, first + each) + Shelf(tenants[0], first, each)
  }

  lemma {:induction false} ShelfRows(tenant: string, first: nat, n: nat, now: int)
    requires 0 <= now
    ensures var rows := Shelf(tenant, first, n);
      && |rows| == n && WellKeyed(rows)
      && forall id :: id in rows ==>
           first < |id| <= first + n && Claimable(rows[id], now) && rows[id].record.tenantId == tenant
  {
    if n > 0 {
      NameLength(first + n - 1);
      ShelfRows(tenant, first, n - 1, now);
    }
  }

  lemma {:induction false} ShelvesRows(tenants: seq<string>, each: nat, first: nat, now: int)
    requires 0 <= now
    ensures var rows := Shelves(tenants, each, first);
      && WellKeyed(rows)
      && (forall id :: id in rows ==> first < |id| && rows[id].record.tenantId in tenants)
      && forall t :: t in tenants ==> each <= |Claimables(rows, now, t)|
    decreases |tenants|
  {
    if tenants != [] {
      var rest, shelf := Shelves(tenants[1..], each, first + each), Shelf(tenants[0], first, each);
      ShelvesRows(tenants[1..], each, first + each, now);
      ShelfRows(tenants[0], first, each, now);
      var rows := Shelves(tenants, each, first);
      forall t | t in tenants
        ensures each <= |Claimables(rows, now, t)|
      {
        if t == tenants[0] {
          SubsetSize(shelf.Keys, Claimables(rows, now, t));
        } else {
          assert t in tenants[1..];
          SubsetSize(Claimables(rest, now, t), Claimables(rows, now, t));
        }
      }
    }
  }

  /** The rivals were never served, the tenant was dequeued from once, and everybody has so many fresh deliveries. */
  function Start(rivals: seq<string>, tenant: string, each: nat): Store {
    Store(Shelves(rivals + [tenant], each, 0), map[tenant := 1])
  }

  lemma StartStocked(rivals: seq<string>, tenant: string, each: nat)
    requires tenant !in rivals && each > 0
    ensures var s := Start(rivals, tenant, each);
      WellKeyed(s.rows) && Stocked(s, 1, tenant, Elements(rivals), each)
  {
    ShelvesRows(rivals + [tenant], each, 0, 1);
    var s := Start(rivals, tenant, each);
    assert tenant in rivals + [tenant];
    assert forall r :: r in rivals ==> r in rivals + [tenant];
  }

  /** Fairness fails: the event queue stamps the same cursor, so with enough other tenants who have deliveries to take, a
      tenant whose events keep being dequeued is due in every one of any number of rounds and never visited. */
  lemma SharedCursorStarves(rivals: seq<string>, tenant: string, limit: nat, share: nat, worker: Worker, o: Outside, rounds: nat)
    requires NoDuplicates(rivals) && tenant !in rivals && CanCrowd(|rivals| + 1, limit) && share == Share(limit, |rivals| + 1)
    ensures Starves(Start(rivals, tenant, 1 + Times(rounds, share)), 1, limit, worker, tenant, Writes(o), rounds)
  {
    StartSupplied(rivals, tenant, share, rounds);
    WritesKeepIds(o);
    SuppliedStarves(Start(rivals, tenant, 1 + Times(rounds, share)), 1, limit, worker, tenant, Writes(o), Elements(rivals), rounds);
  }

  function Writes(o: Outside): Delivery -> Delivery {
    (r: Delivery) => Outcome(o, r)
  }

  lemma WritesKeepIds(o: Outside)
    ensures KeepsIds(Writes(o))
  {
    forall r
      ensures Writes(o)(r).id == r.id
    {
      OutcomeKeeps(o, r);
    }
  }

  function Elements(s: seq<string>): set<string> {
    set x | x in s
  }

  lemma StartSupplied(rivals: seq<string>, tenant: string, share: nat, rounds: nat)
    requires NoDuplicates(rivals) && tenant !in rivals
    ensures |Elements(rivals)| == |rivals|
    ensures Supplied(Start(rivals, tenant, 1 + Times(rounds, share)), 1, share, tenant, Elements(rivals), rounds)
  {
    DistinctCount(rivals, Elements(rivals));
    StartStocked(rivals, tenant, 1 + Times(rounds, share));
  }

  // ----- a short batch -----

  /** Three deliveries of one tenant and one of another. */
  function Uneven(): Rows {
    Shelf("a", 0, 3) + Shelf("b", 3, 1)
  }

  lemma UnevenRows()
    ensures |Claimables(Uneven(), 0, "a")| == 3 && |Claimables(Uneven(), 0, "b")| == 1
    ensures Waiting(Uneven(), 0) == {"a", "b"}
  {
    ShelfRows("a", 0, 3, 0);
    ShelfRows("b", 3, 1, 0);
    var rows, a, b := Uneven(), Shelf("a", 0, 3), Shelf("b", 3, 1);
    assert "a" != "b" by {
      assert "a"[0] != "b"[0];
    }
    assert Claimables(rows, 0, "a") == a.Keys && Claimables(rows, 0, "b") == b.Keys;
    var x :| x in a.Keys;
    var y :| y in b.Keys;
    assert rows[x].record.tenantId == "a" && rows[y].record.tenantId == "b";
  }

  /** A batch of four leaves one of the four due deliveries where it is. */
  lemma ShortBatch()
    ensures var s := Store(Uneven(), map[]); All(s.rows, 0, Turns(s, 0)) == 4 && |Batch(s, 0, 4)| == 3
  {
    var s := Store(Uneven(), map[]);
    var turns := Turns(s, 0);
    UnevenRows();
    TurnsCount(s, 0);
    assert turns[0] in turns && turns[1] in turns && turns == [turns[0], turns[1]];
    assert turns[1..] == [turns[1]] && turns[1..][1..] == [];
    ChosenSize(s.rows, 0, turns, Share(4, 2), 4);
  }
}
