/** The in-memory delivery store: insert-if-absent, save with pruning, and the tenant round-robin
    that picks which due deliveries a dispatch pass attempts. */
module DeliverySchedule {
  import opened Distinct
  import opened Records
  import opened Ranking

  predicate Pending(record: Delivery) {
    record.state.Queued? || record.state.RetryScheduled?
  }

  predicate IsDue(record: Delivery, now: int) {
    Pending(record) && record.nextAttemptAt <= now
  }

  /** Keyed by record id, as every write of the store leaves it. */
  ghost predicate WellKeyed(records: map<string, Delivery>) {
    forall id :: id in records ==> records[id].id == id
  }

  function DueSet(records: map<string, Delivery>, now: int): set<Delivery> {
    set id | id in records && IsDue(records[id], now) :: records[id]
  }

  function TenantDue(records: map<string, Delivery>, now: int, tenant: string): set<Delivery> {
    set d | d in DueSet(records, now) && d.tenantId == tenant
  }

  function DueRank(record: Delivery): Rank {
    Rank(record.nextAttemptAt, 0, record.id)
  }

  // ----- the reference order: by position in the own tenant's list, then by tenant -----

  function Ahead(records: map<string, Delivery>, now: int, d: Delivery): set<Delivery> {
    set e | e in TenantDue(records, now, d.tenantId) && Less(DueRank(e), DueRank(d))
  }

  /** A due record's turn: the round in which its tenant's list reaches it, then the tenant name. */
  function Turn(records: map<string, Delivery>, now: int, d: Delivery): Rank {
    Rank(|Ahead(records, now, d)|, 0, d.tenantId)
  }

  /** The schedule: the due records in turn order, cut off at `limit`. */
  ghost predicate RoundRobin(records: map<string, Delivery>, now: int, limit: int, result: seq<Delivery>) {
    && (forall i, j :: 0 <= i < j < |result| ==>
          Less(Turn(records, now, result[i]), Turn(records, now, result[j])))
    && (forall d :: d in result ==> d in DueSet(records, now))
    && (forall d, e :: d in result && e in DueSet(records, now) && e !in result ==>
          Less(Turn(records, now, d), Turn(records, now, e)))
    && |result| == (if limit <= 0 then 0 else if limit <= |DueSet(records, now)| then limit else |DueSet(records, now)|)
  }

  function OfTenant(result: seq<Delivery>, tenant: string): set<Delivery> {
    set d | d in result && d.tenantId == tenant
  }

  // ----- what the schedule gives each tenant -----

  lemma LessTransitive(a: Rank, b: Rank, c: Rank)
    requires Leq(a, b) && Leq(b, c) && (a != b || b != c)
    ensures Less(a, c)
  {
    RankTransitive(a, b, c);
    if a == c {
      RankTotal(a, b);
    }
  }

  lemma AheadShrinks(records: map<string, Delivery>, now: int, d: Delivery, e: Delivery)
    requires d in DueSet(records, now) && e in DueSet(records, now) && d.tenantId == e.tenantId
    requires Less(DueRank(d), DueRank(e))
    ensures |Ahead(records, now, d)| < |Ahead(records, now, e)|
  {
    forall x | x in Ahead(records, now, d)
      ensures x in Ahead(records, now, e)
    {
      LessTransitive(DueRank(x), DueRank(d), DueRank(e));
    }
    assert d in Ahead(records, now, e) && d !in Ahead(records, now, d);
    Smaller(Ahead(records, now, d), Ahead(records, now, e), d);
  }

  lemma Smaller<T>(a: set<T>, b: set<T>, x: T)
    requires a <= b && x in b && x !in a
    ensures |a| < |b|
  {
    SubsetSize(a + {x}, b);
  }

  /** Different due records of a tenant have different due ranks, so every turn is taken by one record. */
  lemma TurnsDistinct(records: map<string, Delivery>, now: int, d: Delivery, e: Delivery)
    requires WellKeyed(records) && d in DueSet(records, now) && e in DueSet(records, now) && d != e
    ensures Turn(records, now, d) != Turn(records, now, e)
  {
    if d.tenantId == e.tenantId {
      assert d.id != e.id;
      RankTotal(DueRank(d), DueRank(e));
      if Less(DueRank(d), DueRank(e)) {
        AheadShrinks(records, now, d, e);
      } else {
        AheadShrinks(records, now, e, d);
      }
    }
  }

  lemma ScheduleDistinct(records: map<string, Delivery>, now: int, limit: int, a: seq<Delivery>)
    requires RoundRobin(records, now, limit, a)
    ensures NoDuplicates(a)
  {
    forall i, j | 0 <= i < j < |a|
      ensures a[i] != a[j]
    {
      assert Less(Turn(records, now, a[i]), Turn(records, now, a[j]));
    }
  }

  lemma ScheduleIncluded(records: map<string, Delivery>, now: int, limit: int, a: seq<Delivery>, b: seq<Delivery>,
                         d: Delivery)
    requires RoundRobin(records, now, limit, a) && RoundRobin(records, now, limit, b) && d in a
    ensures d in b
  {
    var sa, sb := set x | x in a, set x | x in b;
    ScheduleDistinct(records, now, limit, a);
    ScheduleDistinct(records, now, limit, b);
    DistinctCount(a, sa);
    DistinctCount(b, sb);
    assert |sa| == |sb| && d in sa;
    if d !in sb {
      if sb <= sa {
        Smaller(sb, sa, d);
      }
      // b holds a record e that a lacks: d comes before e because of a, and after it because of b
      var e :| e in sb && e !in sa;
      RankTotal(Turn(records, now, d), Turn(records, now, e));
    }
  }

  /** The schedule is a function of the stored records: no two results satisfy it. */
  lemma ScheduleUnique(records: map<string, Delivery>, now: int, limit: int, a: seq<Delivery>, b: seq<Delivery>)
    requires WellKeyed(records) && RoundRobin(records, now, limit, a) && RoundRobin(records, now, limit, b)
    ensures a == b
  {
    forall d ensures d in a <==> d in b {
      if d in a { ScheduleIncluded(records, now, limit, a, b, d); }
      if d in b { ScheduleIncluded(records, now, limit, b, a, d); }
    }
    ScheduleDistinct(records, now, limit, a);
    ScheduleDistinct(records, now, limit, b);
    SameContents(a, b);
    var turn := (d: Delivery) => Turn(records, now, d);
    forall x, y | x in a && y in a && turn(x) == turn(y) ensures x == y {
      if x != y {
        TurnsDistinct(records, now, x, y);
      }
    }
    SortedUnique(turn, a, b);
  }

  lemma SameContents<T>(a: seq<T>, b: seq<T>)
    requires NoDuplicates(a) && NoDuplicates(b) && forall x :: x in a <==> x in b
    ensures multiset(a) == multiset(b)
  {
    forall x
      ensures multiset(a)[x] == multiset(b)[x]
    {
      OnceInDistinct(a, x);
      OnceInDistinct(b, x);
      assert x in a <==> x in multiset(a);
      assert x in b <==> x in multiset(b);
    }
  }

  /** Each tenant contributes a prefix of its own (nextAttemptAt, id) order. */
  lemma TenantPrefix(records: map<string, Delivery>, now: int, limit: int, result: seq<Delivery>,
                     d: Delivery, e: Delivery)
    requires RoundRobin(records, now, limit, result) && d.tenantId == e.tenantId
    requires d in result && e in DueSet(records, now) && Less(DueRank(e), DueRank(d))
    ensures e in result
  {
    AheadShrinks(records, now, e, d);
  }

  /** Fairness: a tenant that still has a due record left out is at most one record behind any other. */
  lemma AtMostOneBehind(records: map<string, Delivery>, now: int, limit: int, result: seq<Delivery>,
                        left: Delivery, other: string)
    requires WellKeyed(records) && RoundRobin(records, now, limit, result)
    requires left in DueSet(records, now) && left !in result
    ensures |OfTenant(result, other)| <= |OfTenant(result, left.tenantId)| + 1
  {
    var mine, theirs := OfTenant(result, left.tenantId), OfTenant(result, other);
    var first := FirstLeftOut(records, now, limit, result, left);
    forall d | d in theirs
      ensures |Ahead(records, now, d)| <= |mine|
    {
      assert Less(Turn(records, now, d), Turn(records, now, first));
    }
    AheadBounded(records, now, theirs, other, |mine|);
  }

  /** The first record left out of a tenant's list has exactly the contributed ones ahead of it. */
  lemma FirstLeftOut(records: map<string, Delivery>, now: int, limit: int, result: seq<Delivery>, left: Delivery)
    returns (first: Delivery)
    requires WellKeyed(records) && RoundRobin(records, now, limit, result)
    requires left in DueSet(records, now) && left !in result
    ensures first in DueSet(records, now) && first !in result && first.tenantId == left.tenantId
    ensures Ahead(records, now, first) == OfTenant(result, left.tenantId)
    decreases |Ahead(records, now, left)|
  {
    if e :| e in Ahead(records, now, left) && e !in result {
      AheadShrinks(records, now, e, left);
      first := FirstLeftOut(records, now, limit, result, e);
    } else {
      first := left;
      forall d | d in OfTenant(result, left.tenantId)
        ensures d in Ahead(records, now, left)
      {
        RankTotal(DueRank(d), DueRank(left));
        if !Less(DueRank(d), DueRank(left)) {
          assert DueRank(d) != DueRank(left);
          TenantPrefix(records, now, limit, result, d, left);
        }
      }
      assert Ahead(records, now, left) == OfTenant(result, left.tenantId);
    }
  }

  /** Records of one tenant that each have at most n others ahead number at most n + 1. */
  lemma {:induction false} AheadBounded(records: map<string, Delivery>, now: int, some: set<Delivery>, tenant: string, n: nat)
    requires WellKeyed(records) && some <= TenantDue(records, now, tenant)
    requires forall d :: d in some ==> |Ahead(records, now, d)| <= n
    ensures |some| <= n + 1
  {
    if some != {} {
      var last := LastOf(records, now, some, tenant);
      forall d | d in some - {last}
        ensures d in Ahead(records, now, last)
      {
        RankTotal(DueRank(d), DueRank(last));
      }
      SubsetSize(some - {last}, Ahead(records, now, last));
    }
  }

  lemma {:induction false} LastOf(records: map<string, Delivery>, now: int, some: set<Delivery>, tenant: string)
    returns (last: Delivery)
    requires WellKeyed(records) && some != {} && some <= TenantDue(records, now, tenant)
    ensures last in some && forall d :: d in some && d != last ==> Less(DueRank(d), DueRank(last))
    decreases some
  {
    last :| last in some;
    if some != {last} {
      var best := LastOf(records, now, some - {last}, tenant);
      assert best.id != last.id;
      RankTotal(DueRank(best), DueRank(last));
      if Less(DueRank(best), DueRank(last)) {
        forall d | d in some && d != last
          ensures Less(DueRank(d), DueRank(last))
        {
          if d != best {
            LessTransitive(DueRank(d), DueRank(best), DueRank(last));
          }
        }
      } else {
        last := best;
      }
    }
  }

  // ----- the rotation that computes the schedule -----

  /** One sorted list per tenant with due records. */
  ghost predicate TenantLists(records: map<string, Delivery>, now: int, lists: map<string, seq<Delivery>>) {
    && (forall d :: d in DueSet(records, now) ==> d.tenantId in lists)
    && forall t :: t in lists ==>
         lists[t] != [] && NoDuplicates(lists[t]) && SortedBy(DueRank, lists[t])
         && forall d :: d in lists[t] <==> d in TenantDue(records, now, t)
  }

  lemma ListPosition(records: map<string, Delivery>, now: int, lists: map<string, seq<Delivery>>, t: string, i: nat)
    requires WellKeyed(records) && TenantLists(records, now, lists) && t in lists && i < |lists[t]|
    ensures Turn(records, now, lists[t][i]) == Rank(i, 0, t)
  {
    var list := lists[t];
    assert list[i] in list;
    forall d
      ensures d in Ahead(records, now, list[i]) <==> d in list[..i]
    {
      if d in list[..i] {
        var k :| 0 <= k < i && list[..i][k] == d;
        assert list[k] == d && d in list;
        assert DueRank(d).id != DueRank(list[i]).id;
      } else if d in Ahead(records, now, list[i]) {
        assert d in list;
        var k :| 0 <= k < |list| && list[k] == d;
        NotInPrefix(list, i, k);
        assert Leq(DueRank(list[i]), DueRank(list[k])) by {
          RankTotal(DueRank(d), DueRank(d));
        }
        RankTotal(DueRank(list[i]), DueRank(d));
      }
    }
    DistinctCount(list[..i], Ahead(records, now, list[i]));
  }

  predicate Before(taken: map<string, nat>, a: string, b: string)
    requires a in taken && b in taken
  {
    a != b && ((taken[a] == taken[b] && StringLeq(a, b)) || (taken[b] == taken[a] + 1 && StringLeq(b, a)))
  }

  /** Whose turn is next: the tenants with records left, in rotation order. */
  ghost predicate Waiting(lists: map<string, seq<Delivery>>, taken: map<string, nat>, tenants: seq<string>) {
    && taken.Keys == lists.Keys
    && (forall t :: t in taken ==> taken[t] <= |lists[t]|)
    && (forall t :: t in tenants <==> t in lists && taken[t] < |lists[t]|)
    && (forall i, j :: 0 <= i < j < |tenants| ==> Before(taken, tenants[i], tenants[j]))
  }

  /** The result holds exactly the records taken from the lists so far. */
  ghost predicate HandedOver(lists: map<string, seq<Delivery>>, taken: map<string, nat>, result: seq<Delivery>)
    requires taken.Keys == lists.Keys && forall t :: t in taken ==> taken[t] <= |lists[t]|
  {
    forall d :: d in result <==> d.tenantId in lists && d in lists[d.tenantId][..taken[d.tenantId]]
  }

  ghost predicate InTurnOrder(records: map<string, Delivery>, now: int, result: seq<Delivery>) {
    forall i, j :: 0 <= i < j < |result| ==> Less(Turn(records, now, result[i]), Turn(records, now, result[j]))
  }

  ghost predicate NextIsLater(records: map<string, Delivery>, now: int, taken: map<string, nat>,
                              tenants: seq<string>, result: seq<Delivery>) {
    forall d, t :: d in result && t in tenants ==> t in taken && Less(Turn(records, now, d), Rank(taken[t], 0, t))
  }

  ghost predicate Rotation(records: map<string, Delivery>, now: int, lists: map<string, seq<Delivery>>,
                           taken: map<string, nat>, tenants: seq<string>, result: seq<Delivery>) {
    && Waiting(lists, taken, tenants)
    && HandedOver(lists, taken, result)
    && InTurnOrder(records, now, result)
    && NextIsLater(records, now, taken, tenants, result)
  }

  ghost predicate Remaining(lists: map<string, seq<Delivery>>, taken: map<string, nat>, queues: map<string, seq<Delivery>>) {
    forall t :: t in lists ==>
      t in taken && taken[t] <= |lists[t]| && t in queues && queues[t] == lists[t][taken[t]..]
  }

  lemma RemainingStep(lists: map<string, seq<Delivery>>, taken: map<string, nat>, queues: map<string, seq<Delivery>>,
                      tenant: string)
    requires Remaining(lists, taken, queues) && tenant in lists && taken[tenant] < |lists[tenant]|
    ensures queues[tenant] != [] && queues[tenant][0] == lists[tenant][taken[tenant]]
    ensures |queues[tenant]| > 1 <==> taken[tenant] + 1 < |lists[tenant]|
    ensures Remaining(lists, taken[tenant := taken[tenant] + 1], queues[tenant := queues[tenant][1..]])
  {
  }

  function ByName(tenant: string): Rank {
    Rank(0, 0, tenant)
  }

  lemma SortedNames(names: seq<string>)
    requires NoDuplicates(names)
    ensures forall t :: t in Sort(ByName, names) <==> t in names
    ensures var tenants := Sort(ByName, names);
      forall i, j :: 0 <= i < j < |tenants| ==> tenants[i] != tenants[j] && StringLeq(tenants[i], tenants[j])
  {
    var tenants := Sort(ByName, names);
    SortSorts(ByName, names);
    SortElements(ByName, names);
    PermutedNoDuplicates(names, tenants);
    forall i, j | 0 <= i < j < |tenants|
      ensures StringLeq(tenants[i], tenants[j])
    {
      assert Leq(ByName(tenants[i]), ByName(tenants[j]));
    }
  }

  function Untaken(lists: map<string, seq<Delivery>>): map<string, nat> {
    map t | t in lists :: 0
  }

  lemma RotationStart(records: map<string, Delivery>, now: int, lists: map<string, seq<Delivery>>, names: seq<string>)
    requires TenantLists(records, now, lists) && NoDuplicates(names) && forall t :: t in names <==> t in lists
    ensures Rotation(records, now, lists, Untaken(lists), Sort(ByName, names), [])
    ensures Remaining(lists, Untaken(lists), lists)
  {
    SortedNames(names);
  }

  function Rotated(tenants: seq<string>, more: bool): seq<string>
    requires tenants != []
  {
    tenants[1..] + if more then [tenants[0]] else []
  }

  lemma RotationOrder(lists: map<string, seq<Delivery>>, taken: map<string, nat>, tenants: seq<string>, more: bool)
    requires tenants != [] && taken.Keys == lists.Keys && forall t :: t in tenants ==> t in lists
    requires forall i, j :: 0 <= i < j < |tenants| ==> Before(taken, tenants[i], tenants[j])
    ensures var rest, taken' := Rotated(tenants, more), taken[tenants[0] := taken[tenants[0]] + 1];
      forall i, j :: 0 <= i < j < |rest| ==> Before(taken', rest[i], rest[j])
  {
    var head := tenants[0];
    var rest := Rotated(tenants, more);
    var taken' := taken[head := taken[head] + 1];
    forall i, j | 0 <= i < j < |rest|
      ensures Before(taken', rest[i], rest[j])
    {
      assert rest[i] == tenants[i + 1] && Before(taken, head, rest[i]);
      if j < |tenants| - 1 {
        assert rest[j] == tenants[j + 1] && Before(taken, head, rest[j]) && Before(taken, rest[i], rest[j]);
      }
    }
  }

  lemma RotatedMembers(tenants: seq<string>, more: bool)
    requires tenants != [] && forall k :: 0 < k < |tenants| ==> tenants[k] != tenants[0]
    ensures forall t :: t in Rotated(tenants, more) <==> (t in tenants && t != tenants[0]) || (more && t == tenants[0])
  {
    assert tenants == [tenants[0]] + tenants[1..];
    forall t | t in tenants[1..] ensures t != tenants[0] {
      var k :| 0 <= k < |tenants[1..]| && tenants[1..][k] == t;
      assert tenants[k + 1] == t;
    }
  }

  lemma WaitingStep(lists: map<string, seq<Delivery>>, taken: map<string, nat>, tenants: seq<string>)
    requires tenants != [] && Waiting(lists, taken, tenants)
    ensures tenants[0] in lists && taken[tenants[0]] < |lists[tenants[0]]|
    ensures var head := tenants[0];
      Waiting(lists, taken[head := taken[head] + 1], Rotated(tenants, taken[head] + 1 < |lists[head]|))
  {
    var head := tenants[0];
    assert head in tenants;
    var taken' := taken[head := taken[head] + 1];
    var rest := Rotated(tenants, taken[head] + 1 < |lists[head]|);
    RotationOrder(lists, taken, tenants, taken[head] + 1 < |lists[head]|);
    forall k | 0 < k < |tenants| ensures tenants[k] != head {
      assert Before(taken, head, tenants[k]);
    }
    RotatedMembers(tenants, taken[head] + 1 < |lists[head]|);
  }

  lemma HandedOverStep(lists: map<string, seq<Delivery>>, taken: map<string, nat>, head: string, result: seq<Delivery>)
    requires taken.Keys == lists.Keys && (forall t :: t in taken ==> taken[t] <= |lists[t]|)
    requires HandedOver(lists, taken, result) && head in lists && taken[head] < |lists[head]|
    requires forall t, d :: t in lists && d in lists[t] ==> d.tenantId == t
    ensures HandedOver(lists, taken[head := taken[head] + 1], result + [lists[head][taken[head]]])
  {
    var n := taken[head];
    assert lists[head][n] in lists[head];
    assert lists[head][..n + 1] == lists[head][..n] + [lists[head][n]];
  }

  /** Taking the head tenant's next record keeps the rotation. */
  lemma RotationStep(records: map<string, Delivery>, now: int, lists: map<string, seq<Delivery>>,
                     taken: map<string, nat>, tenants: seq<string>, result: seq<Delivery>)
    requires WellKeyed(records) && TenantLists(records, now, lists) && tenants != []
    requires Rotation(records, now, lists, taken, tenants, result)
    ensures tenants[0] in lists && taken[tenants[0]] < |lists[tenants[0]]|
    ensures var head := tenants[0];
      var n := taken[head];
      Rotation(records, now, lists, taken[head := n + 1], Rotated(tenants, n + 1 < |lists[head]|),
               result + [lists[head][n]])
  {
    var head := tenants[0];
    var n := taken[head];
    WaitingStep(lists, taken, tenants);
    HandedOverStep(lists, taken, head, result);
    ListPosition(records, now, lists, head, n);
    LaterStep(records, now, taken, tenants, result, lists[head][n], n + 1 < |lists[head]|);
  }

  lemma LaterStep(records: map<string, Delivery>, now: int, taken: map<string, nat>, tenants: seq<string>,
                  result: seq<Delivery>, d: Delivery, more: bool)
    requires tenants != [] && forall t :: t in tenants ==> t in taken
    requires forall i, j :: 0 <= i < j < |tenants| ==> Before(taken, tenants[i], tenants[j])
    requires NextIsLater(records, now, taken, tenants, result) && InTurnOrder(records, now, result)
    requires Turn(records, now, d) == Rank(taken[tenants[0]], 0, tenants[0])
    ensures NextIsLater(records, now, taken[tenants[0] := taken[tenants[0]] + 1], Rotated(tenants, more), result + [d])
    ensures InTurnOrder(records, now, result + [d])
  {
    var head := tenants[0];
    var n := taken[head];
    assert head in tenants;
    forall x, t | x in result + [d] && t in Rotated(tenants, more)
      ensures Less(Turn(records, now, x), Rank(taken[head := n + 1][t], 0, t))
    {
      if t == head {
        StringTotal(head, head);
        LessTransitive(Turn(records, now, x), Rank(n, 0, head), Rank(n + 1, 0, head));
      } else {
        var k :| 1 <= k < |tenants| && tenants[k] == t;
        assert Before(taken, head, t);
        assert t in tenants;
      }
    }
  }

  /** When the rotation stops it has computed the schedule. */
  lemma RotationDone(records: map<string, Delivery>, now: int, lists: map<string, seq<Delivery>>,
                     taken: map<string, nat>, tenants: seq<string>, result: seq<Delivery>, limit: int)
    requires WellKeyed(records) && TenantLists(records, now, lists)
    requires Rotation(records, now, lists, taken, tenants, result)
    requires |result| == (if limit <= 0 then 0 else limit) || (|result| < limit && tenants == [])
    ensures RoundRobin(records, now, limit, result)
  {
    var all := set d | d in result;
    forall d, e | d in result && e in DueSet(records, now) && e !in result
      ensures Less(Turn(records, now, d), Turn(records, now, e))
    {
      var t := e.tenantId;
      assert e in lists[t];
      var i :| 0 <= i < |lists[t]| && lists[t][i] == e;
      NotInPrefix(lists[t], taken[t], i);
      ListPosition(records, now, lists, t, i);
      StringTotal(t, t);
      LessTransitive(Turn(records, now, d), Rank(taken[t], 0, t), Rank(i, 0, t));
    }
    forall d | d in result
      ensures d in DueSet(records, now)
    {
      var t := d.tenantId;
      assert d in lists[t][..taken[t]];
      assert d in lists[t];
    }
    forall i, j | 0 <= i < j < |result|
      ensures result[i] != result[j]
    {
      assert Less(Turn(records, now, result[i]), Turn(records, now, result[j]));
    }
    DistinctCount(result, all);
    SubsetSize(all, DueSet(records, now));
    if |result| < limit {
      forall e | e in DueSet(records, now)
        ensures e in all
      {
        var t := e.tenantId;
        assert e in lists[t] && t !in tenants;
        assert lists[t][..taken[t]] == lists[t];
      }
      assert all == DueSet(records, now);
    }
  }

  // ----- pruning -----

  /** Only completed records go, the least recently updated first, and no more than the limit asks for. */
  ghost predicate Pruned(before: map<string, Delivery>, after: map<string, Delivery>, maximum: int) {
    && after.Keys <= before.Keys && (forall id :: id in after ==> after[id] == before[id])
    && (|before| <= maximum ==> after == before)
    && (|before| > maximum ==> |after| == maximum || (|after| > maximum && forall id :: id in after ==> Pending(after[id])))
    && (forall id :: id in before && id !in after ==> !Pending(before[id]))
    && forall gone, kept :: gone in before && gone !in after && kept in after && !Pending(after[kept]) ==>
         before[gone].updatedAt <= after[kept].updatedAt
  }

  function UpdateAge(records: map<string, Delivery>): string -> Rank {
    (id: string) => Rank(if id in records then records[id].updatedAt else 0, 0, "")
  }

  /** The completed records of a store, least recently updated first. */
  ghost predicate ByAge(all: map<string, Delivery>, oldest: seq<string>) {
    && NoDuplicates(oldest) && (forall id :: id in oldest <==> id in all && !Pending(all[id]))
    && forall i, j :: 0 <= i < j < |oldest| ==>
         oldest[i] in all && oldest[j] in all && all[oldest[i]].updatedAt <= all[oldest[j]].updatedAt
  }

  method CompletedByAge(all: map<string, Delivery>) returns (oldest: seq<string>)
    ensures ByAge(all, oldest)
  {
    var completed := Enumerate(set id | id in all && !Pending(all[id]));
    oldest := Sort(UpdateAge(all), completed);
    SortSorts(UpdateAge(all), completed);
    SortElements(UpdateAge(all), completed);
    PermutedNoDuplicates(completed, oldest);
    forall i, j | 0 <= i < j < |oldest|
      ensures oldest[i] in all && oldest[j] in all && all[oldest[i]].updatedAt <= all[oldest[j]].updatedAt
    {
      assert Leq(UpdateAge(all)(oldest[i]), UpdateAge(all)(oldest[j]));
      assert oldest[i] in oldest && oldest[j] in oldest;
    }
  }

  /** The records left after dropping the i oldest completed ones; `rest` lists the others by age. */
  ghost predicate Dropped(all: map<string, Delivery>, rest: seq<string>, i: nat, records: map<string, Delivery>) {
    && records.Keys <= all.Keys && (forall id :: id in records ==> records[id] == all[id])
    && |records| + i == |all|
    && ByAge(records, rest)
    && (forall id :: id in all && id !in records ==> !Pending(all[id]))
    && forall gone, kept :: gone in all && gone !in records && kept in rest ==>
         kept in all && all[gone].updatedAt <= all[kept].updatedAt
  }

  lemma DropNext(all: map<string, Delivery>, rest: seq<string>, i: nat, records: map<string, Delivery>)
    requires Dropped(all, rest, i, records) && rest != []
    ensures rest[0] in records && Dropped(all, rest[1..], i + 1, records - {rest[0]})
  {
    MapRemove(records, rest[0]);
    ByAgeTail(records, rest);
  }

  lemma ByAgeTail(records: map<string, Delivery>, rest: seq<string>)
    requires ByAge(records, rest) && rest != []
    ensures rest[0] in records && ByAge(records - {rest[0]}, rest[1..])
    ensures forall kept :: kept in rest[1..] ==> kept in records && records[rest[0]].updatedAt <= records[kept].updatedAt
    ensures forall kept :: kept in rest[1..] ==> kept in rest
  {
    assert rest[0] in rest && rest == [rest[0]] + rest[1..];
    forall kept | kept in rest[1..]
      ensures kept in records && records[rest[0]].updatedAt <= records[kept].updatedAt
    {
      var k :| 0 <= k < |rest[1..]| && rest[1..][k] == kept;
      assert rest[k + 1] == kept && rest[k + 1] in rest;
    }
  }

  lemma MapRemove(m: map<string, Delivery>, id: string)
    requires id in m
    ensures |m - {id}| == |m| - 1
  {
    assert m.Keys == (m - {id}).Keys + {id};
  }

  lemma PrunedWhenDropped(all: map<string, Delivery>, rest: seq<string>, i: nat, records: map<string, Delivery>, maximum: nat)
    requires Dropped(all, rest, i, records) && |all| > maximum && |records| >= maximum
    requires |records| == maximum || rest == []
    ensures Pruned(all, records, maximum)
  {
  }

  /** The rotation together with the queues that the loop shifts records from. */
  ghost predicate Turning(records: map<string, Delivery>, now: int, lists: map<string, seq<Delivery>>,
                          taken: map<string, nat>, tenants: seq<string>, result: seq<Delivery>,
                          queues: map<string, seq<Delivery>>) {
    Rotation(records, now, lists, taken, tenants, result) && Remaining(lists, taken, queues)
  }

  lemma TurnStep(records: map<string, Delivery>, now: int, lists: map<string, seq<Delivery>>, taken: map<string, nat>,
                 tenants: seq<string>, result: seq<Delivery>, queues: map<string, seq<Delivery>>)
    returns (taken': map<string, nat>)
    requires WellKeyed(records) && TenantLists(records, now, lists) && tenants != []
    requires Turning(records, now, lists, taken, tenants, result, queues)
    ensures tenants[0] in queues && queues[tenants[0]] != []
    ensures var queue := queues[tenants[0]];
      Turning(records, now, lists, taken', Rotated(tenants, |queue| > 1), result + [queue[0]],
              queues[tenants[0] := queue[1..]])
  {
    var head := tenants[0];
    taken' := taken[head := taken[head] + 1];
    RotationStep(records, now, lists, taken, tenants, result);
    RemainingStep(lists, taken, queues, head);
  }

  method TakeTurns(ghost records: map<string, Delivery>, ghost now: int, lists: map<string, seq<Delivery>>, limit: int)
    returns (result: seq<Delivery>)
    requires WellKeyed(records) && TenantLists(records, now, lists)
    ensures RoundRobin(records, now, limit, result)
  {
    var byTenant := lists;
    var names := Enumerate(lists.Keys);
    var tenants := Sort(ByName, names);
    ghost var taken := Untaken(lists);
    RotationStart(records, now, lists, names);
    result := [];
    while |result| < limit && |tenants| > 0
      invariant |result| <= (if limit <= 0 then 0 else limit)
      invariant Turning(records, now, lists, taken, tenants, result, byTenant)
      decreases limit - |result|
    {
      taken := TurnStep(records, now, lists, taken, tenants, result, byTenant);
      var tenant := tenants[0];
      var queue := byTenant[tenant];
      result := result + [queue[0]];
      tenants := Rotated(tenants, |queue| > 1);
      byTenant := byTenant[tenant := queue[1..]];
    }
    RotationDone(records, now, lists, taken, tenants, result, limit);
  }

  class InMemoryDeliveryStore {
    var records: map<string, Delivery>
    const maximumRecords: nat

    ghost predicate Valid()
      reads this
    {
      WellKeyed(records)
    }

    constructor (maximumRecords: nat)
      ensures Valid() && records == map[] && this.maximumRecords == maximumRecords
    {
      records := map[];
      this.maximumRecords := maximumRecords;
    }

    method Create(record: Delivery) returns (created: bool)
      requires Valid()
      modifies this
      ensures Valid()
      ensures created <==> record.id !in old(records)
      ensures created ==> Pruned(old(records)[record.id := record], records, maximumRecords)
      ensures !created ==> records == old(records)
    {
      if record.id in records {
        return false;
      }
      records := records[record.id := record];
      Prune();
      created := true;
    }

    method Save(record: Delivery)
      requires Valid()
      modifies this
      ensures Valid() && Pruned(old(records)[record.id := record], records, maximumRecords)
    {
      records := records[record.id := record];
      Prune();
    }

    method Prune()
      requires Valid()
      modifies this
      ensures Valid() && Pruned(old(records), records, maximumRecords)
    {
      if |records| <= maximumRecords {
        return;
      }
      var oldest := CompletedByAge(records);
      ghost var all := records;
      ghost var i: nat := 0;
      while |records| > maximumRecords && oldest != []
        invariant |records| >= maximumRecords
        invariant Dropped(all, oldest, i, records)
        decreases |oldest|
      {
        DropNext(all, oldest, i, records);
        records := records - {oldest[0]};
        oldest := oldest[1..];
        i := i + 1;
      }
      PrunedWhenDropped(all, oldest, i, records, maximumRecords);
    }

    /** Groups the due records by tenant, sorts each group, then takes one record per tenant in turn. */
    method Due(now: int, limit: int) returns (result: seq<Delivery>)
      requires Valid()
      ensures RoundRobin(records, now, limit, result)
    {
      var byTenant := GroupDue(now);
      result := TakeTurns(records, now, byTenant, limit);
    }

    method GroupDue(now: int) returns (byTenant: map<string, seq<Delivery>>)
      requires Valid()
      ensures TenantLists(records, now, byTenant)
    {
      byTenant := map[];
      var rest := records.Keys;
      ghost var seen: set<Delivery> := {};
      while rest != {}
        invariant rest <= records.Keys
        invariant seen == set id | id in records && id !in rest && IsDue(records[id], now) :: records[id]
        invariant forall d :: d in seen ==> d.tenantId in byTenant
        invariant forall t :: t in byTenant ==> byTenant[t] != [] && NoDuplicates(byTenant[t])
        invariant forall t, d :: t in byTenant ==> (d in byTenant[t] <==> d in seen && d.tenantId == t)
        decreases rest
      {
        var id :| id in rest;
        var record := records[id];
        if IsDue(record, now) {
          var queue := if record.tenantId in byTenant then byTenant[record.tenantId] else [];
          assert record !in queue;
          byTenant := byTenant[record.tenantId := queue + [record]];
          seen := seen + {record};
        }
        rest := rest - {id};
      }
      ghost var grouped := byTenant;
      assert seen == DueSet(records, now);
      byTenant := SortGroups(byTenant);
      forall t | t in byTenant
        ensures byTenant[t] != [] && NoDuplicates(byTenant[t]) && SortedBy(DueRank, byTenant[t])
        ensures forall d :: d in byTenant[t] <==> d in grouped[t]
      {
        SortSorts(DueRank, grouped[t]);
        SortElements(DueRank, grouped[t]);
        PermutedNoDuplicates(grouped[t], byTenant[t]);
      }
    }

    method SortGroups(grouped: map<string, seq<Delivery>>) returns (byTenant: map<string, seq<Delivery>>)
      ensures byTenant.Keys == grouped.Keys
      ensures forall t :: t in grouped ==> byTenant[t] == Sort(DueRank, grouped[t])
    {
      byTenant := grouped;
      var todo := byTenant.Keys;
      while todo != {}
        invariant todo <= byTenant.Keys == grouped.Keys
        invariant forall t :: t in todo ==> byTenant[t] == grouped[t]
        invariant forall t :: t in grouped && t !in todo ==> byTenant[t] == Sort(DueRank, grouped[t])
        decreases todo
      {
        var t :| t in todo;
        byTenant := byTenant[t := Sort(DueRank, byTenant[t])];
        todo := todo - {t};
      }
    }
  }
}
