/** Dispatch passes over the PostgreSQL delivery store: what its leases keep apart, and what happens when one runs out while
    its attempt is still under way. */
module LeasedAttempts {
  import opened Records
  import opened Distinct
  import opened ProductionDue
  import DeliverySchedule
  import Dispatch
  import Pipeline
  import Subscriptions
  import TenantStarvation

  /** The row that a pass took. A batch has no row twice. */
  datatype Ticket = Ticket(pass: nat, id: string)

  /** The record as it was then, and the end of its lease. */
  datatype Holding = Holding(copy: Delivery, until: int)

  /** The tables, what the passes of all processes took and have not dealt with yet, and the number of the next pass. */
  datatype Hall = Hall(store: Store, held: map<Ticket, Holding>, next: nat)

  /** A pass takes a batch. It attempts a held record and saves the outcome, or loses it with the process, or drops the
      record before the attempt. The rest is what other code does to the tables. */
  datatype Move =
    | Take(now: int, limit: nat, lease: RowLease)
    | Finish(ticket: Ticket, subs: Subscriptions.Table, inputs: Dispatch.Inputs)
    | Lose(ticket: Ticket)
    | Drop(ticket: Ticket)
    | Fanout(event: Event, id: string, subscription: string, now: int)
    | Serve(tenant: string, at: int)
    | Replay(copy: Delivery, now: int)
    | Retain(gone: set<string>)

  predicate Allowed(h: Hall, m: Move) {
    match m
    case Finish(ticket, _, _) => ticket in h.held
    case Lose(ticket) => ticket in h.held
    case Drop(ticket) => ticket in h.held
    case _ => true
  }

  function Handed(rows: Rows, batch: seq<string>, until: int, pass: nat): map<Ticket, Holding> {
    map id | id in batch && id in rows :: Ticket(pass, id) := Holding(rows[id].record, until)
  }

  ghost function Outcome(h: Hall, m: Move, policy: Dispatch.RetryPolicy): Delivery
    requires m.Finish? && Allowed(h, m)
  {
    Dispatch.Attempted(m.subs, h.held[m.ticket].copy, m.inputs, policy).record
  }

  ghost function After(h: Hall, m: Move, policy: Dispatch.RetryPolicy): Hall
    requires Allowed(h, m)
  {
    match m
    case Take(now, limit, lease) =>
      var batch := Batch(h.store, now, limit);
      Hall(AfterDue(h.store, now, limit, lease), h.held + Handed(h.store.rows, batch, lease.until, h.next), h.next + 1)
    case Finish(ticket, _, _) =>
      h.(store := Step(h.store, Op.Save(Outcome(h, m, policy))), held := h.held - {ticket})
    case Lose(ticket) => h.(held := h.held - {ticket})
    case Drop(ticket) => h.(held := h.held - {ticket})
    case Fanout(event, id, subscription, now) => h.(store := Step(h.store, Op.Create(FreshDelivery(id, event, subscription, now))))
    case Serve(tenant, at) => h.(store := Step(h.store, Op.Dequeued(tenant, at)))
    case Replay(copy, now) => h.(store := Step(h.store, Op.Save(Dispatch.Replayed(copy, now))))
    case Retain(gone) => h.(store := Step(h.store, Op.Prune(gone)))
  }

  /** The moves lead from one state to the other. */
  ghost predicate Leads(h: Hall, moves: seq<Move>, policy: Dispatch.RetryPolicy, t: Hall)
    decreases |moves|
  {
    if moves == [] then t == h else Allowed(h, moves[0]) && Leads(After(h, moves[0], policy), moves[1..], policy, t)
  }

  predicate Attempts(m: Move, id: string) {
    (m.Finish? || m.Lose?) && m.ticket.id == id
  }

  function AttemptsMade(moves: seq<Move>, id: string): nat {
    if moves == [] then 0 else (if Attempts(moves[0], id) then 1 else 0) + AttemptsMade(moves[1..], id)
  }

  function Counter(h: Hall, id: string): int {
    if id in h.store.rows then h.store.rows[id].record.attempts else 0
  }

  // ----- what the leases keep apart -----

  /** The stored row is the one that was taken, still under its lease. */
  predicate Guards(h: Hall, ticket: Ticket) {
    && ticket in h.held && ticket.id in h.store.rows
    && h.store.rows[ticket.id].record == h.held[ticket].copy && DeliverySchedule.Pending(h.held[ticket].copy)
    && h.store.rows[ticket.id].lease.Some? && h.store.rows[ticket.id].lease.value.until == h.held[ticket].until
  }

  ghost predicate Numbered(h: Hall) {
    && TenantStarvation.WellKeyed(h.store.rows)
    && forall t :: t in h.held ==> h.held[t].copy.id == t.id && t.pass < h.next
  }

  /** The delivery is held at most once, and then guarded. */
  ghost predicate HeldOnce(h: Hall, id: string) {
    && Numbered(h)
    && (forall t :: t in h.held && t.id == id ==> Guards(h, t))
    && (forall t, u :: t in h.held && u in h.held && t.id == id && u.id == id ==> t == u)
  }

  /** A batch is taken while the lease of every holding of the delivery still runs, none of its attempts is lost, and it is
      neither replayed nor removed. */
  ghost predicate Timely(h: Hall, m: Move, id: string) {
    match m
    case Take(now, _, _) => forall t :: t in h.held && t.id == id ==> now < h.held[t].until
    case Lose(ticket) => ticket.id != id
    case Replay(copy, _) => copy.id != id
    case Retain(gone) => id !in gone
    case _ => true
  }

  /** Leasing rows none of which is held already. */
  lemma LeasedKeeps(h: Hall, batch: seq<string>, lease: RowLease, cursor: map<string, int>, id: string)
    requires HeldOnce(h, id)
    requires forall k :: k in batch ==> k in h.store.rows && DeliverySchedule.Pending(h.store.rows[k].record)
    requires forall t :: t in h.held && t.id == id ==> id !in batch
    ensures HeldOnce(Hall(Store(Leased(h.store.rows, batch, lease), cursor),
                          h.held + Handed(h.store.rows, batch, lease.until, h.next), h.next + 1), id)
  {
  }

  lemma TakeKeeps(h: Hall, now: int, limit: nat, lease: RowLease, policy: Dispatch.RetryPolicy, id: string)
    requires HeldOnce(h, id) && Timely(h, Take(now, limit, lease), id)
    ensures HeldOnce(After(h, Take(now, limit, lease), policy), id)
  {
    ChosenClaimable(h.store.rows, now, Turns(h.store, now), ShareOf(h.store, now, limit), limit);
    forall t | t in h.held && t.id == id
      ensures id !in Batch(h.store, now, limit)
    {
      assert Guards(h, t);
      NotTaken(h.store, now, limit, id);
    }
    LeasedKeeps(h, Batch(h.store, now, limit), lease, AfterDue(h.store, now, limit, lease).cursor, id);
  }

  lemma FinishKeeps(h: Hall, ticket: Ticket, record: Delivery, id: string)
    requires HeldOnce(h, id) && ticket in h.held && record.id == ticket.id
    requires ticket.id == id ==> record.attempts == h.held[ticket].copy.attempts + 1
    ensures var t := h.(store := Step(h.store, Op.Save(record)), held := h.held - {ticket});
      HeldOnce(t, id) && Counter(t, id) == Counter(h, id) + if ticket.id == id then 1 else 0
    ensures ticket.id == id ==> Guards(h, ticket)
  {
    if ticket.id == id {
      assert Guards(h, ticket);
    }
  }

  lemma OtherKeeps(h: Hall, m: Move, policy: Dispatch.RetryPolicy, id: string)
    requires Allowed(h, m) && HeldOnce(h, id) && Timely(h, m, id) && !m.Take? && !m.Finish?
    ensures HeldOnce(After(h, m, policy), id) && Counter(After(h, m, policy), id) == Counter(h, id)
  {
  }

  /** A timely move keeps that, and the counter counts it if it is an attempt, which is then saved and was made from the
      record stored now. */
  lemma TimelyKeeps(h: Hall, m: Move, policy: Dispatch.RetryPolicy, id: string)
    requires Allowed(h, m) && HeldOnce(h, id) && Timely(h, m, id)
    ensures HeldOnce(After(h, m, policy), id)
    ensures Counter(After(h, m, policy), id) == Counter(h, id) + if Attempts(m, id) then 1 else 0
    ensures Attempts(m, id) ==> m.Finish? && id in h.store.rows && h.held[m.ticket].copy == h.store.rows[id].record
  {
    if m.Take? {
      TakeKeeps(h, m.now, m.limit, m.lease, policy, id);
    } else if m.Finish? {
      FinishKeeps(h, m.ticket, Outcome(h, m, policy), id);
    } else {
      OtherKeeps(h, m, policy, id);
    }
  }

  ghost predicate LeadsTimely(h: Hall, moves: seq<Move>, policy: Dispatch.RetryPolicy, id: string, t: Hall)
    decreases |moves|
  {
    if moves == [] then t == h
    else Allowed(h, moves[0]) && Timely(h, moves[0], id) && LeadsTimely(After(h, moves[0], policy), moves[1..], policy, id, t)
  }

  /** Never replayed, and within its bound. */
  predicate WithinBound(h: Hall, policy: Dispatch.RetryPolicy, id: string) {
    id in h.store.rows ==>
      h.store.rows[id].record.replayCount == 0 && Dispatch.Bounded(h.store.rows[id].record, policy.maximumAttempts)
  }

  lemma TimelyBound(h: Hall, m: Move, policy: Dispatch.RetryPolicy, id: string)
    requires Allowed(h, m) && HeldOnce(h, id) && Timely(h, m, id) && 1 <= policy.maximumAttempts && WithinBound(h, policy, id)
    ensures WithinBound(After(h, m, policy), policy, id)
  {
    if m.Finish? && m.ticket.id == id {
      assert Guards(h, m.ticket);
      Dispatch.AttemptBounded(m.subs, h.held[m.ticket].copy, m.inputs, policy);
    }
  }

  /** If every held delivery is dealt with before its lease ends, each attempt is saved and works on the record then stored:
      so the counter counts the attempts, and there are at most maximumAttempts of them in all. */
  lemma {:induction false} TimelyAttemptsAtMost(h: Hall, moves: seq<Move>, policy: Dispatch.RetryPolicy, id: string, t: Hall)
    requires LeadsTimely(h, moves, policy, id, t) && HeldOnce(h, id)
    requires 1 <= policy.maximumAttempts && WithinBound(h, policy, id)
    ensures Counter(t, id) == Counter(h, id) + AttemptsMade(moves, id) <= policy.maximumAttempts
    decreases |moves|
  {
    if moves != [] {
      TimelyKeeps(h, moves[0], policy, id);
      TimelyBound(h, moves[0], policy, id);
      TimelyAttemptsAtMost(After(h, moves[0], policy), moves[1..], policy, id, t);
    }
  }

  // ----- a lease that runs out -----

  /** There is one row, and it is to be taken. */
  ghost predicate OnlyRow(s: Store, now: int, id: string) {
    s.rows.Keys == {id} && s.rows[id].record.id == id && Claimable(s.rows[id], now)
  }

  lemma OnlyBatch(s: Store, now: int, limit: nat, id: string)
    requires OnlyRow(s, now, id) && limit > 0
    ensures Batch(s, now, limit) == [id]
  {
    var turns, batch, tenant := Turns(s, now), Batch(s, now, limit), s.rows[id].record.tenantId;
    assert Waiting(s.rows, now) == {tenant};
    TenantStarvation.TurnsCount(s, now);
    assert turns[0] in turns && turns == [tenant] && turns[1..] == [];
    assert Claimables(s.rows, now, tenant) == {id};
    ChosenSize(s.rows, now, turns, ShareOf(s, now, limit), limit);
    ChosenClaimable(s.rows, now, turns, ShareOf(s, now, limit), limit);
    assert batch[0] in batch;
  }

  lemma OneTaken(rows: Rows, held: map<Ticket, Holding>, id: string, lease: RowLease, pass: nat)
    requires rows.Keys == {id}
    ensures Leased(rows, [id], lease) == map[id := rows[id].(lease := Some(lease))]
    ensures held + Handed(rows, [id], lease.until, pass) == held[Ticket(pass, id) := Holding(rows[id].record, lease.until)]
  {
    assert Handed(rows, [id], lease.until, pass) == map[Ticket(pass, id) := Holding(rows[id].record, lease.until)];
  }

  /** It is taken, and once its lease has ended it is to be taken again. */
  lemma TakesIt(h: Hall, now: int, limit: nat, lease: RowLease, policy: Dispatch.RetryPolicy, id: string)
    requires OnlyRow(h.store, now, id) && limit > 0 && now <= lease.until
    ensures var t := After(h, Take(now, limit, lease), policy);
      && OnlyRow(t.store, lease.until, id) && t.store.rows[id].record == h.store.rows[id].record
      && t.held == h.held[Ticket(h.next, id) := Holding(h.store.rows[id].record, lease.until)] && t.next == h.next + 1
  {
    OnlyBatch(h.store, now, limit, id);
    OneTaken(h.store.rows, h.held, id, lease, h.next);
  }

  ghost predicate TakesAndFinishes(moves: seq<Move>) {
    forall i :: 0 <= i < |moves| ==> moves[i].Take? || moves[i].Finish?
  }

  lemma {:induction false} AttemptsConcat(a: seq<Move>, b: seq<Move>, id: string)
    ensures AttemptsMade(a + b, id) == AttemptsMade(a, id) + AttemptsMade(b, id)
  {
    if a == [] {
      assert a + b == b;
    } else {
      AttemptsConcat(a[1..], b, id);
      assert (a + b)[0] == a[0] && (a + b)[1..] == a[1..] + b;
    }
  }

  lemma {:induction false} LeadsConcat(h: Hall, a: seq<Move>, middle: Hall, b: seq<Move>, t: Hall, policy: Dispatch.RetryPolicy)
    requires Leads(h, a, policy, middle) && Leads(middle, b, policy, t)
    ensures Leads(h, a + b, policy, t)
    decreases |a|
  {
    if a == [] {
      assert a + b == b;
    } else {
      LeadsConcat(After(h, a[0], policy), a[1..], middle, b, t, policy);
      assert (a + b)[0] == a[0] && (a + b)[1..] == a[1..] + b;
    }
  }

  lemma FinishesIt(h: Hall, ticket: Ticket, copy: Delivery, subs: Subscriptions.Table, x: Dispatch.Inputs, policy: Dispatch.RetryPolicy)
    returns (t: Hall)
    requires h.store.rows.Keys == {ticket.id} && ticket in h.held && h.held[ticket].copy == copy && copy.id == ticket.id
    ensures Leads(h, [Finish(ticket, subs, x)], policy, t)
    ensures t.store.rows.Keys == {ticket.id} && t.held == h.held - {ticket} && Counter(t, ticket.id) == copy.attempts + 1
  {
    t := After(h, Finish(ticket, subs, x), policy);
  }

  /** A take, what follows it, and the save of the row it took. */
  lemma Around(h: Hall, first: Move, taken: Hall, rest: seq<Move>, late: Hall, last: Move, t: Hall, policy: Dispatch.RetryPolicy)
    requires Allowed(h, first) && taken == After(h, first, policy)
    requires Leads(taken, rest, policy, late) && Leads(late, [last], policy, t)
    ensures Leads(h, [first] + (rest + [last]), policy, t)
  {
    LeadsConcat(taken, rest, late, [last], t, policy);
    assert ([first] + (rest + [last]))[1..] == rest + [last];
  }

  lemma AroundCounts(first: Move, rest: seq<Move>, last: Move, id: string)
    requires first.Take? && last.Finish? && last.ticket.id == id && TakesAndFinishes(rest)
    ensures AttemptsMade([first] + (rest + [last]), id) == AttemptsMade(rest, id) + 1
    ensures TakesAndFinishes([first] + (rest + [last]))
  {
    AttemptsConcat([first], rest + [last], id);
    AttemptsConcat(rest, [last], id);
  }

  /** Without that there is no bound, even if every attempt is saved: when attempts outlast their lease, any number of
      passes take the same delivery and attempt it, and the counter ends up one higher. */
  lemma {:induction false} LateAttemptsUnbounded(h: Hall, id: string, now: int, limit: nat, worker: TenantStarvation.Worker,
                                                 subs: Subscriptions.Table, x: Dispatch.Inputs, policy: Dispatch.RetryPolicy, n: nat)
    returns (moves: seq<Move>, t: Hall)
    requires OnlyRow(h.store, now, id) && limit > 0 && worker.leaseMs >= 0 && forall t :: t in h.held ==> t.pass < h.next
    ensures Leads(h, moves, policy, t) && TakesAndFinishes(moves) && AttemptsMade(moves, id) == n
    ensures t.store.rows.Keys == {id} && t.held == h.held && (n > 0 ==> Counter(t, id) == Counter(h, id) + 1)
    decreases n
  {
    if n == 0 {
      moves, t := [], h;
    } else {
      var lease := TenantStarvation.LeaseAt(worker, now);
      var first, last := Take(now, limit, lease), Finish(Ticket(h.next, id), subs, x);
      var taken := After(h, first, policy);
      TakesIt(h, now, limit, lease, policy, id);
      var rest, late := LateAttemptsUnbounded(taken, id, now + worker.leaseMs, limit, worker, subs, x, policy, n - 1);
      t := FinishesIt(late, last.ticket, h.store.rows[id].record, subs, x, policy);
      Around(h, first, taken, rest, late, last, t, policy);
      AroundCounts(first, rest, last, id);
      moves := [first] + (rest + [last]);
    }
  }
}
