/** The in-memory tenant-fair event queue: its fields, its two operations, and what every
    interleaving of producers and consumers can rely on. */
module FairQueue {
  import opened Records

  datatype State = State(tenants: map<string, seq<Event>>, order: seq<string>, ids: set<string>)

  function Pending(s: State, tenant: string): seq<Event> {
    if tenant in s.tenants then s.tenants[tenant] else []
  }

  function Enqueued(s: State, event: Event): State {
    if event.id in s.ids then s
    else State(s.tenants[event.tenant := Pending(s, event.tenant) + [event]],
               if event.tenant in s.order then s.order else s.order + [event.tenant],
               s.ids + {event.id})
  }

  /** What holds whatever tenant ids are used. */
  ghost predicate Sound(s: State) {
    && (forall i, j :: 0 <= i < j < |s.order| ==> s.order[i] != s.order[j])
    && (forall t :: t in s.order ==> t in s.tenants)
    && (forall t :: t in s.tenants ==> s.tenants[t] != [])
    && (forall t, e :: t in s.tenants && e in s.tenants[t] ==> e.tenant == t && e.id in s.ids)
  }

  /** The turn list is exactly the tenants with pending events. */
  ghost predicate Fair(s: State) {
    Sound(s) && forall t :: t in s.tenants ==> t in s.order
  }

  /** The event a dequeue returns. The empty tenant id is falsy in the source, so its turn yields nothing. */
  function Served(s: State): Option<Event>
    requires Sound(s)
  {
    if s.order == [] || s.order[0] == "" then None else Some(s.tenants[s.order[0]][0])
  }

  function Dequeued(s: State): State
    requires Sound(s)
  {
    if s.order == [] then s
    else if s.order[0] == "" then s.(order := s.order[1..])
    else
      var tenant, rest := s.order[0], s.tenants[s.order[0]][1..];
      if rest == [] then s.(order := s.order[1..], tenants := s.tenants - {tenant})
      else s.(order := s.order[1..] + [tenant], tenants := s.tenants[tenant := rest])
  }

  class FairEventQueue {
    var tenants: map<string, seq<Event>>
    var order: seq<string>
    var ids: set<string>

    ghost function Abs(): State
      reads this
    {
      State(tenants, order, ids)
    }

    constructor ()
      ensures Abs() == State(map[], [], {}) && Fair(Abs())
    {
      tenants, order, ids := map[], [], {};
    }

    method Enqueue(event: Event) returns (accepted: bool)
      requires Sound(Abs())
      modifies this
      ensures accepted <==> event.id !in old(ids)
      ensures Abs() == Enqueued(old(Abs()), event) && Sound(Abs())
    {
      SoundEnqueued(Abs(), event);
      if event.id in ids {
        return false;
      }
      ids := ids + {event.id};
      var queue := if event.tenant in tenants then tenants[event.tenant] else [];
      tenants := tenants[event.tenant := queue + [event]];
      if event.tenant !in order {
        order := order + [event.tenant];
      }
      accepted := true;
    }

    method Dequeue() returns (event: Option<Event>)
      requires Sound(Abs())
      modifies this
      ensures event == Served(old(Abs())) && Abs() == Dequeued(old(Abs())) && Sound(Abs())
    {
      SoundDequeued(Abs());
      if order == [] {
        return None;
      }
      var tenant := order[0];
      order := order[1..];
      if tenant == "" {
        return None;
      }
      var queue := tenants[tenant];
      event := Some(queue[0]);
      if |queue| > 1 {
        tenants := tenants[tenant := queue[1..]];
        order := order + [tenant];
      } else {
        tenants := tenants - {tenant};
      }
    }
  }

  lemma SoundEnqueued(s: State, event: Event)
    requires Sound(s)
    ensures Sound(Enqueued(s, event))
  {
  }

  lemma SoundDequeued(s: State)
    requires Sound(s)
    ensures Sound(Dequeued(s))
  {
    if s.order != [] && s.order[0] != "" {
      var tenant := s.order[0];
      assert forall e :: e in s.tenants[tenant][1..] ==> e in s.tenants[tenant];
      assert forall t :: t in s.order[1..] ==> t in s.order && t != tenant;
    }
  }

  /** A dequeue keeps the turn list complete exactly when it does not meet the empty tenant id. */
  lemma DequeueKeepsFairIff(s: State)
    requires Fair(s)
    ensures Fair(Dequeued(s)) <==> s.order == [] || s.order[0] != ""
  {
    SoundDequeued(s);
    if s.order != [] {
      var t := Dequeued(s);
      assert s.order == [s.order[0]] + s.order[1..];
      if s.order[0] == "" {
        assert "" in t.tenants && "" !in t.order;
      }
    }
  }

  // ----- interleaved runs -----

  datatype Op = Enq(event: Event) | Deq

  function Step(s: State, op: Op): State
    requires Sound(s)
  {
    match op
    case Enq(event) => Enqueued(s, event)
    case Deq => Dequeued(s)
  }

  lemma SoundStep(s: State, op: Op)
    requires Sound(s)
    ensures Sound(Step(s, op))
  {
    match op
    case Enq(event) => SoundEnqueued(s, event);
    case Deq => SoundDequeued(s);
  }

  function Run(s: State, ops: seq<Op>): (t: State)
    requires Sound(s)
    ensures Sound(t)
    decreases |ops|
  {
    if ops == [] then s else SoundStep(s, ops[0]); Run(Step(s, ops[0]), ops[1..])
  }

  /** The events the run accepted and the events it handed out, in order. */
  function Accepted(s: State, ops: seq<Op>): seq<Event>
    requires Sound(s)
    decreases |ops|
  {
    if ops == [] then []
    else
      SoundStep(s, ops[0]);
      (if ops[0].Enq? && ops[0].event.id !in s.ids then [ops[0].event] else []) + Accepted(Step(s, ops[0]), ops[1..])
  }

  function Delivered(s: State, ops: seq<Op>): seq<Event>
    requires Sound(s)
    decreases |ops|
  {
    if ops == [] then []
    else
      SoundStep(s, ops[0]);
      (if ops[0].Deq? && Served(s).Some? then [Served(s).value] else []) + Delivered(Step(s, ops[0]), ops[1..])
  }

  function Dequeues(ops: seq<Op>): nat {
    if ops == [] then 0 else (if ops[0].Deq? then 1 else 0) + Dequeues(ops[1..])
  }

  predicate NamedTenants(s: State, ops: seq<Op>) {
    "" !in s.tenants && forall i :: 0 <= i < |ops| && ops[i].Enq? ==> ops[i].event.tenant != ""
  }

  function ForTenant(events: seq<Event>, tenant: string): seq<Event> {
    if events == [] then []
    else (if events[0].tenant == tenant then [events[0]] else []) + ForTenant(events[1..], tenant)
  }

  lemma {:induction false} ForTenantConcat(a: seq<Event>, b: seq<Event>, tenant: string)
    ensures ForTenant(a + b, tenant) == ForTenant(a, tenant) + ForTenant(b, tenant)
  {
    if a == [] {
      assert a + b == b;
    } else {
      ForTenantConcat(a[1..], b, tenant);
      assert (a + b)[1..] == a[1..] + b;
    }
  }

  lemma {:induction false} FairRun(s: State, ops: seq<Op>)
    requires Fair(s) && NamedTenants(s, ops)
    ensures Fair(Run(s, ops)) && "" !in Run(s, ops).tenants
    decreases |ops|
  {
    if ops != [] {
      if ops[0].Deq? {
        DequeueKeepsFairIff(s);
      } else {
        SoundEnqueued(s, ops[0].event);
      }
      FairRun(Step(s, ops[0]), ops[1..]);
    }
  }

  lemma StepMovesTurn(s: State, op: Op, k: nat)
    requires Sound(s) && k < |s.order| && (op.Deq? ==> 0 < k)
    ensures var t, k' := Step(s, op), if op.Deq? then k - 1 else k;
      Sound(t) && k' < |t.order| && t.order[k'] == s.order[k] && Pending(s, s.order[k]) <= Pending(t, s.order[k])
  {
    SoundStep(s, op);
    if op.Deq? {
      assert s.order[0] != s.order[k];
    }
  }

  /** Bounded wait: a tenant at position k of the turn list is next after exactly k dequeues, however enqueues
      interleave with them. It then hands out the event it waited with, unless it is the empty tenant id, whose turn
      yields nothing. */
  lemma {:induction false} BoundedWait(s: State, ops: seq<Op>, k: nat)
    requires Sound(s) && k < |s.order| && Dequeues(ops) == k
    ensures Run(s, ops).order != [] && Run(s, ops).order[0] == s.order[k]
    ensures Served(Run(s, ops)) == if s.order[k] == "" then None else Some(s.tenants[s.order[k]][0])
    decreases |ops|
  {
    if ops != [] {
      StepMovesTurn(s, ops[0], k);
      var t := Step(s, ops[0]);
      var k' := if ops[0].Deq? then k - 1 else k;
      BoundedWait(t, ops[1..], k');
      var before, after := Pending(s, s.order[k]), Pending(t, s.order[k]);
      assert s.order[k] in s.tenants && t.order[k'] in t.tenants;
      assert before[0] == after[0];
    }
  }

  lemma StepPending(s: State, op: Op, tenant: string)
    requires Sound(s)
    ensures var t := Step(s, op);
      (if op.Deq? && Served(s).Some? then ForTenant([Served(s).value], tenant) else []) + Pending(t, tenant)
      == Pending(s, tenant) + (if op.Enq? && op.event.id !in s.ids then ForTenant([op.event], tenant) else [])
  {
    if op.Deq? && s.order != [] && s.order[0] != "" {
      var queue := s.tenants[s.order[0]];
      assert queue[0] in queue;
      assert queue == [queue[0]] + queue[1..];
    }
  }

  /** First in, first out, and nothing lost or duplicated: what a tenant was handed, followed by what it
      still has pending, is what it had pending followed by what was accepted for it. */
  lemma {:induction false} TenantFifo(s: State, ops: seq<Op>, tenant: string)
    requires Sound(s)
    ensures ForTenant(Delivered(s, ops), tenant) + Pending(Run(s, ops), tenant)
         == Pending(s, tenant) + ForTenant(Accepted(s, ops), tenant)
    decreases |ops|
  {
    if ops != [] {
      SoundStep(s, ops[0]);
      var t := Step(s, ops[0]);
      TenantFifo(t, ops[1..], tenant);
      StepPending(s, ops[0], tenant);
      var out := if ops[0].Deq? && Served(s).Some? then [Served(s).value] else [];
      var inn := if ops[0].Enq? && ops[0].event.id !in s.ids then [ops[0].event] else [];
      ForTenantConcat(out, Delivered(t, ops[1..]), tenant);
      ForTenantConcat(inn, Accepted(t, ops[1..]), tenant);
      Splice(ForTenant(out, tenant), ForTenant(Delivered(t, ops[1..]), tenant), Pending(s, tenant), Pending(t, tenant),
             Pending(Run(s, ops), tenant), ForTenant(inn, tenant), ForTenant(Accepted(t, ops[1..]), tenant));
    }
  }

  lemma Splice(out: seq<Event>, delivered: seq<Event>, before: seq<Event>, middle: seq<Event>, after: seq<Event>,
               inn: seq<Event>, accepted: seq<Event>)
    requires out + middle == before + inn && delivered + after == middle + accepted
    ensures out + delivered + after == before + (inn + accepted)
  {
    calc {
      out + delivered + after;
      out + (delivered + after);
      out + middle + accepted;
      before + inn + accepted;
      before + (inn + accepted);
    }
  }

  /** An event id is accepted at most once over any run, and never if the queue has seen it before. */
  lemma {:induction false} AcceptedOnce(s: State, ops: seq<Op>)
    requires Sound(s)
    ensures forall i :: 0 <= i < |Accepted(s, ops)| ==> Accepted(s, ops)[i].id !in s.ids
    ensures forall i, j :: 0 <= i < j < |Accepted(s, ops)| ==> Accepted(s, ops)[i].id != Accepted(s, ops)[j].id
    decreases |ops|
  {
    if ops != [] {
      SoundStep(s, ops[0]);
      AcceptedOnce(Step(s, ops[0]), ops[1..]);
    }
  }

  /** Why tenant ids must be non-empty: an event of the empty tenant is accepted but never handed out. */
  lemma {:induction false} EmptyTenantStarves(s: State, ops: seq<Op>)
    requires Sound(s)
    ensures ForTenant(Delivered(s, ops), "") == []
    ensures Pending(Run(s, ops), "") == Pending(s, "") + ForTenant(Accepted(s, ops), "")
    decreases |ops|
  {
    TenantFifo(s, ops, "");
    if ops != [] {
      SoundStep(s, ops[0]);
      EmptyTenantStarves(Step(s, ops[0]), ops[1..]);
      var out := if ops[0].Deq? && Served(s).Some? then [Served(s).value] else [];
      ForTenantConcat(out, Delivered(Step(s, ops[0]), ops[1..]), "");
      if out != [] {
        assert out[0] in s.tenants[s.order[0]];
      }
    }
  }
}
