/** One tick of the webhook service over the PostgreSQL stores: an uninterrupted tick is one of the step system's traces,
    and a crash inside the tick leaves a prefix of that trace. */
module ServiceTick {
  import opened Distinct
  import opened Pipeline
  import opened PostgresStores
  import opened Records
  import Dispatch
  import Subscriptions

  /** What goes wrong in one round of the dispatch loop: reading the recipients, the insert after so many inserts, or the
      commit, whose statement may have been applied all the same. */
  datatype Fault = NoFault | ReadFails | InsertFails(after: nat) | CommitFails(applied: bool)

  /** Whether a fault strikes a round with so many recipients. */
  predicate Strikes(fault: Fault, recipients: nat) {
    match fault
    case NoFault => false
    case ReadFails => true
    case InsertFails(after) => after < recipients
    case CommitFails(_) => true
  }

  lemma StruckIff(fault: Fault, recipients: nat, created: bool)
    requires !fault.ReadFails? && (created <==> !(fault.InsertFails? && fault.after < recipients))
    ensures created && !fault.CommitFails? <==> !Strikes(fault, recipients)
    ensures created && (fault.CommitFails? ==> fault.applied) <==> !Strikes(fault, recipients) || fault == CommitFails(true)
  {
  }

  predicate ByWorker(a: Action, w: WorkerId) {
    match a
    case Lease(v, _, _, _) => v == w
    case EnqueueHead(v) => v == w
    case MarkHead(v, _) => v == w
    case Dequeue(v, _, _, _) => v == w
    case ReadRecipients(v) => v == w
    case Create(v, _, _) => v == w
    case Commit(v, _) => v == w
    case Release(v) => v == w
    case _ => false
  }

  ghost predicate AllBy(trace: seq<Action>, w: WorkerId) {
    forall i :: 0 <= i < |trace| ==> ByWorker(trace[i], w)
  }

  function Commits(trace: seq<Action>): nat {
    if trace == [] then 0 else Commits(trace[..|trace| - 1]) + if trace[|trace| - 1].Commit? then 1 else 0
  }

  lemma {:induction false} CommitsConcat(a: seq<Action>, b: seq<Action>)
    ensures Commits(a + b) == Commits(a) + Commits(b)
  {
    if b == [] {
      assert a + b == a;
    } else {
      CommitsConcat(a, b[..|b| - 1]);
      assert (a + b)[..|a + b| - 1] == a + b[..|b| - 1];
    }
  }

  /** The row of a relayed batch: marked, with its event in the queue; all other rows are as before. */
  ghost predicate BatchRelayed(s: World, t: World, now: int, batch: seq<string>) {
    && t.outbox.Keys == s.outbox.Keys
    && (forall id :: id in batch ==> id in t.outbox && t.outbox[id].state == Relayed(now) && id in t.queue)
    && (forall id :: id in s.outbox && id !in batch ==> t.outbox[id] == s.outbox[id])
    && (forall id :: id in s.queue ==> id in t.queue && t.queue[id] == s.queue[id])
    && (forall id :: id in t.queue && id !in s.queue ==> id in batch)
    && t.deliveries == s.deliveries && t.cursor == s.cursor && t.subscribers == s.subscribers && t.completed == s.completed
  }
  /** No row can be claimed. */
  ghost predicate NothingAvailable(s: World, now: int) {
    forall id :: id in s.queue ==> !Available(s.queue[id], now)
  }

  /** What a round leaves: a served event is out of the queue and completed with its recipients; a failed one is back
      without a lease, unless only the report of its commit failed. */
  ghost predicate RoundResult(env: Env, s: World, t: World, id: string, finished: bool, fault: Fault)
    requires id in s.queue
  {
    var recipients := Recipients(env, s.subscribers, s.queue[id].event);
    && (finished || (fault == CommitFails(true)) ==> t.queue == s.queue - {id} && t.completed == s.completed[id := recipients])
    && (finished && DigestInjective(env) ==> FullyFannedOut(env, t, id))
    && (!finished && fault != CommitFails(true) ==>
          t.queue == s.queue[id := s.queue[id].(lease := None)] && t.completed == s.completed)
  }

  /** Where a fan-out leaves the worker. */
  ghost predicate FannedTo(s: World, t: World, w: WorkerId, event: Event, recipients: set<string>, finished: bool)
    requires w in s.workers
  {
    exists todo: set<string> :: todo <= recipients && (finished ==> todo == {})
      && t == Goto(s.(deliveries := t.deliveries), w, Fanning(event, recipients, todo))
  }

  /** Two parts of a run, put together. */
  lemma JoinedRuns(env: Env, s: World, a: seq<Action>, b: seq<Action>, w: WorkerId)
    requires ValidTrace(env, s, a) && ValidTrace(env, Run(env, s, a), b) && AllBy(a, w) && AllBy(b, w)
    ensures ValidTrace(env, s, a + b) && Run(env, s, a + b) == Run(env, Run(env, s, a), b)
    ensures AllBy(a + b, w) && Commits(a + b) == Commits(a) + Commits(b)
  {
    RunConcat(env, s, a, b);
    CommitsConcat(a, b);
  }

  /** What the rounds of a dispatch loop are given: the worker and its lease, the subscriptions it reads, and for each event
      what goes wrong. */
  datatype Setting = Setting(w: WorkerId, leaseMs: int, subscribers: map<string, Subscriber>, fault: string -> Fault)

  /** A round at a clock reading: it claims the fair choice, ends well unless its fault strikes, and leaves what that makes
      of the row. */
  ghost predicate RoundOf(env: Env, c: Setting, s: World, now: int, trace: seq<Action>, finished: bool, t: World) {
    ValidTrace(env, s, trace) && t == Run(env, s, trace) && trace != [] &&
    exists id :: NextRow(s.queue, s.cursor, now, id) && trace[0] == Dequeue(c.w, now, c.leaseMs, id)
      && (finished <==> !Strikes(c.fault(s.queue[id].event.id), |Recipients(env, c.subscribers, s.queue[id].event)|))
      && RoundResult(env, s, t, id, finished, c.fault(s.queue[id].event.id))
  }

  function Joined(rounds: seq<seq<Action>>): seq<Action> {
    if rounds == [] then [] else Joined(rounds[..|rounds| - 1]) + rounds[|rounds| - 1]
  }

  /** Rounds that all end well, each from the world the one before it leads to and with the next clock reading. */
  ghost predicate AllServed(env: Env, c: Setting, clock: nat -> int, rounds: seq<seq<Action>>, worlds: seq<World>) {
    && |worlds| == |rounds| + 1
    && forall i :: 0 <= i < |rounds| ==> RoundOf(env, c, worlds[i], clock(i), rounds[i], true, worlds[i + 1])
  }

  /** How a loop over so many events stops after some of them: with no further round, when there are no more to serve or
      nothing is available, or with one that fails. */
  ghost predicate Stops(env: Env, c: Setting, stop: World, clock: nat -> int, events: nat, limit: nat, last: seq<Action>) {
    if last == [] then events == limit || (events < limit && NothingAvailable(stop, clock(events)))
    else events < limit && ValidTrace(env, stop, last) && RoundOf(env, c, stop, clock(events), last, false, Run(env, stop, last))
  }

  ghost predicate CreatesBy(trace: seq<Action>, w: WorkerId) {
    forall i :: 0 <= i < |trace| ==> trace[i].Create? && trace[i].w == w
  }

  class WebhookService {
    const env: Env
    const outbox: PostgresOutboxStore
    const queue: PostgresEventQueue
    const deliveries: PostgresDeliveryStore
    const subscriptions: Subscriptions.SubscriptionService
    const policy: Dispatch.RetryPolicy

    constructor (env: Env, outbox: PostgresOutboxStore, queue: PostgresEventQueue, deliveries: PostgresDeliveryStore,
                 subscriptions: Subscriptions.SubscriptionService, policy: Dispatch.RetryPolicy)
      ensures this.env == env && this.outbox == outbox && this.queue == queue && this.deliveries == deliveries
      ensures this.subscriptions == subscriptions && this.policy == policy
    {
      this.env, this.outbox, this.queue, this.deliveries := env, outbox, queue, deliveries;
      this.subscriptions, this.policy := subscriptions, policy;
    }

    /** The tables of the step system are the contents of the stores. */
    ghost predicate Shows(s: World)
      reads outbox, queue, deliveries
    {
      && s.outbox == outbox.rows && s.queue == queue.rows && s.nextSequence == queue.nextSequence
      && s.cursor == queue.cursor && s.deliveries == deliveries.rows
    }

    ghost predicate Runs(s: World, w: WorkerId) {
      w in s.workers && s.workers[w].owner == queue.owner
    }

    /** One relay pass: leases the oldest leasable rows, then enqueues and marks them one by one. Afterwards exactly those
        rows are relayed and their events queued. Run alone it never loses a lease. */
    method RelayRunOnce(ghost s: World, ghost w: WorkerId, now: int, leaseMs: int, limit: nat)
      returns (relayed: nat, ghost batch: seq<string>, ghost trace: seq<Action>)
      requires Shows(s) && Runs(s, w) && s.workers[w].pc.Idle? && OutboxOk(s.outbox)
      modifies outbox, queue
      ensures OldestLeasable(s.outbox, now, limit, batch) && relayed == |batch|
      ensures |trace| == 1 + 2 * relayed && trace[0].Lease? && trace[1..] == RelaySteps(w, now, relayed) && AllBy(trace, w)
      ensures ValidTrace(env, s, trace) && Shows(Run(env, s, trace))
      ensures Runs(Run(env, s, trace), w) && Run(env, s, trace).workers[w].pc.Idle?
      ensures BatchRelayed(s, Run(env, s, trace), now, batch)
    {
      var events;
      events, batch := LeaseEvents(s, w, now, leaseMs, limit);
      ghost var lease := Pipeline.Lease(w, now, leaseMs, events);
      ghost var rest := RelayLeased(Apply(env, s, lease), w, now, events);
      relayed := |events|;
      trace := [lease] + rest;
      assert trace[1..] == rest;
      LeasedThenRelayed(s, Apply(env, s, lease), Run(env, s, trace), w, now, leaseMs, batch, events);
      RelayStepsBy(w, now, relayed);
    }

    method LeaseEvents(ghost s: World, ghost w: WorkerId, now: int, leaseMs: int, limit: nat)
      returns (events: seq<Event>, ghost batch: seq<string>)
      requires Shows(s) && Runs(s, w) && s.workers[w].pc.Idle? && OutboxOk(s.outbox)
      modifies outbox
      ensures OldestLeasable(s.outbox, now, limit, batch) && IdsOf(events) == batch
      ensures Enabled(env, s, Pipeline.Lease(w, now, leaseMs, events))
      ensures var t := Apply(env, s, Pipeline.Lease(w, now, leaseMs, events));
        Shows(t) && Runs(t, w) && LeasedBatch(t, w, events) && LeasedOnly(s, t, s.workers[w].owner, now + leaseMs, batch)
    {
      var ids := outbox.Lease(queue.owner, now, leaseMs, limit);
      var rows := outbox.rows;
      events := seq(|ids|, i requires 0 <= i < |ids| && ids[i] in rows => rows[ids[i]].event);
      batch := ids;
      LeaseBatch(env, s, w, now, leaseMs, batch, events);
      LeasedState(env, s, w, now, leaseMs, batch, events);
    }

    method RelayLeased(ghost s: World, ghost w: WorkerId, now: int, events: seq<Event>)
      returns (ghost trace: seq<Action>)
      requires Shows(s) && Runs(s, w) && LeasedBatch(s, w, events)
      modifies outbox, queue
      ensures ValidTrace(env, s, trace) && Shows(Run(env, s, trace)) && trace == RelaySteps(w, now, |events|)
      ensures Runs(Run(env, s, trace), w) && Run(env, s, trace).workers[w].pc.Idle?
      ensures Run(env, s, trace) == AfterBatch(s, w, now, events)
    {
      ghost var t := s;
      var i := 0;
      while i < |events|
        invariant i <= |events| && Shows(t) && Runs(t, w) && LeasedBatch(t, w, events[i..])
        invariant AfterBatch(t, w, now, events[i..]) == AfterBatch(s, w, now, events)
      {
        assert events[i..][0] == events[i] && events[i..][1..] == events[i + 1..];
        BatchShrinks(t, w, now, events[i..]);
        var _ := queue.Enqueue(events[i]);
        var _ := outbox.MarkQueued(events[i].id, queue.owner, now);
        t := AfterHead(t, w, now, events[i..]);
        i := i + 1;
      }
      trace := RelayTrace(env, s, w, now, events);
    }

    /** Writes the delivery rows of one event; `fault` says after how many inserts the store throws. */
    method Fanout(ghost s: World, ghost w: WorkerId, event: Event, recipients: set<string>, now: int, fault: Option<nat>)
      returns (finished: bool, ghost trace: seq<Action>)
      requires Shows(s) && Runs(s, w) && s.workers[w].pc == Fanning(event, recipients, recipients)
      modifies deliveries
      ensures ValidTrace(env, s, trace) && Shows(Run(env, s, trace)) && CreatesBy(trace, w)
      ensures finished <==> fault.None? || |recipients| <= fault.value
      ensures FannedTo(s, Run(env, s, trace), w, event, recipients, finished)
    {
      trace := [];
      ghost var t := s;
      var todo, inserted := recipients, 0;
      while todo != {}
        invariant todo <= recipients && inserted + |todo| == |recipients|
        invariant ValidTrace(env, s, trace) && t == Run(env, s, trace) && Shows(t) && CreatesBy(trace, w)
        invariant t == Goto(s.(deliveries := t.deliveries), w, Fanning(event, recipients, todo))
        invariant fault.Some? ==> inserted <= fault.value
        decreases todo
      {
        if fault.Some? && inserted == fault.value {
          return false, trace;
        }
        var sub :| sub in todo;
        var _ := deliveries.Create(FreshDelivery(env.deliveryId(event.id, sub), event, sub, now));
        t := FanStep(env, s, t, w, event, recipients, todo, now, sub, trace);
        trace := trace + [Pipeline.Create(w, sub, now)];
        todo, inserted := todo - {sub}, inserted + 1;
      }
      finished := true;
    }

    method ClaimNext(ghost s: World, ghost w: WorkerId, now: int) returns (claimed: Option<Event>, ghost id: string)
      requires Shows(s) && Runs(s, w) && s.workers[w].pc.Idle?
      modifies queue
      ensures claimed.None? <==> NothingAvailable(s, now)
      ensures claimed.None? ==> Shows(s)
      ensures claimed.Some? ==> NextRow(s.queue, s.cursor, now, id) && claimed.value == s.queue[id].event
      ensures claimed.Some? ==> Shows(AfterClaim(env, s, w, now, queue.leaseMs, id))
    {
      id := "";
      claimed := queue.Dequeue(now);
      if claimed.Some? {
        id :| NextRow(s.queue, s.cursor, now, id) && claimed.value == s.queue[id].event
              && queue.rows == ClaimRow(s.queue, id, queue.owner, now + queue.leaseMs);
      }
    }

    /** One round of the dispatch loop: claims the fair choice, fans it out and commits; if anything on the way throws, the
        claim is released and the round has failed. */
    method ServeNext(ghost s: World, ghost w: WorkerId, subscribers: map<string, Subscriber>, now: int, fault: string -> Fault)
      returns (served: Option<bool>, ghost id: string, ghost trace: seq<Action>)
      requires Inv(env, s) && Shows(s) && Runs(s, w) && s.workers[w].pc.Idle? && s.subscribers == subscribers
      modifies queue, deliveries
      ensures ValidTrace(env, s, trace) && AllBy(trace, w) && Shows(Run(env, s, trace)) && Inv(env, Run(env, s, trace))
      ensures Runs(Run(env, s, trace), w) && Run(env, s, trace).workers[w].pc.Idle?
      ensures Run(env, s, trace).subscribers == subscribers && Run(env, s, trace).outbox == s.outbox
      ensures served.None? <==> NothingAvailable(s, now)
      ensures served.None? ==> trace == []
      ensures served.Some? ==> NextRow(s.queue, s.cursor, now, id)
      ensures served.Some? ==>
        (served == Some(true) <==> !Strikes(fault(s.queue[id].event.id), |Recipients(env, subscribers, s.queue[id].event)|))
      ensures served.Some? ==>
        RoundResult(env, s, Run(env, s, trace), id, served == Some(true), fault(s.queue[id].event.id))
      ensures served.Some? ==> trace != [] && trace[0] == Dequeue(w, now, queue.leaseMs, id)
      ensures Commits(trace) ==
        if served == Some(true) || (served.Some? && fault(s.queue[id].event.id) == CommitFails(true)) then 1 else 0
    {
      var claimed;
      claimed, id := ClaimNext(s, w, now);
      if claimed.None? {
        return None, id, [];
      }
      assert s.queue[id].event.id == id;
      var finished;
      finished, trace := ServeClaimed(s, w, id, subscribers, claimed.value, now, fault(claimed.value.id));
      ClosedIsResult(env, s, Run(env, s, trace), id, finished, fault(claimed.value.id));
      served := Some(finished);
    }

    /** Fans a claimed event out and closes its row: commit if everything went through, else release. */
    method ServeClaimed(ghost s: World, ghost w: WorkerId, ghost id: string, subscribers: map<string, Subscriber>,
                        event: Event, now: int, fault: Fault)
      returns (finished: bool, ghost trace: seq<Action>)
      requires Inv(env, s) && Runs(s, w) && s.workers[w].pc.Idle? && s.subscribers == subscribers
      requires id in s.queue && Available(s.queue[id], now) && event == s.queue[id].event
      requires Shows(AfterClaim(env, s, w, now, queue.leaseMs, id))
      modifies queue, deliveries
      ensures ValidTrace(env, s, trace) && AllBy(trace, w) && Shows(Run(env, s, trace)) && Inv(env, Run(env, s, trace))
      ensures Runs(Run(env, s, trace), w) && Run(env, s, trace).workers[w].pc.Idle?
      ensures Run(env, s, trace).subscribers == subscribers && Run(env, s, trace).outbox == s.outbox
      ensures finished <==> !Strikes(fault, |Recipients(env, subscribers, event)|)
      ensures ClosedRound(env, s, Run(env, s, trace), id, finished || fault == CommitFails(true))
      ensures Commits(trace) == if finished || fault == CommitFails(true) then 1 else 0
      ensures trace != [] && trace[0] == Dequeue(w, now, queue.leaseMs, id)
    {
      if fault.ReadFails? {
        finished := false;
        trace := GiveBack(s, w, id, event.id, now);
      } else {
        finished, trace := FanAndClose(s, w, id, subscribers, event, now, fault);
      }
    }

    method GiveBack(ghost s: World, ghost w: WorkerId, ghost id: string, eventId: string, now: int)
      returns (ghost trace: seq<Action>)
      requires Inv(env, s) && Runs(s, w) && s.workers[w].pc.Idle?
      requires id in s.queue && Available(s.queue[id], now) && eventId == s.queue[id].event.id
      requires Shows(AfterClaim(env, s, w, now, queue.leaseMs, id))
      modifies queue
      ensures ValidTrace(env, s, trace) && AllBy(trace, w) && Commits(trace) == 0
      ensures Shows(Run(env, s, trace)) && Inv(env, Run(env, s, trace)) && ClosedRound(env, s, Run(env, s, trace), id, false)
      ensures Runs(Run(env, s, trace), w) && Run(env, s, trace).workers[w].pc.Idle?
      ensures trace != [] && trace[0] == Dequeue(w, now, queue.leaseMs, id)
    {
      trace := UnreadTrace(env, s, w, now, queue.leaseMs, id);
      CloseAs(AfterClaim(env, s, w, now, queue.leaseMs, id), Run(env, s, trace), eventId, false, false);
    }

    method FanAndClose(ghost s: World, ghost w: WorkerId, ghost id: string, subscribers: map<string, Subscriber>,
                       event: Event, now: int, fault: Fault)
      returns (finished: bool, ghost trace: seq<Action>)
      requires Inv(env, s) && Runs(s, w) && s.workers[w].pc.Idle? && s.subscribers == subscribers && !fault.ReadFails?
      requires id in s.queue && Available(s.queue[id], now) && event == s.queue[id].event
      requires Shows(AfterClaim(env, s, w, now, queue.leaseMs, id))
      modifies queue, deliveries
      ensures finished <==> !Strikes(fault, |Recipients(env, subscribers, event)|)
      ensures ValidTrace(env, s, trace) && AllBy(trace, w)
      ensures Commits(trace) == if finished || fault == CommitFails(true) then 1 else 0
      ensures Shows(Run(env, s, trace)) && Inv(env, Run(env, s, trace))
      ensures ClosedRound(env, s, Run(env, s, trace), id, finished || fault == CommitFails(true))
      ensures Runs(Run(env, s, trace), w) && Run(env, s, trace).workers[w].pc.Idle?
      ensures trace != [] && trace[0] == Dequeue(w, now, queue.leaseMs, id)
    {
      ghost var claimed := AfterClaim(env, s, w, now, queue.leaseMs, id);
      var created;
      ghost var creates;
      created, creates := Fanout(claimed, w, event, Recipients(env, subscribers, event), now,
                                 if fault.InsertFails? then Some(fault.after) else None);
      var commits := created && (fault.CommitFails? ==> fault.applied);
      finished := created && !fault.CommitFails?;
      StruckIff(fault, |Recipients(env, subscribers, event)|, created);
      FannedWeaker(claimed, Run(env, claimed, creates), w, event, Recipients(env, subscribers, event), created, commits);
      trace := CloseTrace(env, s, w, now, queue.leaseMs, id, creates, commits, finished);
      CloseAs(Run(env, claimed, creates), Run(env, s, trace), event.id, commits, finished);
    }

    method CloseAs(ghost fanned: World, ghost t: World, id: string, commits: bool, finished: bool)
      requires (finished ==> commits) && Shows(fanned) && t == ClosedTables(fanned, t, id, queue.owner, commits, finished)
      modifies queue
      ensures Shows(t)
    {
      Close(id, commits, finished);
    }

    /** Commits, and releases when anything has thrown, even after a commit that was applied. */
    method Close(id: string, commits: bool, finished: bool)
      requires finished ==> commits
      modifies queue
      ensures queue.nextSequence == old(queue.nextSequence) && queue.cursor == old(queue.cursor)
      ensures queue.rows ==
        var kept := if commits then CommitRow(old(queue.rows), id, queue.owner) else old(queue.rows);
        if finished then kept else ReleaseRow(kept, id)
    {
      if commits {
        queue.Commit(id);
      }
      if !finished {
        queue.Release(id);
      }
    }

    /** Due deliveries are attempted: tenants are stamped as served, and every attempt saves what it makes of the record it
        was handed and disables the subscription if it must. Which ones are due is given; no other table changes. */
    method DispatchDue(ghost s: World, tenants: seq<string>, copies: seq<Delivery>, inputs: nat -> Dispatch.Inputs, now: int)
      returns (delivered: nat, ghost trace: seq<Action>)
      requires Shows(s) && s.subscribers == View(subscriptions.records)
      modifies queue`cursor, deliveries, subscriptions
      ensures delivered == |copies|
      ensures trace == Stamps(tenants, now) + AttemptSteps(old(subscriptions.records), copies, inputs, policy)
      ensures ValidTrace(env, s, trace) && Shows(Run(env, s, trace))
      ensures subscriptions.records == TableAfter(old(subscriptions.records), copies, inputs, policy)
      ensures var t := Run(env, s, trace);
        t == s.(cursor := t.cursor, deliveries := t.deliveries, subscribers := View(subscriptions.records))
    {
      ghost var table := subscriptions.records;
      trace := Stamps(tenants, now) + AttemptSteps(table, copies, inputs, policy);
      StampAll(tenants, now);
      AttemptAll(copies, inputs);
      ghost var start := StampTrace(env, s, tenants, now);
      AttemptsTrace(env, start, table, copies, inputs, policy);
      RunConcat(env, s, Stamps(tenants, now), AttemptSteps(table, copies, inputs, policy));
      delivered := |copies|;
    }

    method StampAll(tenants: seq<string>, now: int)
      modifies queue`cursor
      ensures queue.cursor == Stamped(old(queue.cursor), tenants, now)
    {
      ghost var before := queue.cursor;
      for i := 0 to |tenants|
        invariant queue.cursor == Stamped(before, tenants[..i], now)
      {
        assert tenants[..i + 1][..i] == tenants[..i];
        queue.cursor := queue.cursor[tenants[i] := now];
      }
      assert tenants[..|tenants|] == tenants;
    }

    method AttemptAll(copies: seq<Delivery>, inputs: nat -> Dispatch.Inputs)
      modifies deliveries, subscriptions
      ensures deliveries.rows == RowsAfter(old(deliveries.rows), old(subscriptions.records), copies, inputs, policy)
      ensures subscriptions.records == TableAfter(old(subscriptions.records), copies, inputs, policy)
    {
      ghost var rows, table := deliveries.rows, subscriptions.records;
      for i := 0 to |copies|
        invariant deliveries.rows == RowsAfter(rows, table, copies[..i], inputs, policy)
        invariant subscriptions.records == TableAfter(table, copies[..i], inputs, policy)
      {
        assert copies[..i + 1][..i] == copies[..i];
        AttemptOne(copies[i], inputs(i));
      }
      assert copies[..|copies|] == copies;
    }

    method AttemptOne(copy: Delivery, x: Dispatch.Inputs)
      modifies deliveries, subscriptions
      ensures deliveries.rows == SaveRow(old(deliveries.rows), Dispatch.Attempted(old(subscriptions.records), copy, x, policy).record)
      ensures subscriptions.records == TableThen(old(subscriptions.records), copy, x, policy)
    {
      var effect := Dispatch.Attempted(subscriptions.records, copy, x, policy);
      if effect.disables.Some? && x.reply.TransportError? {
        subscriptions.Disable(copy.subscriptionId, effect.disables.value);
      }
      deliveries.Save(effect.record);
      if effect.disables.Some? && x.reply.Response? {
        subscriptions.Disable(copy.subscriptionId, effect.disables.value);
      }
    }

    /** One pass: relays a batch, serves events until the batch is used up, the queue has nothing available or a round
        fails, and attempts the due deliveries. `clock` gives the reading each dequeue takes. */
    method Tick(ghost s: World, ghost w: WorkerId, now: int, relayLeaseMs: int, workerBatch: nat, relayEnabled: bool,
                dispatcherEnabled: bool, clock: nat -> int, fault: string -> Fault, tenants: seq<string>,
                copies: seq<Delivery>, inputs: nat -> Dispatch.Inputs)
      returns (relayed: nat, events: nat, delivered: nat, ghost batch: seq<string>, ghost relays: seq<Action>,
               ghost rounds: seq<seq<Action>>, ghost worlds: seq<World>, ghost last: seq<Action>, ghost due: seq<Action>)
      requires Inv(env, s) && Shows(s) && Runs(s, w) && s.workers[w].pc.Idle? && s.subscribers == View(subscriptions.records)
      modifies outbox, queue, deliveries, subscriptions
      ensures var trace := relays + (Joined(rounds) + last) + due;
        && ValidTrace(env, s, trace) && Shows(Run(env, s, trace)) && Inv(env, Run(env, s, trace))
        && Runs(Run(env, s, trace), w) && Run(env, s, trace).workers[w].pc.Idle?
      ensures ValidTrace(env, s, relays) && AllBy(relays + (Joined(rounds) + last), w)
      ensures relayed == |batch|
      ensures if relayEnabled then
          OldestLeasable(s.outbox, now, workerBatch, batch) && BatchRelayed(s, Run(env, s, relays), now, batch)
        else batch == [] && relays == []
      ensures events == |rounds| == Commits(Joined(rounds)) <= workerBatch
      ensures var c := Setting(w, queue.leaseMs, s.subscribers, fault);
        if dispatcherEnabled then
          && AllServed(env, c, clock, rounds, worlds) && worlds[0] == Run(env, s, relays)
          && Stops(env, c, worlds[events], clock, events, workerBatch, last)
        else rounds == [] && last == []
      ensures if dispatcherEnabled then
          && delivered == |copies|
          && due == Stamps(tenants, now) + AttemptSteps(old(subscriptions.records), copies, inputs, policy)
          && subscriptions.records == TableAfter(old(subscriptions.records), copies, inputs, policy)
        else delivered == 0 && due == [] && subscriptions.records == old(subscriptions.records)
      ensures Run(env, s, relays + (Joined(rounds) + last) + due).subscribers == View(subscriptions.records)
    {
      events, delivered, rounds, worlds, last, due := 0, 0, [], [], [], [];
      relayed, batch, relays := RelayIf(relayEnabled, s, w, now, relayLeaseMs, workerBatch);
      if dispatcherEnabled {
        events, rounds, worlds, last := ServeLoop(Run(env, s, relays), w, View(subscriptions.records), workerBatch, clock, fault);
        JoinedRuns(env, s, relays, Joined(rounds) + last, w);
        delivered, due := DispatchDue(Run(env, s, relays + (Joined(rounds) + last)), tenants, copies, inputs, now);
      } else {
        assert relays + (Joined([]) + []) == relays;
      }
      RunConcat(env, s, relays + (Joined(rounds) + last), due);
      RunInv(env, s, relays + (Joined(rounds) + last) + due);
    }

    method RelayIf(relayEnabled: bool, ghost s: World, ghost w: WorkerId, now: int, leaseMs: int, limit: nat)
      returns (relayed: nat, ghost batch: seq<string>, ghost relays: seq<Action>)
      requires Inv(env, s) && Shows(s) && Runs(s, w) && s.workers[w].pc.Idle?
      modifies outbox, queue
      ensures relayed == |batch|
      ensures ValidTrace(env, s, relays) && AllBy(relays, w)
      ensures if relayEnabled then OldestLeasable(s.outbox, now, limit, batch) && BatchRelayed(s, Run(env, s, relays), now, batch)
              else batch == [] && relays == []
      ensures Shows(Run(env, s, relays)) && Inv(env, Run(env, s, relays)) && Run(env, s, relays).subscribers == s.subscribers
      ensures Runs(Run(env, s, relays), w) && Run(env, s, relays).workers[w].pc.Idle?
    {
      relayed, batch, relays := 0, [], [];
      if relayEnabled {
        relayed, batch, relays := RelayRunOnce(s, w, now, leaseMs, limit);
        RunInv(env, s, relays);
      }
    }

    /** Serves events until the batch is used up, nothing is available or a round fails. */
    method ServeLoop(ghost s: World, ghost w: WorkerId, subscribers: map<string, Subscriber>, workerBatch: nat,
                     clock: nat -> int, fault: string -> Fault)
      returns (events: nat, ghost rounds: seq<seq<Action>>, ghost worlds: seq<World>, ghost last: seq<Action>)
      requires Inv(env, s) && Shows(s) && Runs(s, w) && s.workers[w].pc.Idle? && s.subscribers == subscribers
      modifies queue, deliveries
      ensures var work := Joined(rounds) + last;
        && ValidTrace(env, s, work) && AllBy(work, w) && Shows(Run(env, s, work)) && Inv(env, Run(env, s, work))
        && Runs(Run(env, s, work), w) && Run(env, s, work).workers[w].pc.Idle? && Run(env, s, work).subscribers == subscribers
      ensures events == |rounds| == Commits(Joined(rounds)) <= workerBatch
      ensures var c := Setting(w, queue.leaseMs, subscribers, fault);
        && AllServed(env, c, clock, rounds, worlds) && worlds[0] == s
        && Stops(env, c, worlds[events], clock, events, workerBatch, last)
    {
      ghost var c := Setting(w, queue.leaseMs, subscribers, fault);
      ghost var stop := s;
      events, rounds, worlds, last := 0, [], [s], [];
      while events < workerBatch
        invariant events == |rounds| == Commits(Joined(rounds)) <= workerBatch && AllBy(Joined(rounds), w)
        invariant ValidTrace(env, s, Joined(rounds)) && stop == Run(env, s, Joined(rounds)) && Shows(stop) && Inv(env, stop)
        invariant Runs(stop, w) && stop.workers[w].pc.Idle? && stop.subscribers == subscribers
        invariant AllServed(env, c, clock, rounds, worlds) && worlds[0] == s && worlds[events] == stop
      {
        var served, id, round := ServeNext(stop, w, subscribers, clock(events), fault);
        JoinedRuns(env, s, Joined(rounds), round, w);
        if served != Some(true) {
          last := round;
          return;
        }
        stop := Run(env, stop, round);
        ServedMore(env, c, clock, rounds, worlds, round, stop);
        rounds, worlds := rounds + [round], worlds + [stop];
        events := events + 1;
      }
      assert Joined(rounds) + [] == Joined(rounds);
    }
  }

  lemma ServedMore(env: Env, c: Setting, clock: nat -> int, rounds: seq<seq<Action>>, worlds: seq<World>, round: seq<Action>, t: World)
    requires AllServed(env, c, clock, rounds, worlds) && RoundOf(env, c, worlds[|rounds|], clock(|rounds|), round, true, t)
    ensures AllServed(env, c, clock, rounds + [round], worlds + [t])
    ensures Joined(rounds + [round]) == Joined(rounds) + round
  {
    var more, further := rounds + [round], worlds + [t];
    assert more[..|rounds|] == rounds;
    forall i | 0 <= i < |more|
      ensures RoundOf(env, c, further[i], clock(i), more[i], true, further[i + 1])
    {
      if i < |rounds| {
        assert more[i] == rounds[i] && further[i] == worlds[i] && further[i + 1] == worlds[i + 1];
      } else {
        assert more[i] == round && further[i] == worlds[|rounds|] && further[i + 1] == t;
      }
    }
  }

  // ----- traces of the dispatch rounds -----

  ghost function AfterClaim(env: Env, s: World, w: WorkerId, now: int, leaseMs: int, id: string): World
    requires IdleWorker(s, w) && id in s.queue && Available(s.queue[id], now)
  {
    var event := s.queue[id].event;
    var all := Recipients(env, s.subscribers, event);
    Goto(s.(queue := ClaimRow(s.queue, id, s.workers[w].owner, now + leaseMs),
            cursor := s.cursor[event.tenant := now]), w, Fanning(event, all, all))
  }

  lemma ClaimTrace(env: Env, s: World, w: WorkerId, now: int, leaseMs: int, id: string)
    requires IdleWorker(s, w) && id in s.queue && Available(s.queue[id], now)
    ensures ValidTrace(env, s, [Dequeue(w, now, leaseMs, id), ReadRecipients(w)])
    ensures Run(env, s, [Dequeue(w, now, leaseMs, id), ReadRecipients(w)]) == AfterClaim(env, s, w, now, leaseMs, id)
  {
    var claim := Dequeue(w, now, leaseMs, id);
    RunExtend(env, s, [], claim);
    RunExtend(env, s, [claim], ReadRecipients(w));
    assert [] + [claim] == [claim] && [claim] + [ReadRecipients(w)] == [claim, ReadRecipients(w)];
    var u := Apply(env, s, claim);
    var all := Recipients(env, s.subscribers, s.queue[id].event);
    var pc := Fanning(s.queue[id].event, all, all);
    assert u.workers[w := u.workers[w].(pc := pc)] == s.workers[w := s.workers[w].(pc := pc)];
  }

  /** One insert of a fan-out. */
  lemma FanStep(env: Env, s: World, t: World, w: WorkerId, event: Event, recipients: set<string>, todo: set<string>, now: int,
                sub: string, trace: seq<Action>)
    returns (next: World)
    requires w in s.workers && sub in todo && ValidTrace(env, s, trace) && t == Run(env, s, trace)
    requires t == Goto(s.(deliveries := t.deliveries), w, Fanning(event, recipients, todo))
    ensures ValidTrace(env, s, trace + [Create(w, sub, now)]) && next == Run(env, s, trace + [Create(w, sub, now)])
    ensures next == Goto(s.(deliveries := next.deliveries), w, Fanning(event, recipients, todo - {sub}))
    ensures next.deliveries == CreateRow(t.deliveries, FreshDelivery(env.deliveryId(event.id, sub), event, sub, now))
  {
    RunExtend(env, s, trace, Create(w, sub, now));
    next := Apply(env, t, Create(w, sub, now));
    assert t.workers[w].pc == Fanning(event, recipients, todo);
    CreateStep(env, t, w, now, sub);
    GotoTwice(s.(deliveries := t.deliveries), w, Fanning(event, recipients, todo), Fanning(event, recipients, todo - {sub}),
              next.deliveries);
  }

  /** A round whose recipients cannot be read: claim, then release. */
  lemma UnreadTrace(env: Env, s: World, w: WorkerId, now: int, leaseMs: int, id: string) returns (trace: seq<Action>)
    requires Inv(env, s) && IdleWorker(s, w) && id in s.queue && Available(s.queue[id], now)
    ensures ValidTrace(env, s, trace) && Inv(env, Run(env, s, trace)) && AllBy(trace, w) && Commits(trace) == 0
    ensures GivenBack(env, s, w, now, leaseMs, id, Run(env, s, trace))
    ensures trace != [] && trace[0] == Dequeue(w, now, leaseMs, id)
  {
    var claim := Dequeue(w, now, leaseMs, id);
    RunExtend(env, s, [], claim);
    assert [] + [claim] == [claim];
    RunExtend(env, s, [claim], Release(w));
    trace := [claim] + [Release(w)];
    RunInv(env, s, trace);
    UnreadActions(w, now, leaseMs, id);
    UnreadRows(env, s, w, now, leaseMs, id);
  }

  lemma UnreadActions(w: WorkerId, now: int, leaseMs: int, id: string)
    ensures var trace := [Dequeue(w, now, leaseMs, id)] + [Release(w)]; AllBy(trace, w) && Commits(trace) == 0
  {
    OneCommit(Dequeue(w, now, leaseMs, id));
    OneCommit(Release(w));
    CommitsConcat([Dequeue(w, now, leaseMs, id)], [Release(w)]);
  }

  /** The round is closed without a commit, and the tables are those of the claim after its release. */
  ghost predicate GivenBack(env: Env, s: World, w: WorkerId, now: int, leaseMs: int, id: string, t: World)
    requires IdleWorker(s, w) && id in s.queue && Available(s.queue[id], now)
  {
    && ClosedRound(env, s, t, id, false) && IdleWorker(t, w) && t.workers[w].owner == s.workers[w].owner
    && t == ClosedTables(AfterClaim(env, s, w, now, leaseMs, id), t, s.queue[id].event.id, s.workers[w].owner, false, false)
  }

  lemma UnreadRows(env: Env, s: World, w: WorkerId, now: int, leaseMs: int, id: string)
    requires QueueOk(s.queue, s.nextSequence) && IdleWorker(s, w) && id in s.queue && Available(s.queue[id], now)
    ensures var u := Apply(env, s, Dequeue(w, now, leaseMs, id));
      Enabled(env, u, Release(w)) && GivenBack(env, s, w, now, leaseMs, id, Apply(env, u, Release(w)))
  {
    ReleasedRows(env, s, Apply(env, s, Dequeue(w, now, leaseMs, id)), w, now, leaseMs, id);
  }

  lemma ReleasedRows(env: Env, s: World, u: World, w: WorkerId, now: int, leaseMs: int, id: string)
    requires QueueOk(s.queue, s.nextSequence) && IdleWorker(s, w) && id in s.queue && Available(s.queue[id], now)
    requires u == Goto(s.(queue := ClaimRow(s.queue, id, s.workers[w].owner, now + leaseMs),
                          cursor := s.cursor[s.queue[id].event.tenant := now]), w, Dequeued(s.queue[id].event))
    ensures Enabled(env, u, Release(w)) && GivenBack(env, s, w, now, leaseMs, id, Apply(env, u, Release(w)))
  {
    ClosedRows(s.queue, id, s.workers[w].owner, now + leaseMs);
  }

  lemma {:induction false} CreatesCommitNothing(trace: seq<Action>, w: WorkerId)
    requires CreatesBy(trace, w)
    ensures AllBy(trace, w) && Commits(trace) == 0
  {
    if trace != [] {
      CreatesCommitNothing(trace[..|trace| - 1], w);
    }
  }

  /** The end of a round: a commit, a commit whose report is lost and then a release, or a release. */
  function Closing(w: WorkerId, commits: bool, finished: bool): seq<Action> {
    if finished then [Commit(w, true)] else if commits then [Commit(w, false), Release(w)] else [Release(w)]
  }

  lemma ClosingRuns(env: Env, s: World, w: WorkerId, commits: bool, finished: bool)
    requires finished ==> commits
    requires Enabled(env, s, if commits then Commit(w, true) else Release(w))
    requires commits ==> s.workers[w].pc.event.id !in Apply(env, s, Commit(w, true)).queue
    ensures ValidTrace(env, s, Closing(w, commits, finished))
    ensures Run(env, s, Closing(w, commits, finished)) == Apply(env, s, if commits then Commit(w, true) else Release(w))
  {
    if commits && !finished {
      UnseenCommit(env, s, w);
    } else {
      SingleStep(env, s, if commits then Commit(w, true) else Release(w));
    }
  }

  lemma UnseenCommit(env: Env, s: World, w: WorkerId)
    requires Enabled(env, s, Commit(w, true)) && s.workers[w].pc.event.id !in Apply(env, s, Commit(w, true)).queue
    ensures ValidTrace(env, s, [Commit(w, false), Release(w)])
    ensures Run(env, s, [Commit(w, false), Release(w)]) == Apply(env, s, Commit(w, true))
  {
    var u := Apply(env, s, Commit(w, false));
    SingleStep(env, s, Commit(w, false));
    RunExtend(env, s, [Commit(w, false)], Release(w));
    assert [Commit(w, false)] + [Release(w)] == [Commit(w, false), Release(w)];
    assert u.workers[w := u.workers[w].(pc := Idle)] == s.workers[w := s.workers[w].(pc := Idle)];
  }

  lemma ClosingActions(w: WorkerId, commits: bool, finished: bool)
    requires finished ==> commits
    ensures AllBy(Closing(w, commits, finished), w) && Commits(Closing(w, commits, finished)) == if commits then 1 else 0
  {
    OneCommit(Commit(w, true));
    OneCommit(Commit(w, false));
    OneCommit(Release(w));
    CommitsConcat([Commit(w, false)], [Release(w)]);
    assert [Commit(w, false)] + [Release(w)] == [Commit(w, false), Release(w)];
  }

  /** Claim, inserts, and the closing commit or release joined into one trace. */
  lemma RoundTrace(env: Env, s: World, w: WorkerId, now: int, leaseMs: int, id: string, creates: seq<Action>, commits: bool,
                   finished: bool)
    returns (trace: seq<Action>)
    requires Inv(env, s) && IdleWorker(s, w) && id in s.queue && Available(s.queue[id], now) && (finished ==> commits)
    requires ValidTrace(env, AfterClaim(env, s, w, now, leaseMs, id), creates) && CreatesBy(creates, w)
    requires var s2 := AfterClaim(env, s, w, now, leaseMs, id);
      FannedTo(s2, Run(env, s2, creates), w, s.queue[id].event, Recipients(env, s.subscribers, s.queue[id].event), commits)
    ensures ValidTrace(env, s, trace) && Inv(env, Run(env, s, trace)) && AllBy(trace, w)
    ensures Commits(trace) == if commits then 1 else 0
    ensures var s3, t := Run(env, AfterClaim(env, s, w, now, leaseMs, id), creates), Run(env, s, trace);
      && ClosedRound(env, s, t, id, commits) && t.deliveries == s3.deliveries && t.nextSequence == s.nextSequence
      && t.cursor == s.cursor[s.queue[id].event.tenant := now]
      && IdleWorker(t, w) && t.workers[w].owner == s.workers[w].owner
    ensures trace != [] && trace[0] == Dequeue(w, now, leaseMs, id)
  {
    var claim := [Dequeue(w, now, leaseMs, id), ReadRecipients(w)];
    ClaimTrace(env, s, w, now, leaseMs, id);
    RunConcat(env, s, claim, creates);
    var s3 := Run(env, s, claim + creates);
    RoundRows(env, s, s3, w, now, leaseMs, id, commits);
    ClosingRuns(env, s3, w, commits, finished);
    RunConcat(env, s, claim + creates, Closing(w, commits, finished));
    trace := claim + creates + Closing(w, commits, finished);
    RunInv(env, s, trace);
    ClosingActions(w, commits, finished);
    RoundActions(w, now, leaseMs, id, creates, Closing(w, commits, finished));
  }

  lemma RoundActions(w: WorkerId, now: int, leaseMs: int, id: string, creates: seq<Action>, closing: seq<Action>)
    requires CreatesBy(creates, w) && AllBy(closing, w)
    ensures var trace := [Dequeue(w, now, leaseMs, id), ReadRecipients(w)] + creates + closing;
      AllBy(trace, w) && Commits(trace) == Commits(closing)
  {
    var claim := [Dequeue(w, now, leaseMs, id), ReadRecipients(w)];
    CreatesCommitNothing(creates, w);
    OneCommit(claim[0]);
    OneCommit(claim[1]);
    CommitsConcat([claim[0]], [claim[1]]);
    assert [claim[0]] + [claim[1]] == claim;
    CommitsConcat(claim, creates);
    CommitsConcat(claim + creates, closing);
  }

  /** Where a round leaves the queue and the history. */
  ghost predicate ClosedRound(env: Env, s: World, t: World, id: string, commits: bool)
    requires id in s.queue
  {
    && t.outbox == s.outbox && t.subscribers == s.subscribers
    && t.queue == (if commits then s.queue - {id} else s.queue[id := s.queue[id].(lease := None)])
    && t.completed == if commits then s.completed[id := Recipients(env, s.subscribers, s.queue[id].event)] else s.completed
  }

  function Closed(queue: map<string, QueueRow>, id: string, owner: Owner, commits: bool, finished: bool): map<string, QueueRow> {
    var kept := if commits then CommitRow(queue, id, owner) else queue;
    if finished then kept else ReleaseRow(kept, id)
  }

  /** The world t with the tables that closing leaves. */
  ghost function ClosedTables(fanned: World, t: World, id: string, owner: Owner, commits: bool, finished: bool): World {
    t.(outbox := fanned.outbox, queue := Closed(fanned.queue, id, owner, commits, finished),
       nextSequence := fanned.nextSequence, cursor := fanned.cursor, deliveries := fanned.deliveries)
  }

  lemma CloseTables(env: Env, s: World, w: WorkerId, now: int, leaseMs: int, id: string, creates: seq<Action>, fanned: World,
                    t: World, commits: bool, finished: bool)
    requires IdleWorker(s, w) && id in s.queue && Available(s.queue[id], now) && (finished ==> commits)
    requires s.queue[id].event.id == id && ClosedRound(env, s, t, id, commits)
    requires FannedTo(AfterClaim(env, s, w, now, leaseMs, id), fanned, w, s.queue[id].event,
                      Recipients(env, s.subscribers, s.queue[id].event), commits)
    requires t.deliveries == fanned.deliveries && t.nextSequence == s.nextSequence
    requires t.cursor == s.cursor[s.queue[id].event.tenant := now]
    ensures t == ClosedTables(fanned, t, s.queue[id].event.id, s.workers[w].owner, commits, finished)
  {
    FannedTables(AfterClaim(env, s, w, now, leaseMs, id), fanned, w, s.queue[id].event,
                 Recipients(env, s.subscribers, s.queue[id].event), commits);
    ClosedRows(s.queue, id, s.workers[w].owner, now + leaseMs);
  }

  /** The round's trace, and the tables it leaves in terms of those of the fan-out. */
  lemma CloseTrace(env: Env, s: World, w: WorkerId, now: int, leaseMs: int, id: string, creates: seq<Action>, commits: bool,
                   finished: bool)
    returns (trace: seq<Action>)
    requires Inv(env, s) && IdleWorker(s, w) && id in s.queue && Available(s.queue[id], now) && (finished ==> commits)
    requires ValidTrace(env, AfterClaim(env, s, w, now, leaseMs, id), creates) && CreatesBy(creates, w)
    requires var s2 := AfterClaim(env, s, w, now, leaseMs, id);
      FannedTo(s2, Run(env, s2, creates), w, s.queue[id].event, Recipients(env, s.subscribers, s.queue[id].event), commits)
    ensures ValidTrace(env, s, trace) && Inv(env, Run(env, s, trace)) && AllBy(trace, w)
    ensures Commits(trace) == (if commits then 1 else 0) && ClosedRound(env, s, Run(env, s, trace), id, commits)
    ensures IdleWorker(Run(env, s, trace), w) && Run(env, s, trace).workers[w].owner == s.workers[w].owner
    ensures Run(env, s, trace) ==
      ClosedTables(Run(env, AfterClaim(env, s, w, now, leaseMs, id), creates), Run(env, s, trace), s.queue[id].event.id,
                   s.workers[w].owner, commits, finished)
    ensures trace != [] && trace[0] == Dequeue(w, now, leaseMs, id)
  {
    trace := RoundTrace(env, s, w, now, leaseMs, id, creates, commits, finished);
    CloseTables(env, s, w, now, leaseMs, id, creates, Run(env, AfterClaim(env, s, w, now, leaseMs, id), creates),
                Run(env, s, trace), commits, finished);
  }

  lemma FannedWeaker(s: World, t: World, w: WorkerId, event: Event, recipients: set<string>, created: bool, commits: bool)
    requires w in s.workers && FannedTo(s, t, w, event, recipients, created) && (commits ==> created)
    ensures FannedTo(s, t, w, event, recipients, commits)
  {
  }

  lemma FannedTables(s: World, t: World, w: WorkerId, event: Event, recipients: set<string>, finished: bool)
    requires w in s.workers && FannedTo(s, t, w, event, recipients, finished)
    ensures t.outbox == s.outbox && t.queue == s.queue && t.nextSequence == s.nextSequence && t.cursor == s.cursor
  {
  }

  lemma ClosedIsResult(env: Env, s: World, t: World, id: string, finished: bool, fault: Fault)
    requires id in s.queue && Inv(env, t) && ClosedRound(env, s, t, id, finished || fault == CommitFails(true))
    ensures RoundResult(env, s, t, id, finished, fault)
  {
    if finished && DigestInjective(env) {
      CompletedIsFannedOut(env, t, id);
    }
  }

  /** Closing a claimed row, as a function of the queue before the claim. */
  lemma ClosedRows(queue: map<string, QueueRow>, id: string, owner: Owner, until: int)
    requires id in queue
    ensures var claimed := ClaimRow(queue, id, owner, until);
      && CommitRow(claimed, id, owner) == queue - {id} && ReleaseRow(queue - {id}, id) == queue - {id}
      && ReleaseRow(claimed, id) == queue[id := queue[id].(lease := None)]
  {
  }

  /** What the closing commit or release of an uninterrupted round does. */
  lemma RoundRows(env: Env, s: World, s3: World, w: WorkerId, now: int, leaseMs: int, id: string, commits: bool)
    requires QueueOk(s.queue, s.nextSequence) && IdleWorker(s, w) && id in s.queue && Available(s.queue[id], now)
    requires FannedTo(AfterClaim(env, s, w, now, leaseMs, id), s3, w, s.queue[id].event,
                      Recipients(env, s.subscribers, s.queue[id].event), commits)
    ensures var last := if commits then Commit(w, true) else Release(w);
      Enabled(env, s3, last) && var t := Apply(env, s3, last);
      && ClosedRound(env, s, t, id, commits) && t.deliveries == s3.deliveries && t.nextSequence == s.nextSequence
      && t.cursor == s.cursor[s.queue[id].event.tenant := now]
      && IdleWorker(t, w) && t.workers[w].owner == s.workers[w].owner && s3.workers[w].pc.event.id == id
  {
    var claimed := ClaimRow(s.queue, id, s.workers[w].owner, now + leaseMs);
    assert s3.queue == claimed && s3.workers[w].pc.event.id == id;
    assert CommitRow(claimed, id, s.workers[w].owner) == s.queue - {id};
    assert ReleaseRow(claimed, id) == s.queue[id := s.queue[id].(lease := None)];
  }

  // ----- traces of the relay -----

  /** The world after a worker has enqueued and marked the head of its batch. */
  ghost function AfterHead(t: World, w: WorkerId, now: int, rest: seq<Event>): World
    requires w in t.workers && rest != []
  {
    Goto(t.(queue := EnqueueRow(t.queue, t.nextSequence, rest[0]), nextSequence := t.nextSequence + 1,
            outbox := MarkRow(t.outbox, rest[0].id, t.workers[w].owner, now)),
         w, if |rest| > 1 then Relaying(rest[1..], false) else Idle)
  }

  ghost function AfterBatch(t: World, w: WorkerId, now: int, rest: seq<Event>): World
    requires w in t.workers
    decreases |rest|
  {
    if rest == [] then t else AfterBatch(AfterHead(t, w, now, rest), w, now, rest[1..])
  }

  /** The worker holds the lease of every event it has yet to relay. */
  ghost predicate LeasedBatch(t: World, w: WorkerId, rest: seq<Event>)
    requires w in t.workers
  {
    && t.workers[w].pc == (if rest == [] then Idle else Relaying(rest, false))
    && (forall i, j :: 0 <= i < j < |rest| ==> rest[i].id != rest[j].id)
    && forall i :: 0 <= i < |rest| ==> HoldsOutboxLease(t.outbox, rest[i].id, t.workers[w].owner)
  }

  lemma BatchShrinks(t: World, w: WorkerId, now: int, rest: seq<Event>)
    requires w in t.workers && rest != [] && LeasedBatch(t, w, rest)
    ensures LeasedBatch(AfterHead(t, w, now, rest), w, rest[1..])
    ensures AfterHead(t, w, now, rest).workers[w].owner == t.workers[w].owner
    ensures AfterHead(t, w, now, rest).subscribers == t.subscribers
  {
  }

  lemma HeadRelayed(env: Env, t: World, w: WorkerId, now: int, rest: seq<Event>)
    requires w in t.workers && rest != [] && LeasedBatch(t, w, rest)
    ensures ValidTrace(env, t, [EnqueueHead(w), MarkHead(w, now)])
    ensures Run(env, t, [EnqueueHead(w), MarkHead(w, now)]) == AfterHead(t, w, now, rest)
  {
    var u := Apply(env, t, EnqueueHead(w));
    assert u.workers[w].owner == t.workers[w].owner && u.workers[w].pc == Relaying(rest, true);
    var pc := if |rest| > 1 then Relaying(rest[1..], false) else Idle;
    assert u.workers[w := u.workers[w].(pc := pc)] == t.workers[w := t.workers[w].(pc := pc)];
    RunExtend(env, t, [], EnqueueHead(w));
    RunExtend(env, t, [EnqueueHead(w)], MarkHead(w, now));
    assert [] + [EnqueueHead(w)] == [EnqueueHead(w)];
    assert [EnqueueHead(w)] + [MarkHead(w, now)] == [EnqueueHead(w), MarkHead(w, now)];
  }

  function RelaySteps(w: WorkerId, now: int, n: nat): seq<Action> {
    if n == 0 then [] else [EnqueueHead(w), MarkHead(w, now)] + RelaySteps(w, now, n - 1)
  }

  lemma {:induction false} RelayStepsBy(w: WorkerId, now: int, n: nat)
    ensures |RelaySteps(w, now, n)| == 2 * n && AllBy(RelaySteps(w, now, n), w) && Commits(RelaySteps(w, now, n)) == 0
  {
    if n > 0 {
      RelayStepsBy(w, now, n - 1);
      CommitsConcat([EnqueueHead(w), MarkHead(w, now)], RelaySteps(w, now, n - 1));
      CommitsConcat([EnqueueHead(w)], [MarkHead(w, now)]);
      assert [EnqueueHead(w)] + [MarkHead(w, now)] == [EnqueueHead(w), MarkHead(w, now)];
      OneCommit(EnqueueHead(w));
      OneCommit(MarkHead(w, now));
    }
  }

  lemma OneCommit(a: Action)
    ensures Commits([a]) == if a.Commit? then 1 else 0
  {
    assert [a][..0] == [];
  }

  lemma {:induction false} RelayTrace(env: Env, s: World, w: WorkerId, now: int, events: seq<Event>)
    returns (trace: seq<Action>)
    requires w in s.workers && LeasedBatch(s, w, events)
    ensures trace == RelaySteps(w, now, |events|) && ValidTrace(env, s, trace)
    ensures Run(env, s, trace) == AfterBatch(s, w, now, events)
    ensures w in Run(env, s, trace).workers && Run(env, s, trace).workers[w] == Worker(s.workers[w].owner, Idle)
    decreases |events|
  {
    if events == [] {
      trace := [];
    } else {
      var head := [EnqueueHead(w), MarkHead(w, now)];
      HeadRelayed(env, s, w, now, events);
      BatchShrinks(s, w, now, events);
      var rest := RelayTrace(env, AfterHead(s, w, now, events), w, now, events[1..]);
      RunConcat(env, s, head, rest);
      trace := head + rest;
    }
  }

  function IdsOf(events: seq<Event>): (ids: seq<string>)
    ensures |ids| == |events| && forall i :: 0 <= i < |events| ==> ids[i] == events[i].id
  {
    seq(|events|, i requires 0 <= i < |events| => events[i].id)
  }

  lemma HeadIsRelayed(t: World, w: WorkerId, now: int, rest: seq<Event>)
    requires w in t.workers && rest != [] && LeasedBatch(t, w, rest)
    ensures BatchRelayed(t, AfterHead(t, w, now, rest), now, [rest[0].id])
  {
    assert HoldsOutboxLease(t.outbox, rest[0].id, t.workers[w].owner);
  }

  lemma BatchesJoin(s: World, t: World, u: World, now: int, id: string, batch: seq<string>)
    requires BatchRelayed(s, t, now, [id]) && BatchRelayed(t, u, now, batch) && id !in batch
    ensures BatchRelayed(s, u, now, [id] + batch)
  {
    assert forall x :: x in [id] + batch <==> x == id || x in batch;
    assert id in [id];
  }

  /** Relaying a leased batch marks exactly its rows and queues exactly its events. */
  lemma {:induction false} AfterBatchRelays(t: World, w: WorkerId, now: int, rest: seq<Event>)
    requires w in t.workers && LeasedBatch(t, w, rest)
    ensures BatchRelayed(t, AfterBatch(t, w, now, rest), now, IdsOf(rest))
    decreases |rest|
  {
    if rest != [] {
      var u := AfterHead(t, w, now, rest);
      BatchShrinks(t, w, now, rest);
      HeadIsRelayed(t, w, now, rest);
      AfterBatchRelays(u, w, now, rest[1..]);
      assert rest[0].id !in IdsOf(rest[1..]);
      BatchesJoin(t, u, AfterBatch(t, w, now, rest), now, rest[0].id, IdsOf(rest[1..]));
      assert IdsOf(rest) == [rest[0].id] + IdsOf(rest[1..]);
    }
  }

  /** The lease step stamps exactly the batch. */
  ghost predicate LeasedOnly(s: World, t: World, owner: Owner, until: int, batch: seq<string>) {
    && t.outbox == LeaseRows(s.outbox, (set id | id in batch), owner, until)
    && t.queue == s.queue && t.nextSequence == s.nextSequence && t.cursor == s.cursor && t.deliveries == s.deliveries
    && t.subscribers == s.subscribers && t.completed == s.completed
  }

  lemma LeasedThenRelayed(s: World, t: World, u: World, w: WorkerId, now: int, leaseMs: int, batch: seq<string>,
                          events: seq<Event>)
    requires w in s.workers && w in t.workers && LeasedBatch(t, w, events) && IdsOf(events) == batch
    requires LeasedOnly(s, t, s.workers[w].owner, now + leaseMs, batch) && u == AfterBatch(t, w, now, events)
    ensures BatchRelayed(s, u, now, batch)
  {
    AfterBatchRelays(t, w, now, events);
  }

  lemma LeaseBatch(env: Env, s: World, w: WorkerId, now: int, leaseMs: int, batch: seq<string>, events: seq<Event>)
    requires IdleWorker(s, w) && OutboxOk(s.outbox) && NoDuplicates(batch) && |events| == |batch|
    requires forall i :: 0 <= i < |batch| ==> batch[i] in s.outbox && events[i] == s.outbox[batch[i]].event
    requires forall id :: id in batch ==> Leasable(s.outbox[id], now)
    ensures Enabled(env, s, Lease(w, now, leaseMs, events))
    ensures Ids(events) == (set id | id in batch)
    ensures forall i :: 0 <= i < |events| ==> events[i].id == batch[i]
    ensures forall i :: 0 <= i < |events| ==>
      HoldsOutboxLease(Apply(env, s, Lease(w, now, leaseMs, events)).outbox, events[i].id, s.workers[w].owner)
  {
    forall id
      ensures id in Ids(events) <==> id in batch
    {
      if id in batch {
        var i :| 0 <= i < |batch| && batch[i] == id;
        assert events[i] in events && events[i].id == id;
      }
    }
  }

  /** Where the lease step leaves the tables and the worker. */
  lemma LeasedState(env: Env, s: World, w: WorkerId, now: int, leaseMs: int, batch: seq<string>, events: seq<Event>)
    requires IdleWorker(s, w) && Enabled(env, s, Lease(w, now, leaseMs, events)) && Ids(events) == (set id | id in batch)
    requires forall i :: 0 <= i < |events| ==>
      HoldsOutboxLease(Apply(env, s, Lease(w, now, leaseMs, events)).outbox, events[i].id, s.workers[w].owner)
    ensures var t := Apply(env, s, Lease(w, now, leaseMs, events));
      && LeasedOnly(s, t, s.workers[w].owner, now + leaseMs, batch) && w in t.workers
      && t.workers[w].owner == s.workers[w].owner && LeasedBatch(t, w, events)
  {
  }

  // ----- traces of due deliveries -----

  function Stamps(tenants: seq<string>, now: int): seq<Action> {
    if tenants == [] then [] else Stamps(tenants[..|tenants| - 1], now) + [Serve(tenants[|tenants| - 1], now)]
  }

  function Stamped(cursor: map<string, int>, tenants: seq<string>, now: int): map<string, int> {
    if tenants == [] then cursor else Stamped(cursor, tenants[..|tenants| - 1], now)[tenants[|tenants| - 1] := now]
  }

  /** What matching reads of the subscriptions. */
  function View(table: Subscriptions.Table): map<string, Subscriber> {
    map id | id in table :: Subscriber(table[id].tenantId, table[id].state.Active?)
  }

  /** The subscriptions after an attempt. */
  function TableThen(table: Subscriptions.Table, copy: Delivery, x: Dispatch.Inputs, policy: Dispatch.RetryPolicy): Subscriptions.Table {
    var effect := Dispatch.Attempted(table, copy, x, policy);
    if effect.disables.None? then table
    else Subscriptions.Execute(table, Subscriptions.Command.Disable(copy.subscriptionId, effect.disables.value))
  }

  function TableAfter(table: Subscriptions.Table, copies: seq<Delivery>, inputs: nat -> Dispatch.Inputs, policy: Dispatch.RetryPolicy)
    : Subscriptions.Table
  {
    if copies == [] then table
    else
      var n := |copies| - 1;
      TableThen(TableAfter(table, copies[..n], inputs, policy), copies[n], inputs(n), policy)
  }

  function RowsAfter(rows: map<string, Delivery>, table: Subscriptions.Table, copies: seq<Delivery>, inputs: nat -> Dispatch.Inputs,
                     policy: Dispatch.RetryPolicy): map<string, Delivery>
  {
    if copies == [] then rows
    else
      var n := |copies| - 1;
      SaveRow(RowsAfter(rows, table, copies[..n], inputs, policy),
              Dispatch.Attempted(TableAfter(table, copies[..n], inputs, policy), copies[n], inputs(n), policy).record)
  }

  /** The steps of an attempt: a refused destination disables the subscription before the record is saved, a response
      afterwards. */
  function AttemptStep(table: Subscriptions.Table, copy: Delivery, x: Dispatch.Inputs, policy: Dispatch.RetryPolicy): seq<Action> {
    var change := ChangeSubscribers(View(TableThen(table, copy, x, policy)));
    var save := SaveDelivery(Dispatch.Attempted(table, copy, x, policy).record);
    if x.reply.TransportError? then [change, save] else [save, change]
  }

  function AttemptSteps(table: Subscriptions.Table, copies: seq<Delivery>, inputs: nat -> Dispatch.Inputs, policy: Dispatch.RetryPolicy)
    : seq<Action>
  {
    if copies == [] then []
    else
      var n := |copies| - 1;
      AttemptSteps(table, copies[..n], inputs, policy)
      + AttemptStep(TableAfter(table, copies[..n], inputs, policy), copies[n], inputs(n), policy)
  }

  lemma {:induction false} StampTrace(env: Env, s: World, tenants: seq<string>, now: int) returns (t: World)
    ensures ValidTrace(env, s, Stamps(tenants, now)) && t == Run(env, s, Stamps(tenants, now))
    ensures t == s.(cursor := Stamped(s.cursor, tenants, now))
  {
    if tenants == [] {
      t := s;
    } else {
      var n := |tenants| - 1;
      var u := StampTrace(env, s, tenants[..n], now);
      RunExtend(env, s, Stamps(tenants[..n], now), Serve(tenants[n], now));
      t := Apply(env, u, Serve(tenants[n], now));
    }
  }

  lemma TwoSteps(env: Env, s: World, a: Action, b: Action)
    requires (a.ChangeSubscribers? && b.SaveDelivery?) || (a.SaveDelivery? && b.ChangeSubscribers?)
    ensures ValidTrace(env, s, [a, b]) && Run(env, s, [a, b]) == Apply(env, Apply(env, s, a), b)
  {
    RunExtend(env, s, [], a);
    RunExtend(env, s, [a], b);
    assert [] + [a] == [a] && [a] + [b] == [a, b];
  }

  lemma AttemptRuns(env: Env, s: World, table: Subscriptions.Table, copy: Delivery, x: Dispatch.Inputs, policy: Dispatch.RetryPolicy)
    ensures ValidTrace(env, s, AttemptStep(table, copy, x, policy))
    ensures Run(env, s, AttemptStep(table, copy, x, policy))
      == s.(deliveries := SaveRow(s.deliveries, Dispatch.Attempted(table, copy, x, policy).record),
            subscribers := View(TableThen(table, copy, x, policy)))
  {
    var change := ChangeSubscribers(View(TableThen(table, copy, x, policy)));
    var save := SaveDelivery(Dispatch.Attempted(table, copy, x, policy).record);
    TwoSteps(env, s, change, save);
    TwoSteps(env, s, save, change);
  }

  lemma {:induction false} AttemptsTrace(env: Env, s: World, table: Subscriptions.Table, copies: seq<Delivery>,
                                         inputs: nat -> Dispatch.Inputs, policy: Dispatch.RetryPolicy)
    requires s.subscribers == View(table)
    ensures ValidTrace(env, s, AttemptSteps(table, copies, inputs, policy))
    ensures Run(env, s, AttemptSteps(table, copies, inputs, policy))
      == s.(deliveries := RowsAfter(s.deliveries, table, copies, inputs, policy),
            subscribers := View(TableAfter(table, copies, inputs, policy)))
  {
    if copies != [] {
      var n := |copies| - 1;
      var before := AttemptSteps(table, copies[..n], inputs, policy);
      var now := TableAfter(table, copies[..n], inputs, policy);
      AttemptsTrace(env, s, table, copies[..n], inputs, policy);
      AttemptRuns(env, Run(env, s, before), now, copies[n], inputs(n), policy);
      RunConcat(env, s, before, AttemptStep(now, copies[n], inputs(n), policy));
    }
  }
}
