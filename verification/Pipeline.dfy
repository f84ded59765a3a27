/** The production webhook pipeline as an interleaved step system.

    The tables are maps, one step is the row-level effect of one SQL statement (or of one
    transaction), and any number of worker processes interleave. A worker's program counter
    says how far its `tick` has come; a crash may reset it between any two steps. */
module Pipeline {
  import opened Records

  type Owner = string
  type WorkerId = nat

  // ----- tables -----

  datatype OutboxState = Pending | Leased(owner: Owner, until: int) | Relayed(at: int)
  datatype OutboxRow = OutboxRow(event: Event, createdAt: int, state: OutboxState)

  datatype QueueLease = QueueLease(owner: Owner, until: int)
  datatype QueueRow = QueueRow(event: Event, sequence: nat, lease: Option<QueueLease>)

  /** What matching reads of a subscription. */
  datatype Subscriber = Subscriber(tenant: string, active: bool)

  /** Parts of the code that stay abstract: the delivery id digest and the event filter. */
  datatype Env = Env(deliveryId: (string, string) -> string, matches: (Event, string) -> bool)

  ghost predicate Injective(digest: (string, string) -> string) {
    forall e, s, e', s' :: digest(e, s) == digest(e', s') ==> e == e' && s == s'
  }

  ghost predicate DigestInjective(env: Env) {
    Injective(env.deliveryId)
  }

  predicate SameUniqueKey(a: Event, b: Event) {
    a.tenant == b.tenant && a.resource == b.resource && a.revision == b.revision && a.kind == b.kind
  }

  predicate Duplicate(outbox: map<string, OutboxRow>, event: Event) {
    exists id :: id in outbox && SameUniqueKey(outbox[id].event, event)
  }

  /** INSERT ... ON CONFLICT (unique_key) DO NOTHING; a clash on the primary key alone is an error. */
  function AppendUnique(outbox: map<string, OutboxRow>, event: Event, now: int): map<string, OutboxRow> {
    if Duplicate(outbox, event) || event.id in outbox then outbox
    else outbox[event.id := OutboxRow(event, now, Pending)]
  }

  predicate Leasable(row: OutboxRow, now: int) {
    row.state.Pending? || (row.state.Leased? && row.state.until <= now)
  }

  function LeaseRows(outbox: map<string, OutboxRow>, ids: set<string>, owner: Owner, until: int)
    : map<string, OutboxRow>
  {
    map id | id in outbox :: if id in ids then outbox[id].(state := Leased(owner, until)) else outbox[id]
  }

  predicate HoldsOutboxLease(outbox: map<string, OutboxRow>, id: string, owner: Owner) {
    id in outbox && outbox[id].state.Leased? && outbox[id].state.owner == owner
  }

  /** UPDATE ... WHERE state = 'leased' AND lease_owner = owner; no row changes when the lease is lost. */
  function MarkRow(outbox: map<string, OutboxRow>, id: string, owner: Owner, now: int)
    : map<string, OutboxRow>
  {
    if HoldsOutboxLease(outbox, id, owner) then outbox[id := outbox[id].(state := Relayed(now))] else outbox
  }

  function EnqueueRow(queue: map<string, QueueRow>, sequence: nat, event: Event): map<string, QueueRow> {
    if event.id in queue then queue else queue[event.id := QueueRow(event, sequence, None)]
  }

  predicate Available(row: QueueRow, now: int) {
    row.lease.None? || row.lease.value.until <= now
  }

  function ClaimRow(queue: map<string, QueueRow>, id: string, owner: Owner, until: int)
    : map<string, QueueRow>
    requires id in queue
  {
    queue[id := queue[id].(lease := Some(QueueLease(owner, until)))]
  }

  /** DELETE ... WHERE event_id = id AND lease_owner = owner. */
  function CommitRow(queue: map<string, QueueRow>, id: string, owner: Owner): map<string, QueueRow> {
    if id in queue && queue[id].lease.Some? && queue[id].lease.value.owner == owner then queue - {id} else queue
  }

  /** UPDATE ... SET lease_owner = NULL WHERE event_id = id: the caller need not own the lease. */
  function ReleaseRow(queue: map<string, QueueRow>, id: string): map<string, QueueRow> {
    if id in queue then queue[id := queue[id].(lease := None)] else queue
  }

  /** INSERT ... ON CONFLICT (id) DO NOTHING. */
  function CreateRow(deliveries: map<string, Delivery>, record: Delivery): map<string, Delivery> {
    if record.id in deliveries then deliveries else deliveries[record.id := record]
  }

  /** UPDATE ... WHERE id: identity columns keep their stored values. */
  function SaveRow(deliveries: map<string, Delivery>, record: Delivery): map<string, Delivery> {
    if record.id !in deliveries then deliveries
    else deliveries[record.id := Revised(deliveries[record.id], record)]
  }

  /** A stored delivery after a save: what identifies it stays. */
  function Revised(stored: Delivery, record: Delivery): Delivery {
    record.(eventId := stored.eventId, subscriptionId := stored.subscriptionId, tenantId := stored.tenantId,
            createdAt := stored.createdAt)
  }

  function Recipients(env: Env, subscribers: map<string, Subscriber>, event: Event): set<string> {
    set s | s in subscribers && subscribers[s].active && subscribers[s].tenant == event.tenant
            && env.matches(event, s)
  }

  function Ids(batch: seq<Event>): set<string> {
    set e | e in batch :: e.id
  }

  // ----- workers and steps -----

  /** How far a worker has come. `Relaying` holds its leased batch and whether the head is already
      enqueued; `Fanning` holds the recipients read for the event and those still to be written; after
      a commit that took effect but threw, the worker is `Releasing` the event. */
  datatype Pc =
    | Idle
    | Relaying(batch: seq<Event>, enqueued: bool)
    | Dequeued(event: Event)
    | Fanning(event: Event, recipients: set<string>, todo: set<string>)
    | Releasing(event: Event)

  datatype Worker = Worker(owner: Owner, pc: Pc)

  /** `completed` is a history variable: the recipients of a fan-out that ran to its end. */
  datatype World = World(
    outbox: map<string, OutboxRow>,
    queue: map<string, QueueRow>,
    nextSequence: nat,
    cursor: map<string, int>,
    deliveries: map<string, Delivery>,
    subscribers: map<string, Subscriber>,
    completed: map<string, set<string>>,
    workers: map<WorkerId, Worker>)

  datatype Action =
    | Stage(event: Event, now: int)
    | Lease(w: WorkerId, now: int, leaseMs: int, batch: seq<Event>)
    | EnqueueHead(w: WorkerId)
    | MarkHead(w: WorkerId, now: int)
    | Dequeue(w: WorkerId, now: int, leaseMs: int, id: string)
    | ReadRecipients(w: WorkerId)
    | Create(w: WorkerId, subscription: string, now: int)
    | Commit(w: WorkerId, seen: bool)
    | Release(w: WorkerId)
    | Crash(w: WorkerId)
    | ChangeSubscribers(subscribers: map<string, Subscriber>)
    | Serve(tenant: string, now: int)
    | SaveDelivery(record: Delivery)

  function Goto(s: World, w: WorkerId, pc: Pc): World
    requires w in s.workers
  {
    s.(workers := s.workers[w := s.workers[w].(pc := pc)])
  }

  predicate Enabled(env: Env, s: World, a: Action) {
    match a
    case Stage(_, _) => true
    case Lease(w, now, _, batch) =>
      w in s.workers && s.workers[w].pc.Idle?
      && (forall i, j :: 0 <= i < j < |batch| ==> batch[i].id != batch[j].id)
      && forall e :: e in batch ==> e.id in s.outbox && s.outbox[e.id].event == e && Leasable(s.outbox[e.id], now)
    case EnqueueHead(w) =>
      w in s.workers && s.workers[w].pc.Relaying? && s.workers[w].pc.batch != [] && !s.workers[w].pc.enqueued
    case MarkHead(w, _) =>
      w in s.workers && s.workers[w].pc.Relaying? && s.workers[w].pc.batch != [] && s.workers[w].pc.enqueued
    case Dequeue(w, now, _, id) =>
      w in s.workers && s.workers[w].pc.Idle? && id in s.queue && Available(s.queue[id], now)
    case ReadRecipients(w) => w in s.workers && s.workers[w].pc.Dequeued?
    case Create(w, subscription, _) =>
      w in s.workers && s.workers[w].pc.Fanning? && subscription in s.workers[w].pc.todo
    case Commit(w, _) => w in s.workers && s.workers[w].pc.Fanning? && s.workers[w].pc.todo == {}
    case Release(w) => w in s.workers && (s.workers[w].pc.Dequeued? || s.workers[w].pc.Fanning? || s.workers[w].pc.Releasing?)
    case Crash(w) => w in s.workers
    case ChangeSubscribers(_) => true
    case Serve(_, _) => true
    case SaveDelivery(_) => true
  }

  function Apply(env: Env, s: World, a: Action): World
    requires Enabled(env, s, a)
  {
    match a
    case Stage(event, now) => s.(outbox := AppendUnique(s.outbox, event, now))
    case Lease(w, now, leaseMs, batch) =>
      Goto(s.(outbox := LeaseRows(s.outbox, Ids(batch), s.workers[w].owner, now + leaseMs)), w,
           if batch == [] then Idle else Relaying(batch, false))
    case EnqueueHead(w) =>
      var pc := s.workers[w].pc;
      Goto(s.(queue := EnqueueRow(s.queue, s.nextSequence, pc.batch[0]), nextSequence := s.nextSequence + 1),
           w, Relaying(pc.batch, true))
    case MarkHead(w, now) =>
      var pc := s.workers[w].pc;
      var id := pc.batch[0].id;
      var kept := HoldsOutboxLease(s.outbox, id, s.workers[w].owner);
      Goto(s.(outbox := MarkRow(s.outbox, id, s.workers[w].owner, now)), w,
           if kept && |pc.batch| > 1 then Relaying(pc.batch[1..], false) else Idle)
    case Dequeue(w, now, leaseMs, id) =>
      var event := s.queue[id].event;
      Goto(s.(queue := ClaimRow(s.queue, id, s.workers[w].owner, now + leaseMs),
              cursor := s.cursor[event.tenant := now]), w, Dequeued(event))
    case ReadRecipients(w) =>
      var event := s.workers[w].pc.event;
      var all := Recipients(env, s.subscribers, event);
      Goto(s, w, Fanning(event, all, all))
    case Create(w, subscription, now) =>
      var pc := s.workers[w].pc;
      var record := FreshDelivery(env.deliveryId(pc.event.id, subscription), pc.event, subscription, now);
      Goto(s.(deliveries := CreateRow(s.deliveries, record)), w, pc.(todo := pc.todo - {subscription}))
    case Commit(w, seen) =>
      var pc := s.workers[w].pc;
      Goto(s.(queue := CommitRow(s.queue, pc.event.id, s.workers[w].owner),
              completed := s.completed[pc.event.id := pc.recipients]), w, if seen then Idle else Releasing(pc.event))
    case Release(w) =>
      Goto(s.(queue := ReleaseRow(s.queue, s.workers[w].pc.event.id)), w, Idle)
    case Crash(w) => Goto(s, w, Idle)
    case ChangeSubscribers(subscribers) => s.(subscribers := subscribers)
    case Serve(tenant, now) => s.(cursor := s.cursor[tenant := now])
    case SaveDelivery(record) => s.(deliveries := SaveRow(s.deliveries, record))
  }

  predicate ValidTrace(env: Env, s: World, trace: seq<Action>)
    decreases |trace|
  {
    trace == [] || (Enabled(env, s, trace[0]) && ValidTrace(env, Apply(env, s, trace[0]), trace[1..]))
  }

  function Run(env: Env, s: World, trace: seq<Action>): World
    requires ValidTrace(env, s, trace)
    decreases |trace|
  {
    if trace == [] then s else Run(env, Apply(env, s, trace[0]), trace[1..])
  }

  ghost predicate Initial(s: World) {
    && s.outbox == map[] && s.queue == map[] && s.deliveries == map[] && s.completed == map[]
    && forall w :: w in s.workers ==> s.workers[w].pc.Idle?
  }

  // ----- the invariant -----

  /** The row that a fan-out of this event to this subscription finds or inserts is there. */
  predicate HasRow(env: Env, s: World, eventId: string, subscription: string) {
    env.deliveryId(eventId, subscription) in s.deliveries
  }

  /** It is there, and it is the pair's own. */
  predicate HasDelivery(env: Env, s: World, eventId: string, subscription: string) {
    var id := env.deliveryId(eventId, subscription);
    id in s.deliveries && s.deliveries[id].eventId == eventId && s.deliveries[id].subscriptionId == subscription
  }

  /** Queue rows and workers only ever hold events that the outbox still records. */
  predicate Known(s: World, event: Event) {
    event.id in s.outbox && s.outbox[event.id].event == event
  }

  predicate Secured(s: World, id: string) {
    id in s.queue || id in s.completed
  }

  /** Rows are keyed by their event id and no two rows share (tenant, resource, revision, type). */
  ghost predicate OutboxOk(outbox: map<string, OutboxRow>) {
    && (forall id :: id in outbox ==> outbox[id].event.id == id)
    && (forall a, b :: a in outbox && b in outbox && SameUniqueKey(outbox[a].event, outbox[b].event) ==> a == b)
  }

  ghost predicate QueueOk(queue: map<string, QueueRow>, nextSequence: nat) {
    && (forall id :: id in queue ==> queue[id].event.id == id && queue[id].sequence < nextSequence)
    && (forall a, b :: a in queue && b in queue && queue[a].sequence == queue[b].sequence ==> a == b)
  }

  ghost predicate QueueKnown(s: World) {
    forall id :: id in s.queue ==> Known(s, s.queue[id].event)
  }

  /** Every delivery row sits under the digest of its own event and subscription. */
  ghost predicate DeliveriesOk(env: Env, deliveries: map<string, Delivery>) {
    forall id :: id in deliveries ==>
      deliveries[id].id == id == env.deliveryId(deliveries[id].eventId, deliveries[id].subscriptionId)
  }

  ghost predicate NoneLost(s: World) {
    forall id :: id in s.outbox && s.outbox[id].state.Relayed? ==> Secured(s, id)
  }

  ghost predicate CompletedDelivered(env: Env, s: World) {
    forall id, sub :: id in s.completed && sub in s.completed[id] ==> HasRow(env, s, id, sub)
  }

  ghost predicate WorkerOk(env: Env, s: World, pc: Pc) {
    match pc
    case Idle => true
    case Relaying(batch, enqueued) =>
      batch != [] && (forall e :: e in batch ==> Known(s, e)) && (enqueued ==> Secured(s, batch[0].id))
    case Dequeued(event) => Known(s, event)
    case Fanning(event, recipients, todo) =>
      Known(s, event) && todo <= recipients
      && forall sub :: sub in recipients - todo ==> HasRow(env, s, event.id, sub)
    case Releasing(_) => true
  }

  ghost predicate WorkersOk(env: Env, s: World) {
    forall w :: w in s.workers ==> WorkerOk(env, s, s.workers[w].pc)
  }

  ghost predicate Inv(env: Env, s: World) {
    && OutboxOk(s.outbox)
    && QueueOk(s.queue, s.nextSequence)
    && QueueKnown(s)
    && DeliveriesOk(env, s.deliveries)
    && NoneLost(s)
    && CompletedDelivered(env, s)
    && WorkersOk(env, s)
  }

  /** What every step leaves intact for everyone else. */
  ghost predicate Monotone(env: Env, s: World, t: World) {
    && (forall e :: Known(s, e) ==> Known(t, e))
    && (forall id :: Secured(s, id) ==> Secured(t, id))
    && (forall id, sub :: HasRow(env, s, id, sub) ==> HasRow(env, t, id, sub))
  }

  lemma StepKnown(env: Env, s: World, a: Action, e: Event)
    requires OutboxOk(s.outbox) && Enabled(env, s, a) && Known(s, e)
    ensures Known(Apply(env, s, a), e)
  {
  }

  lemma StepSecured(env: Env, s: World, a: Action, id: string)
    requires Enabled(env, s, a) && Secured(s, id)
    ensures Secured(Apply(env, s, a), id)
  {
  }

  lemma StepHasRow(env: Env, s: World, a: Action, id: string, sub: string)
    requires Enabled(env, s, a) && HasRow(env, s, id, sub)
    ensures HasRow(env, Apply(env, s, a), id, sub)
  {
  }

  lemma StepMonotone(env: Env, s: World, a: Action)
    requires Inv(env, s) && Enabled(env, s, a)
    ensures Monotone(env, s, Apply(env, s, a))
  {
    var t := Apply(env, s, a);
    forall e | Known(s, e) ensures Known(t, e) { StepKnown(env, s, a, e); }
    forall id | Secured(s, id) ensures Secured(t, id) { StepSecured(env, s, a, id); }
    forall id, sub | HasRow(env, s, id, sub) ensures HasRow(env, t, id, sub) {
      StepHasRow(env, s, a, id, sub);
    }
  }

  // Row functions keep their tables well formed.

  lemma StageKeepsOutbox(outbox: map<string, OutboxRow>, event: Event, now: int)
    requires OutboxOk(outbox)
    ensures OutboxOk(AppendUnique(outbox, event, now))
  {
  }

  lemma SameEventsKeepOutbox(outbox: map<string, OutboxRow>, changed: map<string, OutboxRow>)
    requires OutboxOk(outbox) && changed.Keys == outbox.Keys
    requires forall id :: id in outbox ==> changed[id].event == outbox[id].event
    ensures OutboxOk(changed)
  {
    forall a, b | a in changed && b in changed && SameUniqueKey(changed[a].event, changed[b].event)
      ensures a == b
    {
      assert SameUniqueKey(outbox[a].event, outbox[b].event);
    }
  }

  lemma StepOutbox(env: Env, s: World, a: Action)
    requires OutboxOk(s.outbox) && Enabled(env, s, a)
    ensures OutboxOk(Apply(env, s, a).outbox)
  {
    if a.Stage? {
      StageKeepsOutbox(s.outbox, a.event, a.now);
    } else {
      SameEventsKeepOutbox(s.outbox, Apply(env, s, a).outbox);
    }
  }

  lemma EnqueueKeepsQueue(queue: map<string, QueueRow>, nextSequence: nat, event: Event)
    requires QueueOk(queue, nextSequence)
    ensures QueueOk(EnqueueRow(queue, nextSequence, event), nextSequence + 1)
  {
  }

  lemma SameRowsKeepQueue(queue: map<string, QueueRow>, changed: map<string, QueueRow>, nextSequence: nat)
    requires QueueOk(queue, nextSequence) && changed.Keys <= queue.Keys
    requires forall id :: id in changed ==>
      changed[id].event == queue[id].event && changed[id].sequence == queue[id].sequence
    ensures QueueOk(changed, nextSequence)
  {
  }

  lemma StepQueue(env: Env, s: World, a: Action)
    requires QueueOk(s.queue, s.nextSequence) && Enabled(env, s, a)
    ensures QueueOk(Apply(env, s, a).queue, Apply(env, s, a).nextSequence)
  {
    if a.EnqueueHead? {
      EnqueueKeepsQueue(s.queue, s.nextSequence, s.workers[a.w].pc.batch[0]);
    } else {
      SameRowsKeepQueue(s.queue, Apply(env, s, a).queue, s.nextSequence);
    }
  }

  lemma StepDeliveries(env: Env, s: World, a: Action)
    requires DeliveriesOk(env, s.deliveries) && Enabled(env, s, a)
    ensures DeliveriesOk(env, Apply(env, s, a).deliveries)
  {
  }

  lemma StepQueueKnown(env: Env, s: World, a: Action)
    requires Inv(env, s) && Enabled(env, s, a)
    ensures QueueKnown(Apply(env, s, a))
  {
    StepMonotone(env, s, a);
    if a.EnqueueHead? {
      assert WorkerOk(env, s, s.workers[a.w].pc);
    }
  }

  lemma StepNoneLost(env: Env, s: World, a: Action)
    requires Inv(env, s) && Enabled(env, s, a)
    ensures NoneLost(Apply(env, s, a))
  {
    StepMonotone(env, s, a);
    if a.MarkHead? {
      assert WorkerOk(env, s, s.workers[a.w].pc);
    }
  }

  lemma StepCompleted(env: Env, s: World, a: Action)
    requires Inv(env, s) && Enabled(env, s, a)
    ensures CompletedDelivered(env, Apply(env, s, a))
  {
    StepMonotone(env, s, a);
    if a.Commit? {
      assert WorkerOk(env, s, s.workers[a.w].pc);
    }
  }

  /** A worker's own step keeps its program counter's promise. */
  lemma StepActor(env: Env, s: World, a: Action, w: WorkerId)
    requires Inv(env, s) && Enabled(env, s, a) && w in s.workers
    requires Apply(env, s, a).workers[w].pc != s.workers[w].pc
    ensures WorkerOk(env, Apply(env, s, a), Apply(env, s, a).workers[w].pc)
  {
    StepMonotone(env, s, a);
    assert WorkerOk(env, s, s.workers[w].pc);
    var t := Apply(env, s, a);
    match a {
      case Create(_, subscription, now) =>
        var event := s.workers[w].pc.event;
        assert HasRow(env, t, event.id, subscription);
      case MarkHead(_, _) =>
        var batch := s.workers[w].pc.batch;
        assert forall e :: e in batch[1..] ==> e in batch;
      case _ =>
    }
  }

  lemma StepWorkers(env: Env, s: World, a: Action)
    requires Inv(env, s) && Enabled(env, s, a)
    ensures WorkersOk(env, Apply(env, s, a))
  {
    StepMonotone(env, s, a);
    var t := Apply(env, s, a);
    forall w | w in t.workers
      ensures WorkerOk(env, t, t.workers[w].pc)
    {
      if t.workers[w].pc != s.workers[w].pc {
        StepActor(env, s, a, w);
      } else {
        assert WorkerOk(env, s, s.workers[w].pc);
      }
    }
  }

  /** One step keeps the invariant, whichever worker takes it. */
  lemma StepInv(env: Env, s: World, a: Action)
    requires Inv(env, s) && Enabled(env, s, a)
    ensures Inv(env, Apply(env, s, a))
  {
    StepOutbox(env, s, a);
    StepQueue(env, s, a);
    StepQueueKnown(env, s, a);
    StepDeliveries(env, s, a);
    StepNoneLost(env, s, a);
    StepCompleted(env, s, a);
    StepWorkers(env, s, a);
  }

  // ----- runs -----

  lemma {:induction false} RunInv(env: Env, s: World, trace: seq<Action>)
    requires Inv(env, s) && ValidTrace(env, s, trace)
    ensures Inv(env, Run(env, s, trace))
    decreases |trace|
  {
    if trace != [] {
      StepInv(env, s, trace[0]);
      RunInv(env, Apply(env, s, trace[0]), trace[1..]);
    }
  }

  lemma {:induction false} RunMonotone(env: Env, s: World, trace: seq<Action>)
    requires Inv(env, s) && ValidTrace(env, s, trace)
    ensures Monotone(env, s, Run(env, s, trace))
    decreases |trace|
  {
    if trace != [] {
      StepInv(env, s, trace[0]);
      StepMonotone(env, s, trace[0]);
      RunMonotone(env, Apply(env, s, trace[0]), trace[1..]);
    }
  }

  /** Without collisions the row that is found is always the pair's own. */
  lemma OwnRow(env: Env, s: World, id: string, sub: string)
    requires DigestInjective(env) && DeliveriesOk(env, s.deliveries) && HasRow(env, s, id, sub)
    ensures HasDelivery(env, s, id, sub)
  {
  }

  predicate FullyFannedOut(env: Env, s: World, id: string) {
    id in s.completed && forall sub :: sub in s.completed[id] ==> HasDelivery(env, s, id, sub)
  }

  lemma CompletedIsFannedOut(env: Env, s: World, id: string)
    requires DigestInjective(env) && Inv(env, s) && id in s.completed
    ensures FullyFannedOut(env, s, id)
  {
    forall sub | sub in s.completed[id]
      ensures HasDelivery(env, s, id, sub)
    {
      OwnRow(env, s, id, sub);
    }
  }

  /** No event is lost: whatever the workers do and wherever they crash, a staged event keeps its
      outbox row, and once that row is marked relayed the event is still queued or every
      recipient of a finished fan-out has its delivery row. */
  lemma NoEventLost(env: Env, s: World, trace: seq<Action>, before: nat, id: string)
    requires DigestInjective(env) && Initial(s) && ValidTrace(env, s, trace) && before <= |trace|
    requires ValidTrace(env, s, trace[..before]) && id in Run(env, s, trace[..before]).outbox
    ensures id in Run(env, s, trace).outbox
    ensures Run(env, s, trace).outbox[id].state.Relayed? ==>
              id in Run(env, s, trace).queue || FullyFannedOut(env, Run(env, s, trace), id)
  {
    RunInv(env, s, trace);
    var middle := Run(env, s, trace[..before]);
    RunInv(env, s, trace[..before]);
    RunSplit(env, s, trace, before);
    RunMonotone(env, middle, trace[before..]);
    assert Known(middle, middle.outbox[id].event);
    if id in Run(env, s, trace).completed {
      CompletedIsFannedOut(env, Run(env, s, trace), id);
    }
  }

  lemma {:induction false} RunSplit(env: Env, s: World, trace: seq<Action>, k: nat)
    requires k <= |trace| && ValidTrace(env, s, trace)
    ensures ValidTrace(env, s, trace[..k])
    ensures ValidTrace(env, Run(env, s, trace[..k]), trace[k..])
    ensures Run(env, s, trace) == Run(env, Run(env, s, trace[..k]), trace[k..])
    decreases k
  {
    if k == 0 {
      assert trace[k..] == trace;
    } else {
      RunSplit(env, Apply(env, s, trace[0]), trace[1..], k - 1);
      assert trace[1..][..k - 1] == trace[..k][1..] && trace[1..][k - 1..] == trace[k..];
    }
  }

  lemma {:induction false} RunConcat(env: Env, s: World, a: seq<Action>, b: seq<Action>)
    requires ValidTrace(env, s, a) && ValidTrace(env, Run(env, s, a), b)
    ensures ValidTrace(env, s, a + b)
    ensures Run(env, s, a + b) == Run(env, Run(env, s, a), b)
    decreases |a|
  {
    if a == [] {
      assert a + b == b;
    } else {
      RunConcat(env, Apply(env, s, a[0]), a[1..], b);
      assert (a + b)[0] == a[0] && (a + b)[1..] == a[1..] + b;
    }
  }

  /** A queue row disappears only in the commit of a worker that has written every delivery row. */
  lemma DeletedOnlyAfterFanout(env: Env, s: World, a: Action, id: string)
    requires Inv(env, s) && Enabled(env, s, a)
    requires id in s.queue && id !in Apply(env, s, a).queue
    ensures a.Commit? && s.workers[a.w].pc.event.id == id
    ensures s.queue[id].lease.Some? && s.queue[id].lease.value.owner == s.workers[a.w].owner
    ensures forall sub :: sub in s.workers[a.w].pc.recipients ==> HasRow(env, s, id, sub)
    ensures Apply(env, s, a).completed == s.completed[id := s.workers[a.w].pc.recipients]
    ensures DigestInjective(env) ==> FullyFannedOut(env, Apply(env, s, a), id)
  {
    OnlyCommitDeletes(env, s, a, id);
    assert WorkerOk(env, s, s.workers[a.w].pc);
    if DigestInjective(env) {
      StepInv(env, s, a);
      CompletedIsFannedOut(env, Apply(env, s, a), id);
    }
  }

  lemma OnlyCommitDeletes(env: Env, s: World, a: Action, id: string)
    requires Enabled(env, s, a) && id in s.queue && id !in Apply(env, s, a).queue
    ensures a.Commit? && s.workers[a.w].pc.Fanning? && s.workers[a.w].pc.event.id == id
    ensures s.queue[id].lease.Some? && s.queue[id].lease.value.owner == s.workers[a.w].owner
  {
  }

  /** Over any run: a queue row that has gone has been fanned out completely. */
  lemma GoneMeansFannedOut(env: Env, s: World, trace: seq<Action>, before: nat, id: string)
    requires DigestInjective(env) && Initial(s) && ValidTrace(env, s, trace) && before <= |trace|
    requires ValidTrace(env, s, trace[..before]) && id in Run(env, s, trace[..before]).queue
    ensures id in Run(env, s, trace).queue || FullyFannedOut(env, Run(env, s, trace), id)
  {
    RunInv(env, s, trace);
    RunInv(env, s, trace[..before]);
    RunSplit(env, s, trace, before);
    RunMonotone(env, Run(env, s, trace[..before]), trace[before..]);
    assert Secured(Run(env, s, trace[..before]), id);
    if id in Run(env, s, trace).completed {
      CompletedIsFannedOut(env, Run(env, s, trace), id);
    }
  }

  lemma {:induction false} RunDeliveries(env: Env, s: World, trace: seq<Action>)
    requires DeliveriesOk(env, s.deliveries) && ValidTrace(env, s, trace)
    ensures DeliveriesOk(env, Run(env, s, trace).deliveries)
    decreases |trace|
  {
    if trace != [] {
      StepDeliveries(env, s, trace[0]);
      RunDeliveries(env, Apply(env, s, trace[0]), trace[1..]);
    }
  }

  /** After any run there is at most one delivery row per (event, subscription), even if the digest collides. */
  lemma OneRowPerPair(env: Env, s: World, trace: seq<Action>, a: string, b: string)
    requires Initial(s) && ValidTrace(env, s, trace)
    requires var rows := Run(env, s, trace).deliveries;
      a in rows && b in rows && rows[a].eventId == rows[b].eventId && rows[a].subscriptionId == rows[b].subscriptionId
    ensures a == b
  {
    RunDeliveries(env, s, trace);
    assert DeliveriesOk(env, Run(env, s, trace).deliveries);
  }

  predicate SavesRow(a: Action, id: string) {
    a.SaveDelivery? && a.record.id == id
  }

  /** Repeated relays, leases and fan-outs never touch an existing row: through any run without a dispatcher's save
      of it, the row stays as it is in every field, and even saves keep its identity. */
  lemma {:induction false} RepeatNeverResets(env: Env, s: World, trace: seq<Action>, id: string)
    requires ValidTrace(env, s, trace) && id in s.deliveries
    ensures id in Run(env, s, trace).deliveries
    ensures (forall i :: 0 <= i < |trace| ==> !SavesRow(trace[i], id)) ==>
      Run(env, s, trace).deliveries[id] == s.deliveries[id]
    ensures Run(env, s, trace).deliveries[id].eventId == s.deliveries[id].eventId
    ensures Run(env, s, trace).deliveries[id].subscriptionId == s.deliveries[id].subscriptionId
    decreases |trace|
  {
    if trace != [] {
      StepRow(env, s, trace[0], id);
      RepeatNeverResets(env, Apply(env, s, trace[0]), trace[1..], id);
      assert forall i :: 0 <= i < |trace[1..]| ==> trace[1..][i] == trace[i + 1];
    }
  }

  lemma StepRow(env: Env, s: World, a: Action, id: string)
    requires Enabled(env, s, a) && id in s.deliveries
    ensures id in Apply(env, s, a).deliveries
    ensures !SavesRow(a, id) ==> Apply(env, s, a).deliveries[id] == s.deliveries[id]
    ensures Apply(env, s, a).deliveries[id].eventId == s.deliveries[id].eventId
    ensures Apply(env, s, a).deliveries[id].subscriptionId == s.deliveries[id].subscriptionId
  {
  }

  /** Why the digest must be injective: when two pairs collide, the insert of the second is swallowed
      by the first one's row, and the fan-out goes on to commit without it. */
  lemma CollisionSwallowsDelivery(env: Env, s: World, w: WorkerId, sub: string, now: int, id: string, other: string)
    requires Inv(env, s) && Enabled(env, s, Create(w, sub, now)) && HasDelivery(env, s, id, other)
    requires env.deliveryId(id, other) == env.deliveryId(s.workers[w].pc.event.id, sub)
    requires id != s.workers[w].pc.event.id || other != sub
    ensures Apply(env, s, Create(w, sub, now)).deliveries == s.deliveries
    ensures !HasDelivery(env, Apply(env, s, Create(w, sub, now)), s.workers[w].pc.event.id, sub)
    ensures sub !in Apply(env, s, Create(w, sub, now)).workers[w].pc.todo
  {
  }

  predicate Inserts(env: Env, s: World, a: Action, id: string)
    requires Enabled(env, s, a)
  {
    id !in s.deliveries && id in Apply(env, s, a).deliveries
  }

  function Insertions(env: Env, s: World, trace: seq<Action>, id: string): nat
    requires ValidTrace(env, s, trace)
    decreases |trace|
  {
    if trace == [] then 0
    else (if Inserts(env, s, trace[0], id) then 1 else 0) + Insertions(env, Apply(env, s, trace[0]), trace[1..], id)
  }

  /** Over any run a delivery row is inserted exactly once if it exists at the end and not before,
      and never otherwise. */
  lemma {:induction false} InsertedOnce(env: Env, s: World, trace: seq<Action>, id: string)
    requires ValidTrace(env, s, trace)
    ensures id in s.deliveries ==> id in Run(env, s, trace).deliveries
    ensures Insertions(env, s, trace, id) ==
            if id !in s.deliveries && id in Run(env, s, trace).deliveries then 1 else 0
    decreases |trace|
  {
    if trace != [] {
      InsertedOnce(env, Apply(env, s, trace[0]), trace[1..], id);
    }
  }

  /** Only a fan-out step inserts, and what it inserts is fresh. */
  lemma InsertedFresh(env: Env, s: World, a: Action, id: string)
    requires Inv(env, s) && Enabled(env, s, a) && Inserts(env, s, a, id)
    ensures a.Create? && s.workers[a.w].pc.Fanning? && a.subscription in s.workers[a.w].pc.recipients
    ensures Apply(env, s, a).deliveries[id] ==
            FreshDelivery(id, s.workers[a.w].pc.event, a.subscription, a.now)
  {
    assert a.Create? ==> WorkerOk(env, s, s.workers[a.w].pc);
  }

  /** Mutual exclusion is not what keeps the queue safe. A row that is under an unexpired lease becomes available in
      exactly two ways: by the release of some worker that had claimed it, whoever holds the lease, or by a claim whose
      own lease is already over; with leases that end after they begin, by such a release only. */
  lemma LeaseLostIff(env: Env, s: World, a: Action, id: string, now: int)
    requires Enabled(env, s, a) && id in s.queue && !Available(s.queue[id], now)
    ensures id in Apply(env, s, a).queue && Available(Apply(env, s, a).queue[id], now) <==>
      || (a.Release? && s.workers[a.w].pc.event.id == id)
      || (a.Dequeue? && a.id == id && a.now + a.leaseMs <= now)
    ensures (a.Dequeue? ==> now <= a.now && 0 < a.leaseMs) ==>
      (id in Apply(env, s, a).queue && Available(Apply(env, s, a).queue[id], now) <==> a.Release? && s.workers[a.w].pc.event.id == id)
  {
    QueueAfter(env, s, a);
  }

  /** What one step does to the queue table. */
  lemma QueueAfter(env: Env, s: World, a: Action)
    requires Enabled(env, s, a)
    ensures Apply(env, s, a).queue ==
      match a
      case EnqueueHead(w) => EnqueueRow(s.queue, s.nextSequence, s.workers[w].pc.batch[0])
      case Dequeue(w, now, leaseMs, id) => ClaimRow(s.queue, id, s.workers[w].owner, now + leaseMs)
      case Commit(w, _) => CommitRow(s.queue, s.workers[w].pc.event.id, s.workers[w].owner)
      case Release(w) => ReleaseRow(s.queue, s.workers[w].pc.event.id)
      case _ => s.queue
  {
  }

  /** The releasing worker need not be the holder: with a lease of another worker on the row, its release is enabled, and
      any idle worker may then claim the row. */
  lemma ReleaseDropsForeignLease(env: Env, s: World, failing: WorkerId, other: WorkerId, now: int, leaseMs: int)
    requires Inv(env, s) && failing in s.workers && other in s.workers && failing != other
    requires s.workers[failing].pc.Dequeued? || s.workers[failing].pc.Fanning? || s.workers[failing].pc.Releasing?
    requires s.workers[other].pc.Idle?
    requires s.workers[failing].pc.event.id in s.queue
    ensures Enabled(env, s, Release(failing))
    ensures Enabled(env, Apply(env, s, Release(failing)),
                    Dequeue(other, now, leaseMs, s.workers[failing].pc.event.id))
  {
  }

  // ----- recovery: nothing is ever stuck -----

  ghost predicate LeasesExpired(s: World, now: int) {
    && (forall id :: id in s.queue ==> Available(s.queue[id], now))
    && (forall id :: id in s.outbox && !s.outbox[id].state.Relayed? ==> Leasable(s.outbox[id], now))
  }

  ghost predicate IdleWorker(s: World, w: WorkerId) {
    w in s.workers && s.workers[w].pc.Idle?
  }

  lemma CreateStep(env: Env, s: World, w: WorkerId, now: int, sub: string)
    requires w in s.workers && s.workers[w].pc.Fanning? && sub in s.workers[w].pc.todo
    ensures Apply(env, s, Create(w, sub, now)) ==
            Goto(s.(deliveries := Apply(env, s, Create(w, sub, now)).deliveries), w,
                 s.workers[w].pc.(todo := s.workers[w].pc.todo - {sub}))
  {
  }

  lemma GotoTwice(s: World, w: WorkerId, first: Pc, second: Pc, deliveries: map<string, Delivery>)
    requires w in s.workers
    ensures Goto(Goto(s, w, first).(deliveries := deliveries), w, second) == Goto(s.(deliveries := deliveries), w, second)
  {
    assert s.workers[w := s.workers[w].(pc := first)][w := s.workers[w].(pc := second)]
        == s.workers[w := s.workers[w].(pc := second)];
  }

  lemma {:induction false} CreateAll(env: Env, s: World, w: WorkerId, now: int) returns (trace: seq<Action>)
    requires w in s.workers && s.workers[w].pc.Fanning?
    ensures ValidTrace(env, s, trace)
    ensures Run(env, s, trace) == Goto(s.(deliveries := Run(env, s, trace).deliveries), w,
                                       s.workers[w].pc.(todo := {}))
    decreases s.workers[w].pc.todo
  {
    var pc := s.workers[w].pc;
    if pc.todo == {} {
      trace := [];
      assert s.workers[w := s.workers[w].(pc := pc)] == s.workers;
    } else {
      var sub :| sub in pc.todo;
      var a := Create(w, sub, now);
      CreateStep(env, s, w, now, sub);
      var s1 := Apply(env, s, a);
      var rest := CreateAll(env, s1, w, now);
      trace := [a] + rest;
      assert trace[1..] == rest;
      var final := Run(env, s1, rest).deliveries;
      GotoTwice(s.(deliveries := s1.deliveries), w, pc.(todo := pc.todo - {sub}), pc.(todo := {}), final);
    }
  }

  lemma RunExtend(env: Env, s: World, trace: seq<Action>, a: Action)
    requires ValidTrace(env, s, trace) && Enabled(env, Run(env, s, trace), a)
    ensures ValidTrace(env, s, trace + [a])
    ensures Run(env, s, trace + [a]) == Apply(env, Run(env, s, trace), a)
  {
    SingleStep(env, Run(env, s, trace), a);
    RunConcat(env, s, trace, [a]);
  }

  lemma SingleStep(env: Env, s: World, a: Action)
    requires Enabled(env, s, a)
    ensures ValidTrace(env, s, [a]) && Run(env, s, [a]) == Apply(env, s, a)
  {
    var one, t := [a], Apply(env, s, a);
    assert one[0] == a && one[1..] == [];
    assert ValidTrace(env, t, []) && Run(env, t, []) == t;
    assert ValidTrace(env, t, one[1..]) && Run(env, t, one[1..]) == t;
  }

  /** One worker running alone takes an available event through fan-out and commit. */
  lemma ServeOne(env: Env, s: World, w: WorkerId, now: int, leaseMs: int, id: string) returns (trace: seq<Action>)
    requires Inv(env, s) && IdleWorker(s, w)
    requires id in s.queue && Available(s.queue[id], now)
    ensures ValidTrace(env, s, trace)
    ensures var t := Run(env, s, trace);
      Inv(env, t) && IdleWorker(t, w) && t.outbox == s.outbox && t.queue == s.queue - {id} && t.subscribers == s.subscribers
      && t.completed == s.completed[id := Recipients(env, s.subscribers, s.queue[id].event)]
  {
    RunExtend(env, s, [], Dequeue(w, now, leaseMs, id));
    var s1 := Apply(env, s, Dequeue(w, now, leaseMs, id));
    RunExtend(env, s, [] + [Dequeue(w, now, leaseMs, id)], ReadRecipients(w));
    var s2 := Apply(env, s1, ReadRecipients(w));
    var head := [] + [Dequeue(w, now, leaseMs, id)] + [ReadRecipients(w)];
    var creates := CreateAll(env, s2, w, now);
    RunConcat(env, s, head, creates);
    trace := head + creates + [Commit(w, true)];
    RunExtend(env, s, head + creates, Commit(w, true));
    ServedState(env, s, s1, s2, Run(env, s2, creates), w, now, leaseMs, id);
    RunInv(env, s, trace);
    RunInv(env, s, head + creates);
  }

  lemma ServedState(env: Env, s: World, s1: World, s2: World, s3: World, w: WorkerId, now: int, leaseMs: int, id: string)
    requires QueueKnown(s) && QueueOk(s.queue, s.nextSequence) && IdleWorker(s, w)
    requires id in s.queue && Available(s.queue[id], now)
    requires s1 == Apply(env, s, Dequeue(w, now, leaseMs, id))
    requires s2 == Apply(env, s1, ReadRecipients(w))
    requires s3 == Goto(s2.(deliveries := s3.deliveries), w, s2.workers[w].pc.(todo := {}))
    ensures Enabled(env, s3, Commit(w, true))
    ensures var t := Apply(env, s3, Commit(w, true));
      IdleWorker(t, w) && t.outbox == s.outbox && t.queue == s.queue - {id} && t.subscribers == s.subscribers
      && t.completed == s.completed[id := Recipients(env, s.subscribers, s.queue[id].event)]
  {
    var t := Apply(env, s3, Commit(w, true));
    ReadyToCommit(env, s, s1, s2, w, now, leaseMs, id);
    assert s3.workers[w].pc.event == s.queue[id].event && s3.queue == s1.queue;
    assert t.queue == s.queue - {id};
  }

  lemma ReadyToCommit(env: Env, s: World, s1: World, s2: World, w: WorkerId, now: int, leaseMs: int, id: string)
    requires QueueKnown(s) && QueueOk(s.queue, s.nextSequence) && IdleWorker(s, w)
    requires id in s.queue && Available(s.queue[id], now)
    requires s1 == Apply(env, s, Dequeue(w, now, leaseMs, id))
    requires s2 == Apply(env, s1, ReadRecipients(w))
    ensures s2.queue == s1.queue && s2.outbox == s.outbox && s2.subscribers == s.subscribers && s2.completed == s.completed
    ensures s1.queue == s.queue[id := s.queue[id].(lease := Some(QueueLease(s.workers[w].owner, now + leaseMs)))]
    ensures w in s2.workers && s2.workers[w].owner == s.workers[w].owner
    ensures var r := Recipients(env, s.subscribers, s.queue[id].event);
      s2.workers[w].pc == Fanning(s.queue[id].event, r, r)
  {
  }

  lemma {:induction false} ServeAll(env: Env, s: World, w: WorkerId, now: int, leaseMs: int)
    returns (trace: seq<Action>)
    requires Inv(env, s) && IdleWorker(s, w) && LeasesExpired(s, now)
    ensures ValidTrace(env, s, trace)
    ensures var t := Run(env, s, trace);
      Inv(env, t) && t.outbox == s.outbox && t.queue == map[] && Served(env, s, t)
    decreases s.queue.Keys
  {
    if s.queue == map[] {
      trace := [];
    } else {
      var id :| id in s.queue;
      var first := ServeOne(env, s, w, now, leaseMs, id);
      var s1 := Run(env, s, first);
      var rest := ServeAll(env, s1, w, now, leaseMs);
      RunConcat(env, s, first, rest);
      trace := first + rest;
      ServedAll(env, s, s1, Run(env, s, trace), id);
    }
  }

  ghost predicate Served(env: Env, s: World, t: World) {
    && s.completed.Keys <= t.completed.Keys
    && (forall id :: id in s.queue ==>
          id in t.completed && t.completed[id] == Recipients(env, s.subscribers, s.queue[id].event))
    && forall id :: id in s.completed && id !in s.queue ==> t.completed[id] == s.completed[id]
  }

  lemma ServedAll(env: Env, s: World, s1: World, t: World, id: string)
    requires id in s.queue && s1.queue == s.queue - {id} && s1.subscribers == s.subscribers && Served(env, s1, t)
    requires s1.completed == s.completed[id := Recipients(env, s.subscribers, s.queue[id].event)]
    ensures Served(env, s, t)
  {
    forall other | other in s.queue
      ensures other in t.completed && t.completed[other] == Recipients(env, s.subscribers, s.queue[other].event)
    {
      assert other != id ==> other in s1.queue;
    }
  }

  function Unrelayed(s: World): set<string> {
    set id | id in s.outbox && !s.outbox[id].state.Relayed?
  }

  /** One worker running alone leases an outbox row, enqueues its event and marks the row. */
  lemma RelayOne(env: Env, s: World, w: WorkerId, now: int, leaseMs: int, id: string) returns (trace: seq<Action>)
    requires Inv(env, s) && IdleWorker(s, w) && LeasesExpired(s, now)
    requires id in Unrelayed(s)
    ensures ValidTrace(env, s, trace)
    ensures var t := Run(env, s, trace);
      Inv(env, t) && IdleWorker(t, w) && LeasesExpired(t, now)
      && t.outbox.Keys == s.outbox.Keys && Unrelayed(t) == Unrelayed(s) - {id}
      && t.completed == s.completed && t.subscribers == s.subscribers
  {
    var lease := Lease(w, now, leaseMs, [s.outbox[id].event]);
    RunExtend(env, s, [], lease);
    var s1 := Apply(env, s, lease);
    RunExtend(env, s, [] + [lease], EnqueueHead(w));
    var s2 := Apply(env, s1, EnqueueHead(w));
    trace := [] + [lease] + [EnqueueHead(w)] + [MarkHead(w, now)];
    RunExtend(env, s, [] + [lease] + [EnqueueHead(w)], MarkHead(w, now));
    RelayedState(env, s, s1, s2, w, now, leaseMs, id);
    RunInv(env, s, trace);
  }

  lemma RelayedState(env: Env, s: World, s1: World, s2: World, w: WorkerId, now: int, leaseMs: int, id: string)
    requires OutboxOk(s.outbox) && IdleWorker(s, w) && LeasesExpired(s, now) && id in Unrelayed(s)
    requires s1 == Apply(env, s, Lease(w, now, leaseMs, [s.outbox[id].event]))
    requires s2 == Apply(env, s1, EnqueueHead(w))
    ensures Enabled(env, s2, MarkHead(w, now))
    ensures var t := Apply(env, s2, MarkHead(w, now));
      IdleWorker(t, w) && LeasesExpired(t, now)
      && t.outbox.Keys == s.outbox.Keys && Unrelayed(t) == Unrelayed(s) - {id}
      && t.completed == s.completed && t.subscribers == s.subscribers
  {
    var event := s.outbox[id].event;
    var leased := s.outbox[id := s.outbox[id].(state := Leased(s.workers[w].owner, now + leaseMs))];
    LeaseSingle(s.outbox, event, s.workers[w].owner, now + leaseMs);
    assert s1.outbox == leased && s1.queue == s.queue;
    assert s1.workers[w] == Worker(s.workers[w].owner, Relaying([event], false));
    MarkedState(env, s, s2, w, now, id, leased[id].state.until);
  }

  lemma MarkedState(env: Env, s: World, s2: World, w: WorkerId, now: int, id: string, until: int)
    requires OutboxOk(s.outbox) && LeasesExpired(s, now) && id in Unrelayed(s)
    requires w in s2.workers && s2.workers[w].pc == Relaying([s.outbox[id].event], true)
    requires s2.outbox == s.outbox[id := s.outbox[id].(state := Leased(s2.workers[w].owner, until))]
    requires s2.completed == s.completed && s2.subscribers == s.subscribers
    requires exists sequence :: s2.queue == EnqueueRow(s.queue, sequence, s.outbox[id].event)
    ensures Enabled(env, s2, MarkHead(w, now))
    ensures var t := Apply(env, s2, MarkHead(w, now));
      IdleWorker(t, w) && LeasesExpired(t, now)
      && t.outbox.Keys == s.outbox.Keys && Unrelayed(t) == Unrelayed(s) - {id}
      && t.completed == s.completed && t.subscribers == s.subscribers
  {
    var t := Apply(env, s2, MarkHead(w, now));
    assert t.outbox == s.outbox[id := s.outbox[id].(state := Relayed(now))];
    assert t.queue == s2.queue;
  }

  lemma LeaseSingle(outbox: map<string, OutboxRow>, event: Event, owner: Owner, until: int)
    requires event.id in outbox
    ensures LeaseRows(outbox, Ids([event]), owner, until)
         == outbox[event.id := outbox[event.id].(state := Leased(owner, until))]
  {
    assert event in [event];
    assert Ids([event]) == {event.id};
  }

  lemma {:induction false} RelayAll(env: Env, s: World, w: WorkerId, now: int, leaseMs: int)
    returns (trace: seq<Action>)
    requires Inv(env, s) && IdleWorker(s, w) && LeasesExpired(s, now)
    ensures ValidTrace(env, s, trace)
    ensures var t := Run(env, s, trace);
      Inv(env, t) && IdleWorker(t, w) && LeasesExpired(t, now) && t.outbox.Keys == s.outbox.Keys && Unrelayed(t) == {}
      && t.completed == s.completed && t.subscribers == s.subscribers
    decreases Unrelayed(s)
  {
    if Unrelayed(s) == {} {
      trace := [];
    } else {
      var id :| id in Unrelayed(s);
      var first := RelayOne(env, s, w, now, leaseMs, id);
      var rest := RelayAll(env, Run(env, s, first), w, now, leaseMs);
      RunConcat(env, s, first, rest);
      trace := first + rest;
    }
  }

  /** Recovery: from every reachable state, once the outstanding leases have run out, one surviving
      worker can bring every staged event to a finished fan-out with all its delivery rows. */
  lemma Recovery(env: Env, s: World, w: WorkerId, now: int, leaseMs: int) returns (trace: seq<Action>)
    requires DigestInjective(env) && Inv(env, s) && w in s.workers && LeasesExpired(s, now)
    ensures ValidTrace(env, s, trace)
    ensures forall id :: id in s.outbox ==> FullyFannedOut(env, Run(env, s, trace), id)
  {
    StepInv(env, s, Crash(w));
    var s1 := Apply(env, s, Crash(w));
    var relays := RelayAll(env, s1, w, now, leaseMs);
    var s2 := Run(env, s1, relays);
    var serves := ServeAll(env, s2, w, now, leaseMs);
    RunConcat(env, s1, relays, serves);
    trace := [Crash(w)] + (relays + serves);
    assert trace[1..] == relays + serves;
    var t := Run(env, s, trace);
    forall id | id in s.outbox
      ensures FullyFannedOut(env, t, id)
    {
      assert id !in Unrelayed(s2);
      assert Secured(t, id);
      CompletedIsFannedOut(env, t, id);
    }
  }
}
