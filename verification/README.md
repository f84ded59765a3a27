# Verified models of the event pipeline, the point-in-time engine, quota, keys, configuration and research runs

The project models the stateful parts of the repository and proves what they keep over whole runs. Code that changes
state step by step is imperative here too: classes with the source's fields, loops with invariants, methods whose
contracts equate the new state with a function of the old one. What the source promises is then proved about those
functions, over every run, every interleaving or every input.

| module | models | main results |
| --- | --- | --- |
| `Pipeline` | outbox, queue, fan-out and delivery tables under any number of interleaved, crashing workers | no event is lost, a queue row goes only after its fan-out, one row per (event, subscription), recovery from every reachable state |
| `DigestCollisions` | the delivery id digest | no run loses an event exactly if the digest is injective |
| `PostgresStores` | the PostgreSQL outbox, queue and delivery tables | every method's effect is the row function of the step system |
| `ServiceTick` | one service tick: relay, serve, attempt | a tick is a trace of the step system that relays exactly the oldest batch, serves the fair choice round by round, and stops only at the first failed round, with nothing available, or with its batch used up |
| `ProductionDue` | `due` of the PostgreSQL delivery store | what each tenant gets, exactly when a waiting tenant is visited, leases exclude each other, bounded wait |
| `TenantStarvation` | runs of that `due` beside the event queue, which stamps the same cursor | exactly when a run passes a tenant over at every call, how many rivals that takes, and that it happens for any number of rounds |
| `LeasedAttempts` | dispatch passes of several processes under delivery leases | at most the maximum of attempts if each ends within its lease; no bound otherwise |
| `MemoryOutbox` | the in-memory outbox and producer | agrees with the table over every run in which event ids do not clash; a lease excludes others until it runs out |
| `FairQueue` | the in-memory tenant-fair queue | bounded wait, FIFO per tenant, each id accepted once |
| `DeliverySchedule` | the in-memory delivery store: create, save, prune, `due` | `due` is the unique round-robin schedule; tenants are at most one record apart |
| `Dispatch` | attempts, retries, replay | the delivery bound under stale copies, exactly when the counter counts every attempt, at most the maximum of atomic attempts, retry timing, silence after pause, disable or delete |
| `Subscriptions` | the subscription state machine and key rotation | deletion is absorbing, active means verified, exactly when a rotated key still verifies |
| `EventFeatures`, `ExposureFeatures`, `Observations` | the quantitative features | the sliding window equals a recount; no look-ahead; contradiction marks are exact, only grow, and when each one is stable; weights follow age |
| `RevisionLake` | ingest, as-of selection, current view, sync | selection is the unique maximum, the past is stable, the checkpoint is sound across any number of runs and crashes unless a page is cut short |
| `EventPanel` | sessions, assignment, overlap policies, windows, summary | conservation, exact overlap policies, monotone sessions |
| `Quota` | the fixed-window quota store | counters are the log's counts even across pruning, `remaining` is exact, at most twice the limit in any minute, which is reached |
| `EnvelopeKeys` | data keys created under a race, sealed secrets | agreement on data keys, exactly which instances open a sealed secret |
| `ConfigParser`, `ConfigShape`, `ConfigText` | the configuration file parser | exactly which written lines a file gives back, the round trip from file text, and exactly which files are accepted as what |
| `ResearchRun` | a research run, its budget, graders and cache | what `complete` means exactly, spending limits, no failing final check, what the cache may serve |
| `Credentials` | developer credentials | the key limit over histories, how rotation carries an expiry over |
| `Ranking`, `Distinct`, `Records`, `Strings` | orders, stable sorting, filters, lists without repetition, shared records, trimming | used by the others |

Hashes, message authentication, encryption, encodings, regular expressions, square roots, clocks and random draws are
parameters. What is assumed of them is written out where it is used: `Pipeline.DigestInjective`, `EnvelopeKeys.Sound`,
`ResearchRun.IsDigest`, `EventPanel.IsRoot`, and the `Fresh...` predicates for new identifiers. Times are integers,
confidences, costs and outcomes are real numbers.

## What the proofs say about the code

- The pipeline loses no event, over every run and whatever the subscriptions match, exactly if the delivery id digest is
  injective (`LossFreeIffInjective`). For any digest, a recipient is lost exactly where another pair with the same
  digest was there first (`LostIffTakenOver`); uniqueness of delivery rows does not depend on it.
- A lease on a queue row is lost before it ends exactly by a worker's release, whoever holds it (`LeaseLostIff`,
  `ReleaseDropsForeignLease`), also by one after a commit that took effect but threw: the queue is safe because fan-out
  is idempotent, not because leases exclude each other.
- The in-memory queue never hands out an event of the empty tenant id, because that id is falsy (`EmptyTenantStarves`,
  `DequeueKeepsFairIff`).
- The in-memory outbox overwrites a record when an event id repeats under a new unique key, where the table raises an
  error (`AppendMatchesTableIff`).
- The comment on the PostgreSQL delivery store (postgres.ts:240-244) promises that one tenant cannot starve the others.
  That fails, because the event queue stamps the same cursor table. A tenant is passed over by every call of a run
  exactly if, before each, the tenants ahead of it in turn ask for the whole batch (`StarvedIff`). If events of a tenant
  keep being dequeued between the calls, its turn stays last, and n - 1 other tenants with deliveries to take starve it
  for any number of rounds as soon as (n - 1) * max(1, ceil(limit / n)) >= limit (`SharedCursorStarves`): eleven tenants
  at the default batch of 100 (`AtDefaultBatch`). With fewer everyone who waits is visited (`FewAreAllVisited`), and
  without such dequeues no tenant waits longer than the tenants before it take (`ProductionDue.BoundedWait`).
- Unlike the in-memory store, the PostgreSQL one can return a short batch while deliveries are due (`FullBatchIff`,
  `ShortBatch`).
- `maximumAttempts` bounds the stored counter (`DeliveryBound`), but not the attempts: `save` does not check that the
  record is still the one that was loaded. A copy can be attempted and saved any number of times
  (`StaleCopiesUnbounded`), which happens when attempts outlast their delivery lease, since a pass works through its
  batch in sequence under one lease (`LateAttemptsUnbounded`). The counter grows by exactly the attempts if and only if
  every attempt is saved from a copy with the stored counter (`AttemptsAreCountedIff`), and then, as when every record
  is dealt with before its lease ends, there are at most the maximum (`CurrentAttemptsAtMost`, `TimelyAttemptsAtMost`).
- The delivery bound needs `maximumAttempts` to be at least one (`BoundNeedsOneAttempt`). Jitter may exceed
  `maximumDelayMs` by a quarter (`RetryDelayBounds`).
- A replaced signing key verifies only while the subscription is active, the overlap has not ended, and no further
  rotation or deletion is accepted (`RotationOverlap`); so a second rotation ends the first overlap at once.
- A sync that is cancelled inside a page moves the checkpoint past values that are not on file (`CancelledRunIsUnsound`
  is such a run). The page is covered all the same exactly when each of those values was on file or has a copy among the
  values that were reached (`MidPageCancellation`). Without such a cut the checkpoint stays sound (`LakeStaysSound`), in
  particular if no run is asked to stop inside a page (`LetThroughStaysSound`).
- Exposure features look ahead in their contradiction marks (`MarksLookAhead`): a mark is stable exactly when it is set
  already or no later row opposes its pair (`MarkStableIff`). Event features do not look ahead.
- A configuration block that mixes `- item` and `key:` lines is accepted as a list without its keys
  (`MixedBlockAccepted`, and `MixedBlocks` for exactly when), although the parser's comment says that anything outside
  the subset is rejected. An inline list entry that contains a comma is split even inside quotes (`ItemReadsBackIff`).
  The lines of a file are read as they were written exactly when no comment starts in one and none contains a line feed
  (`LinesReadBackIff`).
- A research run that retrieves too many sources goes on, because the retrieval loop swallows the budget error, but it
  never ends in a built result (`OvershootNeverBuilds`).
- The fallback to an instance's own data key after storing it is never taken (`ReloadAlwaysFinds`).

## Model

| member | source | states |
|---|---|---|
| Pipeline.StepInv | packages/events/src/production/service.ts:213-234 | every statement of every worker, in any interleaving and with a crash at any point, keeps: unique outbox keys, distinct queue sequence numbers, queue rows known to the outbox, delivery rows under their own digest, relayed events queued or fanned out, finished fan-outs with all their rows, and each worker's promise about what it has done so far |
| Pipeline.NoEventLost | packages/events/src/production/postgres.ts:452-476 | after any run from empty tables a staged event still has its outbox row, and if that row is relayed the event is still queued or every recipient of a finished fan-out has its delivery row |
| Pipeline.DeletedOnlyAfterFanout | packages/events/src/production/postgres.ts:586-592 | a queue row disappears only in a commit, by the lease owner, when every recipient read for that event has its delivery row |
| Pipeline.GoneMeansFannedOut | packages/events/src/production/service.ts:223-231 | after any run, an event that was queued at some point is still queued or fully fanned out |
| Pipeline.OneRowPerPair | packages/events/src/delivery.ts:163-187 | after any run from empty tables there is at most one delivery row per (event, subscription), even if the digest collides |
| Pipeline.RepeatNeverResets | packages/events/src/production/postgres.ts:254-277 | through any run without a dispatcher's save of it an existing delivery row stays as it is in every field, however often its event is leased, queued or fanned out again; even saves keep its event and subscription |
| Pipeline.InsertedOnce | packages/events/src/production/postgres.ts:254-277 | over any run a delivery row is inserted exactly once if it is there at the end and was not before, and otherwise never |
| Pipeline.InsertedFresh | packages/events/src/delivery.ts:166-185 | only a fan-out step inserts, for a recipient it read, and what it inserts is queued with no attempts |
| Pipeline.CollisionSwallowsDelivery | packages/events/src/delivery.ts:362-364 | if two pairs shared a delivery id the second insert would change nothing and the fan-out would go on without that recipient's row |
| Pipeline.ReleaseDropsForeignLease | packages/events/src/production/postgres.ts:594-600 | a failing worker's release, whatever it failed at, makes a row that it need not own available at once to any idle worker |
| Pipeline.LeaseLostIff | packages/events/src/production/postgres.ts:551-600 | a row under an unexpired lease becomes available exactly by the release of a worker that had claimed it, also one after a commit that took effect but threw, or by a claim whose own lease is already over; with leases that end after they begin exactly by such a release |
| DigestCollisions.LostIffTakenOver | packages/events/src/delivery.ts:362-364 | for any digest, a relayed event that has left the queue lacks a recipient exactly where another pair with the same digest has the row |
| DigestCollisions.LossFreeIffInjective | packages/events/src/delivery.ts:362-364 | no run under any subscriptions loses an event if and only if the digest is injective |
| Pipeline.Recovery | packages/events/src/production/service.ts:213-234 | from every reachable state, once outstanding leases have run out, one surviving worker has a run after which every staged event is fully fanned out |
| PostgresStores.PostgresOutboxStore.AppendUnique | packages/events/src/production/postgres.ts:435-450 | a repeated unique key inserts nothing and a repeated primary key under a new key is an error; otherwise exactly one pending row is added |
| PostgresStores.PostgresOutboxStore.Lease | packages/events/src/production/postgres.ts:452-465 | leases the oldest rows by (created_at, id) that are pending or expired, as many as the limit allows, and changes no other row |
| PostgresStores.PostgresOutboxStore.MarkQueued | packages/events/src/production/postgres.ts:467-476 | succeeds exactly for the current lease holder and otherwise changes nothing |
| PostgresStores.PostgresEventQueue.Enqueue | packages/events/src/production/postgres.ts:540-549 | inserts unless the event id is already queued, at the next sequence number |
| PostgresStores.PostgresEventQueue.Dequeue | packages/events/src/production/postgres.ts:551-584 | leases the oldest available row of the tenant served longest ago, ties to the tenant with the oldest row, stamps that tenant, and returns nothing exactly when no row is available |
| PostgresStores.PostgresEventQueue.Commit | packages/events/src/production/postgres.ts:586-592 | the row is gone afterwards exactly if it was absent or the caller held its lease, every other row stays, and a lost lease is not reported |
| PostgresStores.PostgresEventQueue.Release | packages/events/src/production/postgres.ts:594-600 | the row is available at any time afterwards whoever held its lease, keeps its event and place, and every other row stays |
| PostgresStores.PostgresDeliveryStore.Create | packages/events/src/production/postgres.ts:254-277 | inserts if and only if the id is absent and never changes an existing row |
| PostgresStores.PostgresDeliveryStore.Save | packages/events/src/production/postgres.ts:288-309 | an existing row takes over state, counters, times and last outcome and keeps event, subscription, tenant and creation time; no row is inserted and no other row changes |
| ServiceTick.WebhookService.RelayRunOnce | packages/events/src/queue.ts:49-56 | one relay pass is a trace of this worker, a lease and then an enqueue and a mark per row: the batch is the oldest leasable rows, and afterwards exactly those are relayed, with their events queued and all other rows as before |
| ServiceTick.WebhookService.ServeNext | packages/events/src/production/service.ts:223-231 | one dispatch round is a trace of this worker on the fair choice: it succeeds exactly when neither the read of the recipients, an insert, nor the commit throws; then the event is fanned out and its row gone, and otherwise the row is back without a lease unless only the report of its commit failed |
| ServiceTick.WebhookService.ServeLoop | packages/events/src/production/service.ts:222-231 | the rounds of a tick: each but the last claims the fair choice at its clock reading in the world the one before left, ends well and counts as one event; the loop ends with its batch used up, where nothing is available, or with one further round that fails |
| ServiceTick.WebhookService.Tick | packages/events/src/production/service.ts:213-234 | a whole tick is a trace of this worker that keeps the invariant, in three parts: the relay of exactly the oldest batch, the rounds of the dispatch loop with its stop, and the attempts of what is due; a switched-off half does nothing |
| ServiceTick.WebhookService.DispatchDue | packages/events/src/delivery.ts:209-214 | stamps the visited tenants and attempts the given records in order, each on the subscriptions that the attempts before it left; every outcome is saved, and the subscriptions to disable are disabled; that is a trace that changes nothing but cursor, delivery rows and subscriptions |
| ProductionDue.PostgresDeliveryStore.Due | packages/events/src/production/postgres.ts:311-357 | visits the waiting tenants by (served_at or zero, tenant) until the batch is full, takes from each the first rows by (next_attempt_at, id) up to max(1, ceil(limit / tenants)), leases what it takes and stamps whom it visits |
| ProductionDue.VisitedIff | packages/events/src/production/postgres.ts:325-327 | a tenant is visited exactly when those before it do not ask, each up to its share, for the whole batch |
| ProductionDue.VisitedInTurnIff | packages/events/src/production/postgres.ts:311-327 | a call visits a waiting tenant exactly when the tenants whose turn comes before its own leave room in the batch |
| ProductionDue.TenantPart | packages/events/src/production/postgres.ts:328-348 | a tenant's part of the batch is exactly the first rows of its list, as many as its share and what the tenants before it left allow |
| ProductionDue.FullBatchIff | packages/events/src/production/postgres.ts:325-348 | as many rows are taken as are due and the limit allows exactly when the tenants ask for the whole batch or none has more rows than its share |
| ProductionDue.LeaseExcludes | packages/events/src/production/postgres.ts:240-244 | over any run in which it is not saved or removed a leased delivery is in no other batch before its lease ends, and can be taken again exactly from then on |
| ProductionDue.BoundedWait | packages/events/src/production/postgres.ts:240-244 | the number of calls that pass over a tenant with a row to take is at most the number of tenants whose turn came before its own, if the clock moves on and no event of it is dequeued |
| TenantStarvation.StarvedIff | packages/events/src/production/postgres.ts:240-244 | a tenant that waits at every call of a run is passed over by all of them if and only if, before each, the tenants ahead of it in turn ask for the whole batch |
| TenantStarvation.SharedCursorStarves | packages/events/src/production/postgres.ts:311-357 | with n - 1 other tenants, any limit up to (n - 1) times the share, and fresh deliveries for everybody, there are any number of rounds, each a call, the save of what an attempt makes of every leased record, and a dequeue of the tenant's event, in which the tenant waits and is not visited |
| TenantStarvation.FewAreAllVisited | packages/events/src/production/postgres.ts:324-326 | with fewer tenants than that every call visits every tenant that waits |
| TenantStarvation.AtDefaultBatch | packages/events/src/production/config.ts:69-69 | at the default batch of 100 eleven tenants are enough for it, and ten are not |
| TenantStarvation.ShortBatch | packages/events/src/production/postgres.ts:324-348 | three due deliveries of one tenant and one of another give a batch of three under a limit of four |
| MemoryOutbox.InMemoryOutboxStore.AppendUnique | packages/events/src/outbox.ts:28-33 | accepts a key exactly once; an accepted event's record is written under its id |
| MemoryOutbox.InMemoryOutboxStore.Lease | packages/events/src/outbox.ts:35-51 | leases the oldest leasable records by (createdAt, id) up to the limit and changes no other record |
| MemoryOutbox.InMemoryOutboxStore.MarkQueued | packages/events/src/outbox.ts:53-62 | succeeds exactly for the current lease holder and otherwise changes nothing |
| MemoryOutbox.WebhookProducer.Stage | packages/events/src/outbox.ts:78-87 | stages a new key's event when enabled and does nothing when disabled |
| MemoryOutbox.AppendMatchesTableIff | packages/events/src/outbox.ts:28-33 | the in-memory insert equals the table's insert, and loses no remembered key's record, exactly when the event id is unused or the key is a repeat |
| MemoryOutbox.RunMatchesTable | packages/events/src/outbox.ts:28-62 | through any run in which no append overwrites a record the in-memory outbox holds exactly what the table would |
| MemoryOutbox.LeaseExcludes | packages/events/src/outbox.ts:35-51 | through any run of appends, leases and marks no batch leased before a lease runs out contains its record, and the lease stands, unless an append has overwritten the record |
| FairQueue.FairEventQueue.Enqueue | packages/events/src/queue.ts:16-24 | accepts exactly the unseen ids, appends to the tenant's queue and enters the tenant into the turn list once |
| FairQueue.FairEventQueue.Dequeue | packages/events/src/queue.ts:26-34 | hands out the head tenant's oldest event and moves the tenant to the end, or out when its queue is empty |
| FairQueue.DequeueKeepsFairIff | packages/events/src/queue.ts:26-34 | the turn list stays exactly the tenants with pending events if and only if the dequeue does not meet the empty tenant id |
| FairQueue.BoundedWait | packages/events/src/queue.ts:16-34 | a tenant at position k is next after exactly k dequeues, however enqueues interleave, and then hands out the event it waited with, or nothing if it is the empty tenant id |
| FairQueue.FairRun | packages/events/src/queue.ts:16-34 | through any run with named tenants the turn list stays exactly the tenants with pending events |
| FairQueue.TenantFifo | packages/events/src/queue.ts:16-34 | what a tenant was handed followed by what it has pending is what it had pending followed by what was accepted for it, over any run |
| FairQueue.AcceptedOnce | packages/events/src/queue.ts:17-18 | no id is accepted twice over any run, nor one seen before it |
| FairQueue.EmptyTenantStarves | packages/events/src/queue.ts:27-28 | events of the empty tenant id are accepted and never handed out |
| DeliverySchedule.InMemoryDeliveryStore.Create | packages/events/src/delivery.ts:46-51 | inserts if and only if the id is absent, then prunes |
| DeliverySchedule.InMemoryDeliveryStore.Save | packages/events/src/delivery.ts:58-61 | stores the record and prunes |
| DeliverySchedule.InMemoryDeliveryStore.Prune | packages/events/src/delivery.ts:102-110 | drops only completed records, least recently updated first, and only down to the limit |
| DeliverySchedule.InMemoryDeliveryStore.Due | packages/events/src/delivery.ts:63-89 | returns min(limit, number due) due records in the order of their turns: position in the own tenant's (nextAttemptAt, id) list, then tenant |
| DeliverySchedule.ScheduleUnique | packages/events/src/delivery.ts:80-88 | no other sequence satisfies that description, so the result does not depend on map order |
| DeliverySchedule.TenantPrefix | packages/events/src/delivery.ts:75-88 | each tenant contributes a prefix of its own sorted list |
| DeliverySchedule.AtMostOneBehind | packages/events/src/delivery.ts:80-88 | a tenant with a due record left out is at most one record behind any other |
| Dispatch.WebhookDispatcher.Attempt | packages/events/src/delivery.ts:243-313 | saves exactly the outcome of the state machine for the answer, and disables the subscription exactly for the listed statuses and for security errors |
| Dispatch.WebhookDispatcher.Replay | packages/events/src/delivery.ts:216-237 | re-queues a stored record of the own tenant for an allowed operator, keeps its attempt counter, and otherwise changes nothing |
| Dispatch.RetryDelayBounds | packages/events/src/delivery.ts:348-352 | the unhinted delay lies between three and five quarters of the capped exponential, at least one millisecond, with both ends reached |
| Dispatch.RetryDelayMonotone | packages/events/src/delivery.ts:348-352 | for one random draw the delay never decreases with the attempt |
| Dispatch.HintClamped | packages/events/src/delivery.ts:346-347 | helper: a Retry-After hint (section 10.2.3 of RFC 9110) is clamped to [0, maximumRetryAfterMs] and followed exactly inside it |
| Dispatch.NextAttemptNotBeforeNow | packages/events/src/delivery.ts:324-327 | helper: a scheduled retry never lies before the attempt |
| Dispatch.DeliveryBound | packages/events/src/delivery.ts:315-337 | under any interleaving of attempts and replays of possibly stale copies, attempts never exceed maximumAttempts plus replayCount, a scheduled retry has attempts left, and without replays the maximum holds |
| Dispatch.AttemptsAreCountedIff | packages/events/src/delivery.ts:243-245 | under any interleaving of loads, attempts and saves, and with attempts that are lost, a delivery that is not replayed was attempted exactly as often as its counter grew if and only if every attempt was saved, from a copy whose counter was the stored one; the counter never outgrows the attempts |
| Dispatch.CurrentAttemptsAtMost | packages/events/src/delivery.ts:324-335 | in such runs there are at most maximumAttempts attempts in all |
| Dispatch.StaleCopiesUnbounded | packages/events/src/production/postgres.ts:288-309 | a copy of a pending delivery can be attempted and saved any number of times without a replay, and the stored counter ends one above that of the copy |
| LeasedAttempts.TimelyAttemptsAtMost | packages/events/src/production/postgres.ts:240-244 | over any run of any number of processes in which no batch is taken after the lease of a record still held has ended, no attempt of the delivery is lost, and it is not replayed or removed, its counter counts its attempts and they are at most maximumAttempts |
| LeasedAttempts.LateAttemptsUnbounded | packages/events/src/production/postgres.ts:311-357 | when attempts outlast their lease any number of passes take and attempt the same delivery, all outcomes are saved, and the counter grows by one |
| Dispatch.AttemptedAtMost | packages/events/src/delivery.ts:243-286 | with atomic attempts, a delivery that no act replays is attempted at most maximumAttempts times in all, whatever else happens to it and its subscription |
| Dispatch.BoundNeedsOneAttempt | packages/events/src/delivery.ts:324-335 | helper: the bound holds after the first attempt of a fresh record exactly when maximumAttempts is positive |
| Dispatch.QuietUntilReactivated | packages/events/src/delivery.ts:249-251 | once a subscription is not active and is not re-activated, no later act of any run sends to it |
| Dispatch.InactiveOutcome | packages/events/src/delivery.ts:248-286 | helper: the next attempt on a pending delivery ends terminal if its subscription is paused, disabled or unverified, and is a retry or a dead letter if it is deleted |
| Dispatch.DeletedEndsInDeadLetter | packages/events/src/delivery.ts:324-331 | a delivery of a deleted subscription is attempted until its attempts are used up and then dead-letters |
| Dispatch.CounterIsExact | packages/events/src/delivery.ts:243-245 | with atomic attempts the stored counter is the number of attempts of the run |
| Subscriptions.SubscriptionService.Activate | packages/events/src/subscriptions.ts:210-220 | only an owned pending or paused subscription becomes active, and is then verified |
| Subscriptions.SubscriptionService.Rotate | packages/events/src/subscriptions.ts:250-271 | the new key becomes active, the replaced key stays as the only previous one until its overlap ends, and bad overlaps are refused |
| Subscriptions.SubscriptionService.Delete | packages/events/src/subscriptions.ts:273-281 | marks the record deleted and erases all key material |
| Subscriptions.SubscriptionService.Disable | packages/events/src/subscriptions.ts:236-248 | disables any record that exists and is not deleted, with a bounded reason |
| Subscriptions.BoundedReason | packages/events/src/subscriptions.ts:381-383 | a recorded reason has one to 120 plain characters, is cut only at the 120th, keeps every plain character in its place and replaces exactly the others |
| Subscriptions.BoundedReasonKeeps | packages/events/src/subscriptions.ts:381-383 | bounding keeps a reason whole exactly when it is fit already, so bounding twice changes nothing |
| Subscriptions.SubscriptionService.ReadSigningKeys | packages/events/src/subscriptions.ts:290-306 | gives keys only for an active subscription: the active one, and every previous one that has not expired |
| Subscriptions.HistoryKeepsTable | packages/events/src/subscriptions.ts:210-281 | after every history active means verified, at most one previous key is kept and it can expire, and exactly the deleted records have no key material |
| Subscriptions.DeletedForever | packages/events/src/subscriptions.ts:273-281 | no later history changes a deleted record in any field |
| Subscriptions.InactiveUntilActivated | packages/events/src/subscriptions.ts:210-248 | an inactive subscription stays inactive through every history without an activation of it |
| Subscriptions.RotationOverlap | packages/events/src/subscriptions.ts:290-306 | after a rotation and any further history the replaced key verifies exactly when the subscription is active, the overlap has not ended, and no accepted rotation or deletion of it came in between |
| Subscriptions.SecondRotationDropsOldest | packages/events/src/subscriptions.ts:261-263 | after two rotations the oldest key verifies nothing, whatever its overlap |
| Observations.VisiblePrefix | python/tnl_intelligence/src/tnl_intelligence/quant/features.py:21-25 | what is visible at an earlier bound is a prefix of what is visible later, and the rest became available after it |
| Observations.VisibleIgnoresInputOrder | python/tnl_intelligence/src/tnl_intelligence/quant/features.py:22-25 | without duplicate sort keys the input order does not matter |
| EventFeatures.Expire | python/tnl_intelligence/src/tnl_intelligence/quant/features.py:33-40 | after the pops the deque is exactly the earlier rows inside the window and every counter equals its recount |
| EventFeatures.Emit | python/tnl_intelligence/src/tnl_intelligence/quant/features.py:32-84 | one iteration appends the recounted row and leaves deque and counters equal to a recount for the next one |
| EventFeatures.BuildEventFeatures | python/tnl_intelligence/src/tnl_intelligence/quant/features.py:15-85 | the incremental pass returns exactly the rows that recounting the window for every row gives |
| EventFeatures.NoveltyRange | python/tnl_intelligence/src/tnl_intelligence/quant/features.py:63-63 | novelty lies in (0, 1] and is 1 exactly when nothing in the window relates to the row |
| EventFeatures.NoLookAhead | python/tnl_intelligence/src/tnl_intelligence/quant/features.py:21-25 | moving the bound later only appends rows, all of which became available after the earlier bound |
| EventFeatures.LateArrivalsChangeNothing | python/tnl_intelligence/src/tnl_intelligence/quant/features.py:32-85 | observations available after a bound, inserted anywhere, change no row at or before it even in a later computation |
| ExposureFeatures.BuildExposureFeatures | python/tnl_intelligence/src/tnl_intelligence/quant/features.py:88-147 | refuses a half-life that is not positive; otherwise returns one row per entity and mapping valid at arrival, each marked exactly when two rows of its pair claim different certain directions |
| ExposureFeatures.MarksOnlyGrow | python/tnl_intelligence/src/tnl_intelligence/quant/features.py:141-146 | moving the bound later keeps every earlier row in place and only adds marks |
| ExposureFeatures.MarksLookAhead | python/tnl_intelligence/src/tnl_intelligence/quant/features.py:141-146 | two observations with opposite directions: the first is unmarked at its own arrival and marked at the second's |
| ExposureFeatures.MarkStableIff | python/tnl_intelligence/src/tnl_intelligence/quant/features.py:141-146 | a row's mark is the same at both bounds exactly when it is set at the earlier one or no row arriving after that claims a direction differing from another certain claim on its pair |
| ExposureFeatures.WeightsFollowAge | python/tnl_intelligence/src/tnl_intelligence/quant/features.py:103-133 | for any decay that never grows with age, further down the table rows have faded no more and weigh no less for the same confidences; if age always tells, two rows have faded alike exactly when their observations arrived together |
| ExposureFeatures.WeightsFadeLater | python/tnl_intelligence/src/tnl_intelligence/quant/features.py:103-133 | for such a decay a later bound never makes an earlier row weigh more |
| ExposureFeatures.WeightsHalve | python/tnl_intelligence/src/tnl_intelligence/quant/features.py:106-107 | helper: with a decay that halves every half-life, moving the bound one half-life later halves the weight of every earlier row |
| RevisionLake.SelectFrom | python/tnl_intelligence/src/tnl_intelligence/quant/lake.py:171-180 | whatever the order of the files, the loop keeps per id the considered revision that outranks all others by (available_at, revision, revision_id) |
| RevisionLake.Select | python/tnl_intelligence/src/tnl_intelligence/quant/lake.py:164-181 | the returned rows are exactly that selection, once each, in arrival order |
| RevisionLake.SelectionUnique | python/tnl_intelligence/src/tnl_intelligence/quant/lake.py:178-180 | files and query determine the selection |
| RevisionLake.RevisionLake.Ingest | python/tnl_intelligence/src/tnl_intelligence/quant/lake.py:66-102 | returns exactly when no value collides; then every value reached is filed, the counts add up, the view is current and the checkpoint written; on a collision the values before it are filed and view and checkpoint are untouched |
| RevisionLake.RevisionLake.StoreOne | python/tnl_intelligence/src/tnl_intelligence/quant/lake.py:83-96 | files a new revision, counts a known one as duplicate, and reports changed content as a collision, never overwriting |
| RevisionLake.RevisionLake.WriteCurrentView | python/tnl_intelligence/src/tnl_intelligence/quant/lake.py:275-285 | the view is the unfiltered hindsight selection in id order |
| RevisionLake.FilesOnlyGrow | python/tnl_intelligence/src/tnl_intelligence/quant/lake.py:85-96 | stored revisions never change and every value ends up filed |
| RevisionLake.PastSelectionStable | python/tnl_intelligence/src/tnl_intelligence/quant/lake.py:164-181 | ingesting stored or later-available revisions leaves every as-of selection at the bound unchanged |
| RevisionLake.ReingestIsIdempotent | python/tnl_intelligence/src/tnl_intelligence/quant/lake.py:85-92 | re-ingesting what is stored changes no file |
| RevisionLake.Sync | python/tnl_intelligence/src/tnl_intelligence/quant/lake.py:104-139 | the page loop on a lake computes the run function: files, checkpoint, ending, counts of pages, received, added and duplicate values, and the first page that was cut short |
| RevisionLake.SyncedSound | python/tnl_intelligence/src/tnl_intelligence/quant/lake.py:104-139 | however a run ends, unless one of its pages was cut short, every page before the checkpoint it leaves is ingested, and after a finished run the page at it too |
| RevisionLake.PagesBounded | python/tnl_intelligence/src/tnl_intelligence/quant/lake.py:132-138 | a run reads at most one page more than there are cursors |
| RevisionLake.LakeStaysSound | python/tnl_intelligence/src/tnl_intelligence/quant/lake.py:104-139 | from an empty lake, after any number of finished, cancelled, collided and crashed runs, everything before the stored checkpoint is ingested, as long as no page was cut short |
| RevisionLake.LetThroughStaysSound | python/tnl_intelligence/src/tnl_intelligence/quant/lake.py:74-139 | so it is if no run is asked to stop inside a page, whatever crashes, collisions and stops between pages there are |
| RevisionLake.CheckpointAdvances | python/tnl_intelligence/src/tnl_intelligence/quant/lake.py:132-138 | following a fully ingested page's cursor keeps the checkpoint sound |
| RevisionLake.MidPageCancellation | python/tnl_intelligence/src/tnl_intelligence/quant/lake.py:78-80 | a page cut short is covered exactly when each value not reached was on file with its content or has a copy among the values reached |
| RevisionLake.CancelledRunIsUnsound | python/tnl_intelligence/src/tnl_intelligence/quant/lake.py:78-80 | a first run of two pages that is asked to stop before its first value leaves a checkpoint behind which that value is missing, whether the request stands, so that the run ends cancelled at the second page, or not, so that it finishes |
| EventPanel.SessionMonotone | python/tnl_intelligence/src/tnl_intelligence/quant/event_study.py:55-63 | the chosen session never moves back when the tradable time moves forward |
| EventPanel.FirstOpen | python/tnl_intelligence/src/tnl_intelligence/quant/event_study.py:56-63 | all sessions before the chosen one closed before the tradable time, and the chosen one did not |
| EventPanel.AssetsOfContents | python/tnl_intelligence/src/tnl_intelligence/quant/event_study.py:67-70 | the assets are the mapped ones, or the item's own when no entity is mapped, sorted and each once |
| EventPanel.AssignedExactly | python/tnl_intelligence/src/tnl_intelligence/quant/event_study.py:54-74 | an assignment is made exactly when its item is placed in that session and has that asset |
| EventPanel.FirstPassConserves | python/tnl_intelligence/src/tnl_intelligence/quant/event_study.py:54-74 | one exclusion per dropped observation and one assignment per asset of each other one, which has at least one |
| EventPanel.EmitAll | python/tnl_intelligence/src/tnl_intelligence/quant/event_study.py:75-86 | the counting and emitting passes yield exactly the policy's assignments in order and an exclusion for every other |
| EventPanel.PolicyGuard | python/tnl_intelligence/src/tnl_intelligence/quant/event_study.py:80-86 | the two guards hold back exactly what the policy says: nothing, all but the earliest of a key, or every key that is not alone |
| EventPanel.FirstRepresentsEveryKey | python/tnl_intelligence/src/tnl_intelligence/quant/event_study.py:83-86 | under `first` every (asset, session) is represented by exactly one assignment, its earliest |
| EventPanel.PoliciesNest | python/tnl_intelligence/src/tnl_intelligence/quant/event_study.py:80-86 | exclude emits within first, and first within keep |
| EventPanel.EmittedOrExcluded | python/tnl_intelligence/src/tnl_intelligence/quant/event_study.py:78-86 | every assignment is emitted or excluded, exactly once |
| EventPanel.WindowMembers | python/tnl_intelligence/src/tnl_intelligence/quant/event_study.py:87-115 | an assignment's rows are exactly those of the offsets in the window that fall on a session |
| EventPanel.BuildEventPanel | python/tnl_intelligence/src/tnl_intelligence/quant/event_study.py:37-141 | refuses negative parameters; otherwise returns the rows of the emitted assignments, all exclusions in order, and their counts, mean and interval, where the events counted are exactly the distinct items that were emitted |
| EventPanel.MeanWithin | python/tnl_intelligence/src/tnl_intelligence/quant/event_study.py:121-121 | the mean lies between any bounds on the abnormal outcomes |
| EventPanel.ErrorOfMean | python/tnl_intelligence/src/tnl_intelligence/quant/event_study.py:122-136 | the square of the standard error times n (n - 1) is the sum of squared deviations from the mean |
| EventPanel.WindowNotBeforeTradable | python/tnl_intelligence/src/tnl_intelligence/quant/event_study.py:55-91 | with ordered closing times a window row's session closes at or after the tradable time exactly for offsets from zero on |
| Quota.InMemoryQuotaStore.Consume | packages/gateway/src/quota.ts:13-69 | allows exactly when every scope has room in the log, names the first full scope otherwise, changes no counter on refusal, keeps the counters equal to the log's counts, and writes only logs whose every entry was decided on those before it |
| Quota.InMemoryQuotaStore.Prune | packages/gateway/src/quota.ts:71-75 | drops exactly the counters of ended windows and loses no current count |
| Quota.InMemoryQuotaStore.AdmitsAtMost | packages/gateway/src/quota.ts:13-69 | the store itself admits at most the limit in any window and at most twice the limit in any sixty seconds |
| Quota.CountRequest | packages/gateway/src/quota.ts:61-66 | counts the request once in every scope and returns the least room left |
| Quota.RemainingIsExact | packages/gateway/src/quota.ts:49-68 | of any repetitions of the request in the window precisely the first `remaining` succeed |
| Quota.WindowBound | packages/gateway/src/quota.ts:49-60 | no window admits more than the limit in force |
| Quota.AnyMinuteAtMostTwice | packages/gateway/src/quota.ts:14-60 | any span of sixty seconds admits at most twice the limit in every scope |
| Quota.TwiceIsReached | packages/gateway/src/quota.ts:14-60 | twice the limit is admitted within two ticks around the turn of any window |
| EnvelopeKeys.SplitUndoesJoinIff | packages/events/src/production/kms.ts:226-238 | splitting at dots undoes joining exactly when no part contains a dot |
| EnvelopeKeys.UnwrapUndoesWrap | packages/events/src/production/kms.ts:104-141 | a wrapped data key unwraps exactly where its KMS key is held |
| EnvelopeKeys.DecryptUndoesEncrypt | packages/events/src/production/kms.ts:219-257 | a sealed secret opens under the same data key and id, and not without the id |
| EnvelopeKeys.RunInv | packages/events/src/production/kms.ts:196-213 | in every interleaving of initializing, restarting instances stored keys never change and every data key in memory is what the table unwraps to |
| EnvelopeKeys.DataKeyAgreement | packages/events/src/production/kms.ts:196-213 | two instances that hold a data key under one id hold the same one |
| EnvelopeKeys.ReloadAlwaysFinds | packages/events/src/production/kms.ts:209-210 | the reload after saving always finds a row that unwraps |
| EnvelopeKeys.SealedOpensElsewhere | packages/events/src/production/kms.ts:219-257 | a secret sealed at any moment of a run by an instance that is then ready opens at the end at exactly the instances that picked its data key up, before or after the sealing, and were not restarted since |
| EnvelopeKeys.HasKeyIff | packages/events/src/production/kms.ts:196-213 | after any run an instance has a data key exactly when some load of a stored id it holds the KMS key of, or the reload of its own id, put it there and no restart came after it |
| EnvelopeKeys.PostgresWrappedKeyStore.Save | packages/events/src/production/kms.ts:171-177 | the first row of a key id stays |
| EnvelopeKeys.EnvelopeSecretProtector.Initialize | packages/events/src/production/kms.ts:196-213 | an uninterrupted initialize, first or repeated, is a trace of the step system; afterwards memory holds exactly what the stored rows unwrap to, the active data key among them |
| ConfigParser.ParseBlock | packages/events/src/production/config.ts:269-301 | the loop over the shared cursor computes the block function and stops where it stops |
| ConfigParser.ParseLines | packages/events/src/production/config.ts:262-266 | everything must be consumed, and a top-level list counts as empty |
| ConfigShape.DeeperMeansOpened | packages/events/src/production/config.ts:279-298 | inside an accepted block no line is shallower than the first and every deeper line is opened by a `key:` line before it |
| ConfigShape.MixedBlocks | packages/events/src/production/config.ts:282-300 | an accepted block is a list exactly when an item stands among its own lines, otherwise a mapping with exactly its own keys; keys are dropped exactly when both kinds occur |
| ConfigShape.MixedBlockAccepted | packages/events/src/production/config.ts:282-300 | a two-line block of a key and an item is accepted, as the list of the item, and as a whole file it is empty |
| ConfigShape.AcceptedIff | packages/events/src/production/config.ts:269-301 | a block is accepted exactly when each of its lines says something and is the first, stands below an opener, or continues a level that is still open |
| ConfigShape.DocumentAcceptedIff | packages/events/src/production/config.ts:262-266 | a whole file is accepted exactly when all its lines are placed like that |
| ConfigParser.ItemReadsBackIff | packages/events/src/production/config.ts:318-335 | a written scalar or inline list reads back as itself exactly when no list entry contains a comma |
| ConfigParser.ForestReadsBack | packages/events/src/production/config.ts:269-301 | wherever the lines of a rendered forest stand, the parser consumes exactly those and collects exactly its mapping |
| ConfigParser.DocumentRoundTrip | packages/events/src/production/config.ts:262-266 | a rendered document parses to exactly its own mapping and is consumed whole |
| ConfigParser.StripComment | packages/events/src/production/config.ts:303-316 | keeps the line up to the first `#` outside quotes that starts the line or follows a space |
| ConfigParser.StripIsIdempotent | packages/events/src/production/config.ts:303-316 | what is kept contains no comment of its own |
| ConfigText.ParseSimpleYaml | packages/events/src/production/config.ts:251-267 | splitting, stripping, trimming and numbering the lines and parsing them computes the document of the text |
| ConfigText.SplitUndoesJoin | packages/events/src/production/config.ts:253-253 | splitting at line ends undoes joining lines that contain none |
| ConfigText.LineReadsBackIff | packages/events/src/production/config.ts:253-261 | a written line is read back with its indent and text exactly when no comment starts in it |
| ConfigText.LinesReadBackIff | packages/events/src/production/config.ts:253-261 | the lines written to a file are read back with their indents and texts exactly when no comment starts in one and none contains a line feed |
| ConfigText.TextRoundTrip | packages/events/src/production/config.ts:251-267 | a tree written to a file parses back to exactly its own mapping, provided that no written line starts a comment or contains a line feed |
| ResearchRun.ResearchBudgetTracker.BeforeTool | packages/research/src/budget.ts:23-28 | refuses late or surplus calls, charges the others, and never charges past the limit |
| ResearchRun.ResearchBudgetTracker.Consume | packages/research/src/budget.ts:30-36 | adds first and checks afterwards, so an overshoot stays recorded, and names the first limit exceeded |
| ResearchRun.ValidateResearchResult | packages/research/src/contracts.ts:249-261 | accepts exactly the results with the schema version, valid ids, confidences in [0, 1] and references to present evidence |
| ResearchRun.ContractAlwaysHolds | packages/research/src/orchestrator.ts:161-185 | for any draft and any evidence the assembled result passes that check |
| ResearchRun.LinkEvidence | packages/research/src/orchestrator.ts:306-318 | records on the last item of each id exactly the links of the claims, in order |
| ResearchRun.LinksConserved | packages/research/src/orchestrator.ts:306-318 | linking adds exactly one tie per reference to existing evidence |
| ResearchRun.CitationIsRecorded | packages/research/src/orchestrator.ts:276-318 | every reference that survives normalization is visible on an evidence item |
| ResearchRun.CitationsPassIff | packages/research/src/graders.ts:28-41 | the citation grader passes exactly when every material fact keeps some support |
| ResearchRun.SafetyPassesIff | packages/research/src/graders.ts:80-95 | the safety grader passes exactly when no claim is supported by flagged evidence and no trade instruction is given |
| ResearchRun.Research | packages/research/src/orchestrator.ts:87-224 | the run with its mutable tracker, trace, loops and early exits computes the run function |
| ResearchRun.BuiltTrace | packages/research/src/orchestrator.ts:79-184 | a built result went through all five stages; its retrieval stage is complete exactly when nothing but the warning about the language model is shown, its synthesis stage names the model exactly when that wrote the answer, and its last stage is complete exactly when every grader passed |
| ResearchRun.CompleteIff | packages/research/src/orchestrator.ts:353-375 | a built result is complete exactly when there is evidence, the language model wrote it, no warning reports a missing required tool, primary and publisher requirements are met, every material fact cites present evidence, no claim rests on flagged evidence, and no trade instruction is given |
| ResearchRun.BuiltWithinLimits | packages/research/src/orchestrator.ts:101-150 | a built result is within its recorded tool, source, token and cost limits, was charged exactly what the adapters delivered, and none of it was dropped |
| ResearchRun.OvershootNeverBuilds | packages/research/src/orchestrator.ts:102-150 | delivering more sources than the limit never ends in a built result |
| ResearchRun.ToolCallsBounded | packages/research/src/budget.ts:23-28 | however a run ends, by a result or by throwing, its tool calls are within the limit |
| ResearchRun.ClampIsLower | packages/research/src/contracts.ts:263-272 | helper: the limit in force is at most the requested and at most the skill's in every dimension |
| ResearchRun.TerminalClaimsNothing | packages/research/src/orchestrator.ts:377-415 | helper: a run that ends early claims nothing, cites nothing, is not complete, and is valid |
| ResearchRun.MissingToolNeverComplete | packages/research/src/orchestrator.ts:95-99 | an unavailable required tool rules out a complete result |
| ResearchRun.ResearchOrchestrator.Run | packages/research/src/orchestrator.ts:64-77 | serves the cache, with one more stage in the trace, exactly for historical questions with a live entry, otherwise runs and stores exactly the complete results; everything cached is complete, valid, within its limits, and listed with the revisions it rests on |
| ResearchRun.ResearchOrchestrator.InvalidateResource | packages/research/src/cache.ts:48-58 | keeps exactly the entries without evidence from the resource, or whose last item from it has the given revision, and counts the others |
| Credentials.CredentialService.Create | packages/onboarding/src/credentials.ts:146-167 | refuses at the key limit and at the daily limit, and otherwise issues or rejects the input, having used up a creation |
| Credentials.CredentialService.Rotate | packages/onboarding/src/credentials.ts:191-214 | retires the owned active key and issues its successor, or changes nothing |
| Credentials.HistoryWithinPolicy | packages/onboarding/src/credentials.ts:146-234 | after every history with fresh ids and a clock that does not go back, nobody has more active keys than allowed and no key outlives its longest lifetime |
| Credentials.RotationExpiry | packages/onboarding/src/credentials.ts:196-204 | a rotated key expires within the day from the old expiry exactly when the remaining days, rounded up, fit the longest lifetime, and otherwise earlier |
| Credentials.RotationCarriesExpiry | packages/onboarding/src/credentials.ts:196-204 | in a service that started empty the first of these always holds |
| Credentials.CreatedWithinLimit | packages/onboarding/src/credentials.ts:112-123 | the keys created for one owner on one day never exceed the daily limit, whatever the clock does |

## Left out

- The in-memory worker's dispatch loop: it dequeues destructively, so an event is lost when its fan-out fails; freedom from loss is a theorem about the PostgreSQL path.
- Retention pruning of outbox and delivery rows in `Pipeline`: a removed delivery can be created again.
- The `out_` prefix of outbox ids: rows are keyed by the event id itself.
- Delivery leases in `Pipeline` and `ServiceTick`: there `due` appears only as cursor updates and saves; its choice and its leases are in `ProductionDue`, where rows that another transaction has locked and skips are not modelled.
- ServiceTick.WebhookService.Tick: which tenants are visited and which records are due is given to it; `ProductionDue` says which they are.
- ServiceTick.WebhookService.DispatchDue: the visited tenants and the copies taken are given; leases are in `LeasedAttempts`.
- SQL text, isolation levels and `RETURNING` order: each statement, or transaction, is one atomic step.
- Interleaved read-modify-write inside the subscription and credential services: their methods are atomic.
- Subscription pausing after sustained failures, endpoint validation, event filters, challenges and audit records.
- Metrics, queue depth, latency figures, attempt identifiers and redacted views.
- Locale-dependent string comparison: strings are ordered by code point.
- Timestamp text, time zones, latency policies and the parsing of stories into observations.
- Floating point: feature, budget and delay arithmetic is over real numbers; grader scores are reduced to pass or fail.
- `aggregate_exposure`, snapshots and manifests of the lake.
- The provisional contradiction flag of the first exposure pass, which the second pass always overwrites.
- An explicit starting cursor for `sync`, and cursors that are empty strings.
- The colon-joined counter keys of the quota store: keys are structured; a clock that moves back is not modelled.
- Nonces: their freshness is not needed for what is proved, so secrecy is not modelled.
- Object keys with a special meaning in JavaScript.
- ExposureFeatures.BuildExposureFeatures: the decay is any function of the age; that it halves every half-life is assumed only where it matters.
- EventPanel.BuildEventPanel: the square root is exact and the overlap policy and disclaimer of the summary are not repeated.
- Evidence normalization: any function from retrieved records to evidence is allowed, so deduplication, URL handling and injection patterns are not modelled; evidence ids may repeat.
- ResearchRun.Research: task validation, the timeline, the durations and summaries of trace stages, and result fields that are copies of the task, the skill or the clock are not modelled.
- Clearing a tenant's cached results; cache keys are structured.
- Fractional budget fields: counts and sizes in a budget are natural numbers.
- Credential secrets, prefixes, verification, listing, and audit events.
- Credentials.CredentialService.Create: the requested lifetime is an integer, so the rejection of fractional lifetimes is not modelled.
