/** The dispatcher: one delivery attempt, its retry timing, and the bounds every run respects. */
module Dispatch {
  import opened Records
  import opened Subscriptions
  import DeliverySchedule

  datatype RetryPolicy = RetryPolicy(maximumAttempts: int, baseDelayMs: int, maximumDelayMs: int, maximumRetryAfterMs: int)

  /** A Retry-After header: absent or unreadable, a number of seconds, or a date. */
  datatype RetryAfter = NoHint | Seconds(count: nat) | At(timestamp: int)

  /** What the network does with a signed request. */
  datatype Reply =
    | Response(status: int, retryAfter: RetryAfter)
    | TransportError(code: string, retryable: bool, security: bool)

  // ----- retry timing -----

  function Max(a: int, b: int): int { if a < b then b else a }

  function Min(a: int, b: int): int { if a < b then a else b }

  function Clamp01(x: real): real { if x < 0.0 then 0.0 else if x > 1.0 then 1.0 else x }

  function Pow2(n: nat): (p: int)
    ensures p >= 1
  {
    if n == 0 then 1 else 2 * Pow2(n - 1)
  }

  function Exponential(attempt: int, policy: RetryPolicy): int {
    Min(policy.maximumDelayMs, policy.baseDelayMs * Pow2(Max(0, attempt - 1)))
  }

  function RetryDelay(attempt: int, hint: Option<int>, policy: RetryPolicy, random: real): int {
    if hint.Some? then Max(0, Min(hint.value, policy.maximumRetryAfterMs))
    else Max(1, Scaled(Exponential(attempt, policy), Jitter(random)))
  }

  /** A factor between three and five quarters. */
  function Jitter(random: real): (f: real)
    ensures 0.75 <= f <= 1.25
    ensures random <= 0.0 ==> f == 0.75
    ensures random >= 1.0 ==> f == 1.25
  {
    0.75 + Clamp01(random) * 0.5
  }

  function Scaled(e: int, f: real): int {
    (e as real * f).Floor
  }

  function ParseRetryAfter(header: RetryAfter, now: int): Option<int> {
    match header
    case NoHint => None
    case Seconds(count) => Some(count * 1000)
    case At(timestamp) => Some(Max(0, timestamp - now))
  }

  lemma QuarterFloor(n: int)
    ensures (n as real / 4.0).Floor == n / 4
  {
    var q := n / 4;
    assert q as real <= n as real / 4.0 < (q + 1) as real;
  }

  lemma ScaledEnds(e: int)
    ensures Scaled(e, 0.75) == 3 * e / 4 && Scaled(e, 1.25) == 5 * e / 4
  {
    QuarterFloor(3 * e);
    QuarterFloor(5 * e);
    assert (e as real) * 0.75 == (3 * e) as real / 4.0;
    assert (e as real) * 1.25 == (5 * e) as real / 4.0;
  }

  lemma ProductMonotone(x: real, y: real, f: real)
    requires x <= y && 0.0 <= f
    ensures x * f <= y * f
  {
  }

  lemma ScaledMonotone(a: int, b: int, f: real)
    requires a <= b && 0.0 <= f
    ensures Scaled(a, f) <= Scaled(b, f)
  {
    ProductMonotone(a as real, b as real, f);
  }

  lemma ScaledInFactor(e: int, f: real, g: real)
    requires 0 <= e && f <= g
    ensures Scaled(e, f) <= Scaled(e, g)
  {
    ProductMonotone(f, g, e as real);
  }

  lemma ScaledNegative(e: int, f: real)
    requires e <= 0 && 0.0 <= f
    ensures Scaled(e, f) <= 0
  {
    ProductMonotone(e as real, 0.0, f);
  }

  /** The jittered delay lies between three and five quarters of the capped exponential, and both ends
      are taken; so it can exceed maximumDelayMs, but by no more than a quarter. */
  lemma RetryDelayBounds(attempt: int, policy: RetryPolicy, random: real)
    ensures var e := Exponential(attempt, policy);
      Max(1, 3 * e / 4) <= RetryDelay(attempt, None, policy, random) <= Max(1, 5 * e / 4)
    ensures var e := Exponential(attempt, policy);
      (random <= 0.0 ==> RetryDelay(attempt, None, policy, random) == Max(1, 3 * e / 4))
      && (random >= 1.0 ==> RetryDelay(attempt, None, policy, random) == Max(1, 5 * e / 4))
    ensures RetryDelay(attempt, None, policy, random) <= Max(1, 5 * policy.maximumDelayMs / 4)
  {
    var e, f := Exponential(attempt, policy), Jitter(random);
    ScaledEnds(e);
    if e >= 0 {
      ScaledInFactor(e, 0.75, f);
      ScaledInFactor(e, f, 1.25);
    } else {
      ScaledNegative(e, f);
    }
  }

  lemma {:induction false} Pow2Monotone(a: nat, b: nat)
    requires a <= b
    ensures Pow2(a) <= Pow2(b)
    decreases b
  {
    if a < b {
      Pow2Monotone(a, b - 1);
    }
  }

  /** Doubling never lowers the capped exponential, unless the base is negative, when both are. */
  lemma ExponentialMonotone(a: int, b: int, policy: RetryPolicy)
    requires a <= b
    ensures Exponential(a, policy) <= Exponential(b, policy) || Exponential(a, policy) < 0
  {
    Pow2Monotone(Max(0, a - 1), Max(0, b - 1));
    IntProduct(policy.baseDelayMs, Pow2(Max(0, a - 1)), Pow2(Max(0, b - 1)));
  }

  lemma IntProduct(base: int, p: int, q: int)
    requires 1 <= p <= q
    ensures base * p <= base * q || base * p < 0
  {
  }

  /** With the same random draw a later attempt never waits less. */
  lemma RetryDelayMonotone(a: int, b: int, policy: RetryPolicy, random: real)
    requires a <= b
    ensures RetryDelay(a, None, policy, random) <= RetryDelay(b, None, policy, random)
  {
    var ea, eb, f := Exponential(a, policy), Exponential(b, policy), Jitter(random);
    ExponentialMonotone(a, b, policy);
    if ea <= eb {
      ScaledMonotone(ea, eb, f);
    } else {
      ScaledNegative(ea, f);
    }
  }

  /** A hint is followed up to the configured maximum and is never negative, whatever the header says. */
  lemma HintClamped(attempt: int, hint: int, policy: RetryPolicy, random: real)
    requires 0 <= policy.maximumRetryAfterMs
    ensures 0 <= RetryDelay(attempt, Some(hint), policy, random) <= policy.maximumRetryAfterMs
    ensures 0 <= hint <= policy.maximumRetryAfterMs ==> RetryDelay(attempt, Some(hint), policy, random) == hint
  {
  }

  // ----- one attempt -----

  function Failed(r: Delivery, code: string, retryable: bool, now: int, hint: Option<int>, policy: RetryPolicy,
                  random: real): Delivery
  {
    var noted := r.(lastErrorCode := Some(if |code| <= 120 then code else code[..120]), updatedAt := now);
    if retryable && r.attempts < policy.maximumAttempts then
      noted.(state := RetryScheduled, nextAttemptAt := now + RetryDelay(r.attempts, hint, policy, random))
    else if retryable then noted.(state := DeadLetter)
    else noted.(state := Terminal)
  }

  predicate Retryable(status: int) {
    status == 408 || status == 425 || status == 429 || 500 <= status <= 599
  }

  predicate Disabling(status: int) {
    status == 400 || status == 401 || status == 403 || status == 404 || status == 410 || status == 422
  }

  function Answered(r: Delivery, status: int, retryAfter: RetryAfter, now: int, code: string, policy: RetryPolicy,
                    random: real): Delivery
  {
    var noted := r.(lastStatus := Some(status));
    if 200 <= status <= 299 then noted.(state := Succeeded, updatedAt := now, lastErrorCode := None)
    else
      var hint := if Retryable(status) then ParseRetryAfter(retryAfter, now) else None;
      Failed(noted, code, Retryable(status), now, hint, policy, random)
  }

  /** The inputs an attempt takes from outside: the clock, the network, whether the signing keys could be
      opened, the random draw, and the error code text of a status. */
  datatype Inputs = Inputs(now: int, reply: Reply, keysOpen: bool, random: real, statusCode: string)

  /** What an attempt does: the record it saves, whether a request went out, and the reason, if any, for
      which it disables the subscription. */
  datatype Effect = Effect(record: Delivery, sent: bool, disables: Option<string>)

  function Attempted(subs: Table, copy: Delivery, x: Inputs, policy: RetryPolicy): Effect {
    var r := copy.(attempts := copy.attempts + 1, updatedAt := x.now);
    var id := copy.subscriptionId;
    if id !in subs || subs[id].state == Deleted || (subs[id].state == Active && subs[id].tenantId == r.tenantId && !x.keysOpen) then
      Effect(Failed(r, "internal_delivery_error", true, x.now, None, policy, x.random), false, None)
    else if subs[id].state != Active || subs[id].tenantId != r.tenantId then
      Effect(Failed(r, "subscription_inactive", false, x.now, None, policy, x.random), false, None)
    else Transmitted(r, x, policy)
  }

  /** What a request that went out does, answered or not. */
  function Transmitted(r: Delivery, x: Inputs, policy: RetryPolicy): Effect {
    match x.reply
    case Response(status, retryAfter) =>
      Effect(Answered(r, status, retryAfter, x.now, x.statusCode, policy, x.random), true,
             if Disabling(status) then Some(x.statusCode) else None)
    case TransportError(code, retryable, security) =>
      Effect(Failed(r, code, retryable, x.now, None, policy, x.random), true, if security then Some(code) else None)
  }

  function Replayed(copy: Delivery, now: int): Delivery {
    copy.(state := Queued, nextAttemptAt := now, updatedAt := now, replayCount := copy.replayCount + 1, lastErrorCode := None)
  }

  class WebhookDispatcher {
    const subscriptions: SubscriptionService
    const deliveries: DeliverySchedule.InMemoryDeliveryStore
    const policy: RetryPolicy

    constructor (subscriptions: SubscriptionService, deliveries: DeliverySchedule.InMemoryDeliveryStore, policy: RetryPolicy)
      ensures this.subscriptions == subscriptions && this.deliveries == deliveries && this.policy == policy
    {
      this.subscriptions, this.deliveries, this.policy := subscriptions, deliveries, policy;
    }

    /** Attempts one record, which is a copy taken from the due list, and saves the outcome. */
    method Attempt(copy: Delivery, x: Inputs) returns (sent: bool)
      requires deliveries.Valid()
      modifies subscriptions, deliveries
      ensures deliveries.Valid()
      ensures var effect := Attempted(old(subscriptions.records), copy, x, policy);
        sent == effect.sent
        && DeliverySchedule.Pruned(old(deliveries.records)[copy.id := effect.record], deliveries.records, deliveries.maximumRecords)
        && subscriptions.records ==
           if effect.disables.None? then old(subscriptions.records)
           else Execute(old(subscriptions.records), Command.Disable(copy.subscriptionId, effect.disables.value))
    {
      var r := copy.(attempts := copy.attempts + 1, updatedAt := x.now);
      var id := copy.subscriptionId;
      sent := false;
      if id !in subscriptions.records || subscriptions.records[id].state == Deleted {
        deliveries.Save(Failed(r, "internal_delivery_error", true, x.now, None, policy, x.random));
        return;
      }
      var target := subscriptions.records[id];
      if target.state != Active || target.tenantId != r.tenantId {
        deliveries.Save(Failed(r, "subscription_inactive", false, x.now, None, policy, x.random));
        return;
      }
      if !x.keysOpen {
        deliveries.Save(Failed(r, "internal_delivery_error", true, x.now, None, policy, x.random));
        return;
      }
      sent := true;
      Transmit(r, x);
    }

    method Transmit(r: Delivery, x: Inputs)
      requires deliveries.Valid()
      modifies subscriptions, deliveries
      ensures deliveries.Valid()
      ensures var effect := Transmitted(r, x, policy);
        && DeliverySchedule.Pruned(old(deliveries.records)[r.id := effect.record], deliveries.records, deliveries.maximumRecords)
        && subscriptions.records ==
           if effect.disables.None? then old(subscriptions.records)
           else Execute(old(subscriptions.records), Command.Disable(r.subscriptionId, effect.disables.value))
    {
      match x.reply {
        case Response(status, retryAfter) =>
          deliveries.Save(Answered(r, status, retryAfter, x.now, x.statusCode, policy, x.random));
          if Disabling(status) {
            subscriptions.Disable(r.subscriptionId, x.statusCode);
          }
        case TransportError(code, retryable, security) =>
          if security {
            subscriptions.Disable(r.subscriptionId, code);
          }
          deliveries.Save(Failed(r, code, retryable, x.now, None, policy, x.random));
      }
    }

    /** Re-queues a stored record for the operator; the attempt counter is kept. */
    method Replay(actor: Actor, id: string, now: int) returns (ok: bool)
      requires deliveries.Valid()
      modifies deliveries
      ensures deliveries.Valid()
      ensures ok <==> actor.canReplay && id in old(deliveries.records) && old(deliveries.records)[id].tenantId == actor.tenantId
      ensures !ok ==> deliveries.records == old(deliveries.records)
      ensures ok ==> DeliverySchedule.Pruned(old(deliveries.records)[id := Replayed(old(deliveries.records)[id], now)],
                                             deliveries.records, deliveries.maximumRecords)
    {
      if !actor.canReplay || id !in deliveries.records || deliveries.records[id].tenantId != actor.tenantId {
        return false;
      }
      deliveries.Save(Replayed(deliveries.records[id], now));
      ok := true;
    }
  }

  /** A retry is never scheduled into the past. */
  lemma NextAttemptNotBeforeNow(subs: Table, copy: Delivery, x: Inputs, policy: RetryPolicy)
    requires Attempted(subs, copy, x, policy).record.state == RetryScheduled
    ensures x.now <= Attempted(subs, copy, x, policy).record.nextAttemptAt
  {
  }

  // ----- the delivery bound, under stale copies -----

  /** The bound of each state. A queued record must be strictly below it, because a replay keeps the
      attempt counter and the next attempt adds one. */
  predicate Bounded(r: Delivery, maximum: int) {
    match r.state
    case Queued => r.attempts < maximum + r.replayCount
    case RetryScheduled => r.attempts < maximum
    case _ => r.attempts <= maximum + r.replayCount
  }

  lemma AttemptBounded(subs: Table, copy: Delivery, x: Inputs, policy: RetryPolicy)
    requires DeliverySchedule.Pending(copy) && Bounded(copy, policy.maximumAttempts)
    ensures Bounded(Attempted(subs, copy, x, policy).record, policy.maximumAttempts)
    ensures Attempted(subs, copy, x, policy).record.replayCount == copy.replayCount
    ensures Attempted(subs, copy, x, policy).record.attempts == copy.attempts + 1
  {
  }

  /** Stored records and the copies that attempts and replays work on. A copy may be used at any later
      time and any number of times, so every interleaving of loads and saves is covered. An attempt is
      lost when the process ends, or its save throws, after the request went out. */
  datatype Desk = Desk(stored: map<string, Delivery>, copies: set<Delivery>)

  datatype Move =
    | Insert(event: Event, id: string, subscription: string, now: int)
    | Load(id: string)
    | SaveAttempt(copy: Delivery, subs: Table, inputs: Inputs)
    | LoseAttempt(copy: Delivery)
    | SaveReplay(copy: Delivery, now: int)

  predicate Allowed(d: Desk, m: Move) {
    match m
    case Insert(_, _, _, _) => true
    case Load(id) => id in d.stored
    case SaveAttempt(copy, _, _) => copy in d.copies && DeliverySchedule.Pending(copy)
    case LoseAttempt(copy) => copy in d.copies && DeliverySchedule.Pending(copy)
    case SaveReplay(copy, _) => copy in d.copies
  }

  function Moved(d: Desk, m: Move, policy: RetryPolicy): Desk
    requires Allowed(d, m)
  {
    match m
    case Insert(event, id, subscription, now) =>
      if id in d.stored then d else d.(stored := d.stored[id := FreshDelivery(id, event, subscription, now)])
    case Load(id) => d.(copies := d.copies + {d.stored[id]})
    case SaveAttempt(copy, subs, inputs) =>
      d.(stored := d.stored[copy.id := Attempted(subs, copy, inputs, policy).record])
    case LoseAttempt(_) => d
    case SaveReplay(copy, now) => d.(stored := d.stored[copy.id := Replayed(copy, now)])
  }

  predicate AllowedAll(d: Desk, moves: seq<Move>, policy: RetryPolicy)
    decreases |moves|
  {
    moves == [] || (Allowed(d, moves[0]) && AllowedAll(Moved(d, moves[0], policy), moves[1..], policy))
  }

  function MovedAll(d: Desk, moves: seq<Move>, policy: RetryPolicy): Desk
    requires AllowedAll(d, moves, policy)
    decreases |moves|
  {
    if moves == [] then d else MovedAll(Moved(d, moves[0], policy), moves[1..], policy)
  }

  ghost predicate DeskBounded(d: Desk, maximum: int) {
    && (forall id :: id in d.stored ==> Bounded(d.stored[id], maximum))
    && (forall c :: c in d.copies ==> Bounded(c, maximum))
  }

  /** Under any interleaving of attempts and replays built from stored copies, a record is counted at
      most maximumAttempts + replayCount times, a scheduled retry still has attempts left, and a
      record that was never replayed is counted at most maximumAttempts times. */
  lemma {:induction false} DeliveryBound(d: Desk, moves: seq<Move>, policy: RetryPolicy, id: string)
    requires 1 <= policy.maximumAttempts && DeskBounded(d, policy.maximumAttempts) && AllowedAll(d, moves, policy)
    requires id in MovedAll(d, moves, policy).stored
    ensures var r := MovedAll(d, moves, policy).stored[id];
      r.attempts <= policy.maximumAttempts + r.replayCount
      && (r.state == RetryScheduled ==> r.attempts < policy.maximumAttempts)
      && (r.replayCount == 0 ==> r.attempts <= policy.maximumAttempts)
    decreases |moves|
  {
    if moves == [] {
      assert Bounded(d.stored[id], policy.maximumAttempts);
    } else {
      match moves[0] {
        case SaveAttempt(copy, subs, inputs) => AttemptBounded(subs, copy, inputs, policy);
        case _ =>
      }
      DeliveryBound(Moved(d, moves[0], policy), moves[1..], policy, id);
    }
  }

  /** The bound needs at least one permitted attempt: it holds after the first attempt of a fresh record
      exactly when maximumAttempts is positive. */
  lemma BoundNeedsOneAttempt(subs: Table, event: Event, id: string, subscription: string, x: Inputs, policy: RetryPolicy)
    ensures var r := Attempted(subs, FreshDelivery(id, event, subscription, x.now), x, policy).record;
      r.attempts <= policy.maximumAttempts + r.replayCount <==> 1 <= policy.maximumAttempts
  {
  }

  // ----- how often a delivery is attempted -----

  predicate Attempts(m: Move, id: string) {
    (m.SaveAttempt? || m.LoseAttempt?) && m.copy.id == id
  }

  function AttemptsMade(moves: seq<Move>, id: string): nat {
    if moves == [] then 0 else (if Attempts(moves[0], id) then 1 else 0) + AttemptsMade(moves[1..], id)
  }

  ghost predicate ReplaysOf(moves: seq<Move>, id: string) {
    exists i :: 0 <= i < |moves| && moves[i].SaveReplay? && moves[i].copy.id == id
  }

  function Counter(d: Desk, id: string): int {
    if id in d.stored then d.stored[id].attempts else 0
  }

  /** An attempt of this delivery that is saved, from a copy whose counter is the stored one; other moves are free. */
  predicate Current(d: Desk, m: Move, id: string) {
    Attempts(m, id) ==> m.SaveAttempt? && m.copy.attempts == Counter(d, id)
  }

  predicate AllCurrent(d: Desk, moves: seq<Move>, policy: RetryPolicy, id: string)
    requires AllowedAll(d, moves, policy)
    decreases |moves|
  {
    moves == [] || (Current(d, moves[0], id) && AllCurrent(Moved(d, moves[0], policy), moves[1..], policy, id))
  }

  /** Records are stored under their ids, and neither the record nor a copy of it counts more than `high`. */
  ghost predicate Below(d: Desk, id: string, high: int) {
    && (forall k :: k in d.stored ==> d.stored[k].id == k)
    && 0 <= high && Counter(d, id) <= high && forall c :: c in d.copies && c.id == id ==> c.attempts <= high
  }

  lemma BelowStep(d: Desk, m: Move, policy: RetryPolicy, id: string, high: int)
    requires Allowed(d, m) && Below(d, id, high) && !(m.SaveReplay? && m.copy.id == id)
    ensures Below(Moved(d, m, policy), id, high + if Attempts(m, id) && m.SaveAttempt? && m.copy.attempts == high then 1 else 0)
  {
  }

  /** The counter never outruns the attempts. */
  lemma {:induction false} GrowthAtMost(d: Desk, moves: seq<Move>, policy: RetryPolicy, id: string, high: int)
    requires AllowedAll(d, moves, policy) && !ReplaysOf(moves, id) && Below(d, id, high)
    ensures Counter(MovedAll(d, moves, policy), id) <= high + AttemptsMade(moves, id)
    decreases |moves|
  {
    if moves != [] {
      NoReplayLater(moves, id);
      BelowStep(d, moves[0], policy, id, high);
      GrowthAtMost(Moved(d, moves[0], policy), moves[1..], policy, id,
                   high + if Attempts(moves[0], id) && moves[0].SaveAttempt? && moves[0].copy.attempts == high then 1 else 0);
    }
  }

  lemma NoReplayLater(moves: seq<Move>, id: string)
    requires moves != [] && !ReplaysOf(moves, id)
    ensures !ReplaysOf(moves[1..], id) && !(moves[0].SaveReplay? && moves[0].copy.id == id)
  {
    assert forall i :: 0 <= i < |moves[1..]| ==> moves[1..][i] == moves[i + 1];
  }

  /** A delivery that is not replayed, and of which no copy is ahead of the store, has been attempted exactly as often as
      its counter grew if and only if every attempt was saved, each from a copy with the counter then stored. */
  lemma {:induction false} AttemptsAreCountedIff(d: Desk, moves: seq<Move>, policy: RetryPolicy, id: string)
    requires AllowedAll(d, moves, policy) && !ReplaysOf(moves, id) && Below(d, id, Counter(d, id))
    ensures Counter(MovedAll(d, moves, policy), id) <= Counter(d, id) + AttemptsMade(moves, id)
    ensures Counter(MovedAll(d, moves, policy), id) == Counter(d, id) + AttemptsMade(moves, id)
      <==> AllCurrent(d, moves, policy, id)
    decreases |moves|
  {
    GrowthAtMost(d, moves, policy, id, Counter(d, id));
    if moves != [] {
      NoReplayLater(moves, id);
      BelowStep(d, moves[0], policy, id, Counter(d, id));
      if Current(d, moves[0], id) {
        AttemptsAreCountedIff(Moved(d, moves[0], policy), moves[1..], policy, id);
      } else {
        GrowthAtMost(Moved(d, moves[0], policy), moves[1..], policy, id, Counter(d, id));
      }
    }
  }

  ghost predicate NeverReplayed(d: Desk, id: string) {
    && (id in d.stored ==> d.stored[id].replayCount == 0)
    && forall c :: c in d.copies && c.id == id ==> c.replayCount == 0
  }

  lemma {:induction false} StaysNeverReplayed(d: Desk, moves: seq<Move>, policy: RetryPolicy, id: string)
    requires AllowedAll(d, moves, policy) && !ReplaysOf(moves, id) && NeverReplayed(d, id)
    requires forall k :: k in d.stored ==> d.stored[k].id == k
    ensures NeverReplayed(MovedAll(d, moves, policy), id)
    decreases |moves|
  {
    if moves != [] {
      NoReplayLater(moves, id);
      StaysNeverReplayed(Moved(d, moves[0], policy), moves[1..], policy, id);
    }
  }

  /** So it is attempted at most maximumAttempts times in all if no attempt is lost or made from a stale copy. */
  lemma CurrentAttemptsAtMost(d: Desk, moves: seq<Move>, policy: RetryPolicy, id: string)
    requires AllowedAll(d, moves, policy) && !ReplaysOf(moves, id) && AllCurrent(d, moves, policy, id)
    requires 1 <= policy.maximumAttempts && DeskBounded(d, policy.maximumAttempts)
    requires Below(d, id, Counter(d, id)) && NeverReplayed(d, id)
    ensures Counter(d, id) + AttemptsMade(moves, id) <= policy.maximumAttempts
  {
    AttemptsAreCountedIff(d, moves, policy, id);
    StaysNeverReplayed(d, moves, policy, id);
    if id in MovedAll(d, moves, policy).stored {
      DeliveryBound(d, moves, policy, id);
    }
  }

  function Repeated(m: Move, n: nat): seq<Move> {
    if n == 0 then [] else [m] + Repeated(m, n - 1)
  }

  /** Otherwise there is no bound: a copy of a pending delivery can be attempted and saved any number of times, and the
      counter only ever comes to one more than that of the copy. */
  lemma {:induction false} StaleCopiesUnbounded(d: Desk, copy: Delivery, subs: Table, x: Inputs, policy: RetryPolicy, n: nat)
    requires copy in d.copies && DeliverySchedule.Pending(copy)
    ensures var moves := Repeated(SaveAttempt(copy, subs, x), n);
      && AllowedAll(d, moves, policy) && !ReplaysOf(moves, copy.id) && AttemptsMade(moves, copy.id) == n
      && (n > 0 ==> Counter(MovedAll(d, moves, policy), copy.id) == copy.attempts + 1)
    decreases n
  {
    if n > 0 {
      var m := SaveAttempt(copy, subs, x);
      assert ([m] + Repeated(m, n - 1))[1..] == Repeated(m, n - 1);
      StaleCopiesUnbounded(Moved(d, m, policy), copy, subs, x, policy, n - 1);
      assert n - 1 == 0 ==> Repeated(m, n - 1) == [];
    }
  }

  // ----- dispatch and subscriptions together -----

  datatype World = World(subs: Table, deliveries: map<string, Delivery>, sends: seq<string>)

  datatype Act =
    | Manage(command: Command)
    | Fanout(event: Event, id: string, subscription: string, now: int)
    | Attempt(id: string, inputs: Inputs)
    | Replay(id: string, now: int)

  predicate CanAct(w: World, a: Act) {
    match a
    case Manage(command) => FreshInputs(w.subs, command)
    case Fanout(_, _, subscription, _) => subscription in w.subs && w.subs[subscription].state == Active
    case Attempt(id, inputs) => id in w.deliveries && DeliverySchedule.IsDue(w.deliveries[id], inputs.now)
    case Replay(id, _) => id in w.deliveries
  }

  /** One atomic act; `sends` records, in order, the subscription of every request that went out. */
  function After(w: World, a: Act, policy: RetryPolicy): World
    requires CanAct(w, a)
  {
    match a
    case Manage(command) => w.(subs := Execute(w.subs, command))
    case Fanout(event, id, subscription, now) =>
      if id in w.deliveries then w
      else w.(deliveries := w.deliveries[id := FreshDelivery(id, event, subscription, now)])
    case Attempt(id, inputs) =>
      var effect := Attempted(w.subs, w.deliveries[id], inputs, policy);
      World(if effect.disables.None? then w.subs
            else Execute(w.subs, Command.Disable(w.deliveries[id].subscriptionId, effect.disables.value)),
            w.deliveries[id := effect.record],
            if effect.sent then w.sends + [w.deliveries[id].subscriptionId] else w.sends)
    case Replay(id, now) => w.(deliveries := w.deliveries[id := Replayed(w.deliveries[id], now)])
  }

  predicate CanActAll(w: World, acts: seq<Act>, policy: RetryPolicy)
    decreases |acts|
  {
    acts == [] || (CanAct(w, acts[0]) && CanActAll(After(w, acts[0], policy), acts[1..], policy))
  }

  function AfterAll(w: World, acts: seq<Act>, policy: RetryPolicy): World
    requires CanActAll(w, acts, policy)
    decreases |acts|
  {
    if acts == [] then w else AfterAll(After(w, acts[0], policy), acts[1..], policy)
  }

  function Count(sends: seq<string>, subscription: string): nat {
    if sends == [] then 0
    else Count(sends[..|sends| - 1], subscription) + if sends[|sends| - 1] == subscription then 1 else 0
  }

  ghost predicate Reactivated(acts: seq<Act>, subscription: string) {
    exists i :: 0 <= i < |acts| && acts[i].Manage? && Reactivates(acts[i].command, subscription)
  }

  lemma QuietStep(w: World, a: Act, policy: RetryPolicy, subscription: string)
    requires CanAct(w, a) && subscription in w.subs && w.subs[subscription].state != Active
    requires a.Manage? ==> !Reactivates(a.command, subscription)
    ensures var t := After(w, a, policy);
      subscription in t.subs && t.subs[subscription].state != Active
      && Count(t.sends, subscription) == Count(w.sends, subscription)
      && (w.subs[subscription].state == Deleted ==> t.subs[subscription].state == Deleted)
  {
    if a.Attempt? && Attempted(w.subs, w.deliveries[a.id], a.inputs, policy).sent {
      var s := w.deliveries[a.id].subscriptionId;
      assert (w.sends + [s])[..|w.sends|] == w.sends;
    }
  }

  /** Once a subscription is not active and nobody re-activates it, no later act sends to it. */
  lemma {:induction false} QuietUntilReactivated(w: World, acts: seq<Act>, policy: RetryPolicy, subscription: string)
    requires CanActAll(w, acts, policy) && subscription in w.subs && w.subs[subscription].state != Active
    requires !Reactivated(acts, subscription)
    ensures var t := AfterAll(w, acts, policy);
      subscription in t.subs && t.subs[subscription].state != Active
      && Count(t.sends, subscription) == Count(w.sends, subscription)
    decreases |acts|
  {
    if acts != [] {
      assert !(acts[0].Manage? && Reactivates(acts[0].command, subscription));
      QuietStep(w, acts[0], policy, subscription);
      assert forall i :: 0 <= i < |acts[1..]| ==> acts[1..][i] == acts[i + 1];
      QuietUntilReactivated(After(w, acts[0], policy), acts[1..], policy, subscription);
    }
  }

  /** What the next attempt does to a pending delivery of an inactive subscription: a paused, disabled or
      unverified one ends it at once, a deleted one only when its attempts are used up. */
  lemma InactiveOutcome(w: World, id: string, x: Inputs, policy: RetryPolicy)
    requires CanAct(w, Attempt(id, x))
    requires var s := w.deliveries[id].subscriptionId; s in w.subs && w.subs[s].state != Active
    ensures var s := w.deliveries[id].subscriptionId;
      var r := After(w, Attempt(id, x), policy).deliveries[id];
      r.state == (if w.subs[s].state != Deleted then Terminal
                  else if w.deliveries[id].attempts + 1 < policy.maximumAttempts then RetryScheduled else DeadLetter)
      && r.attempts == w.deliveries[id].attempts + 1
  {
  }

  function AttemptTimes(subs: Table, r: Delivery, xs: seq<Inputs>, policy: RetryPolicy): Delivery
    decreases |xs|
  {
    if xs == [] || !DeliverySchedule.Pending(r) then r
    else AttemptTimes(subs, Attempted(subs, r, xs[0], policy).record, xs[1..], policy)
  }

  /** A delivery of a deleted subscription is retried until its attempts run out and then dead-letters. */
  lemma {:induction false} DeletedEndsInDeadLetter(subs: Table, r: Delivery, xs: seq<Inputs>, policy: RetryPolicy)
    requires r.subscriptionId in subs && subs[r.subscriptionId].state == Deleted && DeliverySchedule.Pending(r)
    requires 1 <= |xs| && policy.maximumAttempts <= r.attempts + |xs|
    ensures AttemptTimes(subs, r, xs, policy).state == DeadLetter
    ensures AttemptTimes(subs, r, xs, policy).attempts == Max(r.attempts + 1, policy.maximumAttempts)
    decreases |xs|
  {
    var next := Attempted(subs, r, xs[0], policy).record;
    if next.state == RetryScheduled {
      DeletedEndsInDeadLetter(subs, next, xs[1..], policy);
    }
  }

  /** When attempts are atomic the counter is exact: it counts the attempts of the run. */
  lemma {:induction false} CounterIsExact(w: World, acts: seq<Act>, policy: RetryPolicy, id: string)
    requires CanActAll(w, acts, policy) && id in w.deliveries
    ensures id in AfterAll(w, acts, policy).deliveries
    ensures AfterAll(w, acts, policy).deliveries[id].attempts == w.deliveries[id].attempts + AttemptsOn(acts, id)
    decreases |acts|
  {
    if acts != [] {
      CounterIsExact(After(w, acts[0], policy), acts[1..], policy, id);
    }
  }

  function AttemptsOn(acts: seq<Act>, id: string): nat {
    if acts == [] then 0 else (if acts[0].Attempt? && acts[0].id == id then 1 else 0) + AttemptsOn(acts[1..], id)
  }

  ghost predicate Replays(acts: seq<Act>, id: string) {
    exists i :: 0 <= i < |acts| && acts[i].Replay? && acts[i].id == id
  }

  /** Not yet created, or never replayed and within its bound. */
  predicate ReplayFree(w: World, policy: RetryPolicy, id: string) {
    id in w.deliveries ==> w.deliveries[id].replayCount == 0 && Bounded(w.deliveries[id], policy.maximumAttempts)
  }

  function AttemptsSoFar(w: World, id: string): int {
    if id in w.deliveries then w.deliveries[id].attempts else 0
  }

  /** When each attempt is one act, a delivery that no act replays is attempted at most maximumAttempts times in all,
      whatever else happens to it and to its subscription. */
  lemma {:induction false} AttemptedAtMost(w: World, acts: seq<Act>, policy: RetryPolicy, id: string)
    requires CanActAll(w, acts, policy) && 1 <= policy.maximumAttempts && ReplayFree(w, policy, id) && !Replays(acts, id)
    ensures AttemptsSoFar(w, id) + AttemptsOn(acts, id) <= policy.maximumAttempts
    ensures ReplayFree(AfterAll(w, acts, policy), policy, id)
    decreases |acts|
  {
    if acts != [] {
      var next := After(w, acts[0], policy);
      assert !(acts[0].Replay? && acts[0].id == id);
      assert forall i :: 0 <= i < |acts[1..]| ==> acts[1..][i] == acts[i + 1];
      ReplayFreeStep(w, acts[0], policy, id);
      AttemptedAtMost(next, acts[1..], policy, id);
    }
  }

  lemma ReplayFreeStep(w: World, a: Act, policy: RetryPolicy, id: string)
    requires CanAct(w, a) && 1 <= policy.maximumAttempts && ReplayFree(w, policy, id) && !(a.Replay? && a.id == id)
    ensures ReplayFree(After(w, a, policy), policy, id)
    ensures AttemptsSoFar(After(w, a, policy), id) == AttemptsSoFar(w, id) + if a.Attempt? && a.id == id then 1 else 0
  {
    if a.Attempt? && a.id == id {
      AttemptBounded(w.subs, w.deliveries[id], a.inputs, policy);
    }
  }
}
