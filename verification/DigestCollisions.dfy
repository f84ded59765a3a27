/** Freedom from loss and the delivery id digest: no run loses an event exactly if the digest is injective. */
module DigestCollisions {
  import opened Pipeline
  import opened Records

  type Digest = (string, string) -> string
  type Filter = (Event, string) -> bool

  /** A relayed event is still queued or fully fanned out. */
  ghost predicate NotLost(env: Env, s: World, id: string) {
    id in s.outbox && s.outbox[id].state.Relayed? ==> id in s.queue || FullyFannedOut(env, s, id)
  }

  ghost predicate LossFree(digest: Digest) {
    forall matches: Filter, s: World, trace, id ::
      Initial(s) && ValidTrace(Env(digest, matches), s, trace) ==>
        NotLost(Env(digest, matches), Run(Env(digest, matches), s, trace), id)
  }

  /** Another pair's row stands where this pair's row belongs. */
  predicate TakenOver(env: Env, s: World, id: string, sub: string) {
    var key := env.deliveryId(id, sub);
    && key in s.deliveries && (s.deliveries[key].eventId != id || s.deliveries[key].subscriptionId != sub)
    && env.deliveryId(s.deliveries[key].eventId, s.deliveries[key].subscriptionId) == key
  }

  /** Whatever the digest, a relayed event that has left the queue is short of a recipient exactly where another pair with
      the same digest was there first. */
  lemma LostIffTakenOver(env: Env, s: World, trace: seq<Action>, id: string)
    requires Initial(s) && ValidTrace(env, s, trace)
    requires var t := Run(env, s, trace); id in t.outbox && t.outbox[id].state.Relayed? && id !in t.queue
    ensures var t := Run(env, s, trace);
      id in t.completed && (FullyFannedOut(env, t, id) <==> forall sub :: sub in t.completed[id] ==> !TakenOver(env, t, id, sub))
  {
    RunInv(env, s, trace);
    var t := Run(env, s, trace);
    assert Secured(t, id);
    forall sub | sub in t.completed[id]
      ensures HasDelivery(env, t, id, sub) <==> !TakenOver(env, t, id, sub)
    {
      assert HasRow(env, t, id, sub);
    }
  }

  // ----- a collision loses an event -----

  const NOW := 0
  const TENANT := "t"

  function EventOf(id: string, resource: string): Event {
    Event(id, TENANT, resource, 0, "k")
  }

  function Start(a: string, b: string): World {
    World(map[], map[], 0, map[], map[], map[a := Subscriber(TENANT, true), b := Subscriber(TENANT, true)], map[],
          map[0 := Worker("w", Idle)])
  }

  function Everything(digest: Digest): Env {
    Env(digest, (e: Event, s: string) => true)
  }

  /** Stages one event. */
  lemma StageOne(env: Env, s: World, e: Event) returns (t: World)
    requires Inv(env, s) && IdleWorker(s, 0) && LeasesExpired(s, NOW) && s.queue == map[] && s.completed == map[]
    ensures ValidTrace(env, s, [Stage(e, NOW)]) && t == Run(env, s, [Stage(e, NOW)])
    ensures Inv(env, t) && IdleWorker(t, 0) && LeasesExpired(t, NOW) && t.queue == map[] && t.completed == map[]
    ensures t.outbox == AppendUnique(s.outbox, e, NOW) && t.subscribers == s.subscribers
  {
    t := Apply(env, s, Stage(e, NOW));
    RunExtend(env, s, [], Stage(e, NOW));
    assert [] + [Stage(e, NOW)] == [Stage(e, NOW)];
    StepInv(env, s, Stage(e, NOW));
  }

  /** From a world with staged events only, one worker relays and serves them all; each is completed with exactly the
      subscriptions that match it. */
  lemma ServeStaged(env: Env, s: World) returns (trace: seq<Action>)
    requires Inv(env, s) && IdleWorker(s, 0) && LeasesExpired(s, NOW) && s.queue == map[] && s.completed == map[]
    ensures ValidTrace(env, s, trace)
    ensures var t := Run(env, s, trace);
      Inv(env, t) && t.queue == map[]
      && forall id :: id in s.outbox ==>
        id in t.outbox && t.outbox[id].state.Relayed? && id in t.completed
        && t.completed[id] == Recipients(env, s.subscribers, s.outbox[id].event)
  {
    var relays := RelayAll(env, s, 0, NOW, 1);
    var s2 := Run(env, s, relays);
    var serves := ServeAll(env, s2, 0, NOW, 1);
    RunConcat(env, s, relays, serves);
    trace := relays + serves;
    RunMonotone(env, s, relays);
    var t := Run(env, s, trace);
    forall id | id in s.outbox
      ensures id in t.outbox && t.outbox[id].state.Relayed? && id in t.completed
      ensures t.completed[id] == Recipients(env, s.subscribers, s.outbox[id].event)
    {
      assert Known(s, s.outbox[id].event) && Known(s2, s.outbox[id].event);
      assert id !in Unrelayed(s2) && Secured(s2, id);
      assert id in s2.queue && s2.queue[id].event == s2.outbox[id].event;
    }
  }

  /** Of two different pairs with one digest, at most one has its own row. */
  lemma OneOfTwo(env: Env, s: World, e: string, a: string, f: string, b: string)
    requires env.deliveryId(e, a) == env.deliveryId(f, b) && (e != f || a != b)
    ensures !HasDelivery(env, s, e, a) || !HasDelivery(env, s, f, b)
  {
  }

  ghost predicate Ready(env: Env, s: World) {
    Inv(env, s) && IdleWorker(s, 0) && LeasesExpired(s, NOW) && s.queue == map[] && s.completed == map[]
  }

  lemma StartReady(env: Env, a: string, b: string)
    ensures Initial(Start(a, b)) && Ready(env, Start(a, b))
  {
  }

  /** Stages the events of both ids, which may be the same id. */
  lemma StageBoth(env: Env, s: World, e: string, f: string) returns (trace: seq<Action>)
    requires Ready(env, s) && s.outbox == map[]
    ensures ValidTrace(env, s, trace) && Ready(env, Run(env, s, trace)) && Run(env, s, trace).subscribers == s.subscribers
    ensures forall id :: id in {e, f} ==>
      id in Run(env, s, trace).outbox && Run(env, s, trace).outbox[id].event.tenant == TENANT
  {
    var x, y := EventOf(e, "1"), EventOf(f, "2");
    var s1 := StageOne(env, s, x);
    trace := [Stage(x, NOW)];
    if e != f {
      var s2 := StageOne(env, s1, y);
      RunConcat(env, s, trace, [Stage(y, NOW)]);
      trace := trace + [Stage(y, NOW)];
    }
  }

  lemma CollisionLoses(digest: Digest, e: string, a: string, f: string, b: string) returns (trace: seq<Action>, id: string)
    requires digest(e, a) == digest(f, b) && (e != f || a != b)
    ensures var env, s := Everything(digest), Start(a, b);
      Initial(s) && ValidTrace(env, s, trace) && !NotLost(env, Run(env, s, trace), id)
  {
    var env, s := Everything(digest), Start(a, b);
    StartReady(env, a, b);
    var staged := StageBoth(env, s, e, f);
    var middle := Run(env, s, staged);
    var rest := ServeStaged(env, middle);
    RunConcat(env, s, staged, rest);
    trace := staged + rest;
    assert a in Recipients(env, middle.subscribers, middle.outbox[e].event);
    assert b in Recipients(env, middle.subscribers, middle.outbox[f].event);
    id := LostOne(env, Run(env, s, trace), e, a, f, b);
  }

  lemma LostOne(env: Env, t: World, e: string, a: string, f: string, b: string) returns (id: string)
    requires env.deliveryId(e, a) == env.deliveryId(f, b) && (e != f || a != b) && t.queue == map[]
    requires forall i :: i in {e, f} ==> i in t.outbox && t.outbox[i].state.Relayed? && i in t.completed
    requires a in t.completed[e] && b in t.completed[f]
    ensures !NotLost(env, t, id)
  {
    OneOfTwo(env, t, e, a, f, b);
    id := if HasDelivery(env, t, e, a) then f else e;
  }

  /** No run loses an event, whatever the subscriptions match, exactly if the digest is injective. */
  lemma LossFreeIffInjective(digest: Digest)
    ensures LossFree(digest) <==> Injective(digest)
  {
    if Injective(digest) {
      forall matches: Filter, s: World, trace, id | Initial(s) && ValidTrace(Env(digest, matches), s, trace)
        ensures NotLost(Env(digest, matches), Run(Env(digest, matches), s, trace), id)
      {
        var env := Env(digest, matches);
        RunInv(env, s, trace);
        var t := Run(env, s, trace);
        if id in t.outbox && t.outbox[id].state.Relayed? && id !in t.queue {
          assert Secured(t, id);
          CompletedIsFannedOut(env, t, id);
        }
      }
    } else {
      var e, a, f, b :| digest(e, a) == digest(f, b) && (e != f || a != b);
      var trace, id := CollisionLoses(digest, e, a, f, b);
      assert Everything(digest) == Env(digest, Everything(digest).matches);
    }
  }
}
