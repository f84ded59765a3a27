/** Developer credentials: the key limit over whole histories, and how rotation carries an expiry over. */
module Credentials {
  import opened Distinct
  import opened Records
  import opened Strings

  datatype Record = Record(
    id: string,
    ownerId: string,
    tenantId: string,
    name: string,
    scopes: set<string>,
    revoked: bool,
    createdAt: int,
    expiresAt: int,
    revokedAt: Option<int>,
    rotatedFromId: Option<string>,
    rotatedToId: Option<string>)

  datatype Actor = Actor(ownerId: string, tenantId: string, recentAuthenticationAt: int)

  datatype Policy = Policy(maxActiveKeys: int, maxLifetimeDays: int, maxCreatesPerDay: int, recentAuthenticationMs: int)

  const DAY := 86_400_000
  const DEVELOPER_SCOPES := {"news:read", "research:read", "mcp:read"}

  type Table = map<string, Record>

  /** Whose creations a counter counts, and on which day. */
  datatype CreationKey = CreationKey(ownerId: string, tenantId: string, day: int)

  datatype State = State(records: Table, creations: map<CreationKey, nat>)

  /** A request. Fresh identifiers and clock readings are its inputs. */
  datatype Command =
    | Create(actor: Actor, name: string, scopes: set<string>, lifetimeDays: Option<int>, newId: string, now: int)
    | Rotate(actor: Actor, id: string, newId: string, now: int)
    | Revoke(actor: Actor, id: string, now: int)
    | Delete(actor: Actor, id: string, now: int)
    | DeleteAccount(actor: Actor, now: int)

  datatype Reply = Issued(record: Record) | Done | Refused(code: string)

  predicate Active(r: Record, now: int) {
    !r.revoked && now < r.expiresAt
  }

  predicate Owns(records: Table, ownerId: string, tenantId: string, id: string) {
    id in records && records[id].ownerId == ownerId && records[id].tenantId == tenantId
  }

  function ActiveKeys(records: Table, ownerId: string, tenantId: string, now: int): set<string> {
    set id | id in records && Owns(records, ownerId, tenantId, id) && Active(records[id], now)
  }

  predicate Recent(actor: Actor, now: int, policy: Policy) {
    actor.recentAuthenticationAt <= now && now - actor.recentAuthenticationAt <= policy.recentAuthenticationMs
  }

  function CeilDays(milliseconds: int): int {
    (milliseconds + DAY - 1) / DAY
  }

  function Min(a: int, b: int): int { if a < b then a else b }

  function Max(a: int, b: int): int { if a < b then b else a }

  function Issue(actor: Actor, name: string, scopes: set<string>, lifetimeDays: Option<int>, now: int, policy: Policy,
                 id: string, from: Option<string>): Reply {
    var trimmed := Trim(name);
    var days := Min(if lifetimeDays.Some? then lifetimeDays.value else 30, policy.maxLifetimeDays);
    if trimmed == "" || |trimmed| > 80 then Refused("invalid_name")
    else if scopes == {} || !(scopes <= DEVELOPER_SCOPES) then Refused("invalid_scope")
    else if days < 1 then Refused("invalid_lifetime")
    else Issued(Record(id, actor.ownerId, actor.tenantId, trimmed, scopes, false, now, now + days * DAY, None, from, None))
  }

  function Creations(s: State, key: CreationKey): nat {
    if key in s.creations then s.creations[key] else 0
  }

  /** The creation slot is used up before the input is checked, so a rejected input also counts. */
  function Creating(s: State, policy: Policy, c: Command): (State, Reply)
    requires c.Create?
  {
    var key := CreationKey(c.actor.ownerId, c.actor.tenantId, c.now / DAY);
    if |ActiveKeys(s.records, c.actor.ownerId, c.actor.tenantId, c.now)| >= policy.maxActiveKeys then (s, Refused("key_limit"))
    else if Creations(s, key) >= policy.maxCreatesPerDay then (s, Refused("create_rate"))
    else
      var counted := s.(creations := s.creations[key := Creations(s, key) + 1]);
      match Issue(c.actor, c.name, c.scopes, c.lifetimeDays, c.now, policy, c.newId, None)
      case Issued(record) => (counted.(records := s.records[c.newId := record]), Issued(record))
      case refused => (counted, refused)
  }

  function Rotating(s: State, policy: Policy, c: Command): (State, Reply)
    requires c.Rotate?
  {
    if !Recent(c.actor, c.now, policy) then (s, Refused("recent_authentication_required"))
    else if !Owns(s.records, c.actor.ownerId, c.actor.tenantId, c.id) then (s, Refused("not_found"))
    else if !Active(s.records[c.id], c.now) then (s, Refused("not_active"))
    else
      var previous := s.records[c.id];
      match Issue(c.actor, previous.name, previous.scopes, Some(Max(1, CeilDays(previous.expiresAt - c.now))), c.now, policy,
                  c.newId, Some(c.id))
      case Issued(record) =>
        var retired := previous.(revoked := true, revokedAt := Some(c.now), rotatedToId := Some(c.newId));
        (s.(records := s.records[c.id := retired][c.newId := record]), Issued(record))
      case refused => (s, refused)
  }

  function Execute(s: State, policy: Policy, c: Command): (State, Reply) {
    match c
    case Create(_, _, _, _, _, _) => Creating(s, policy, c)
    case Rotate(_, _, _, _) => Rotating(s, policy, c)
    case Revoke(actor, id, now) =>
      if !Recent(actor, now, policy) then (s, Refused("recent_authentication_required"))
      else if !Owns(s.records, actor.ownerId, actor.tenantId, id) then (s, Refused("not_found"))
      else if !Active(s.records[id], now) then (s, Done)
      else (s.(records := s.records[id := s.records[id].(revoked := true, revokedAt := Some(now))]), Done)
    case Delete(actor, id, now) =>
      if !Recent(actor, now, policy) then (s, Refused("recent_authentication_required"))
      else if !Owns(s.records, actor.ownerId, actor.tenantId, id) then (s, Refused("not_found"))
      else (s.(records := s.records - {id}), Done)
    case DeleteAccount(actor, now) =>
      if !Recent(actor, now, policy) then (s, Refused("recent_authentication_required"))
      else (s.(records := map id | id in s.records && !Owns(s.records, actor.ownerId, actor.tenantId, id) :: s.records[id]), Done)
  }

  class CredentialService {
    const policy: Policy
    var records: Table
    var creations: map<CreationKey, nat>

    constructor (policy: Policy)
      ensures this.policy == policy && Contents() == State(map[], map[])
    {
      this.policy := policy;
      records := map[];
      creations := map[];
    }

    ghost function Contents(): State
      reads this
    {
      State(records, creations)
    }

    method Create(actor: Actor, name: string, scopes: set<string>, lifetimeDays: Option<int>, newId: string, now: int)
      returns (reply: Reply)
      modifies this
      ensures (Contents(), reply)
        == Execute(old(Contents()), policy, Command.Create(actor, name, scopes, lifetimeDays, newId, now))
    {
      var active := ActiveKeys(records, actor.ownerId, actor.tenantId, now);
      if |active| >= policy.maxActiveKeys {
        return Refused("key_limit");
      }
      var ok := ConsumeCreation(actor, now);
      if !ok {
        return Refused("create_rate");
      }
      reply := Issue(actor, name, scopes, lifetimeDays, now, policy, newId, None);
      if reply.Issued? {
        records := records[newId := reply.record];
      }
    }

    method ConsumeCreation(actor: Actor, now: int) returns (ok: bool)
      modifies this
      ensures records == old(records)
      ensures var key := CreationKey(actor.ownerId, actor.tenantId, now / DAY);
        var count := Creations(old(Contents()), key);
        && ok == (count < policy.maxCreatesPerDay)
        && creations == if ok then old(creations)[key := count + 1] else old(creations)
    {
      var key := CreationKey(actor.ownerId, actor.tenantId, now / DAY);
      var count := if key in creations then creations[key] else 0;
      if count >= policy.maxCreatesPerDay {
        return false;
      }
      creations := creations[key := count + 1];
      ok := true;
    }

    method Rotate(actor: Actor, id: string, newId: string, now: int) returns (reply: Reply)
      modifies this
      ensures (Contents(), reply) == Execute(old(Contents()), policy, Command.Rotate(actor, id, newId, now))
    {
      if !Recent(actor, now, policy) {
        return Refused("recent_authentication_required");
      }
      if !Owns(records, actor.ownerId, actor.tenantId, id) {
        return Refused("not_found");
      }
      var previous := records[id];
      if !Active(previous, now) {
        return Refused("not_active");
      }
      reply := Issue(actor, previous.name, previous.scopes, Some(Max(1, CeilDays(previous.expiresAt - now))), now, policy,
                     newId, Some(id));
      if reply.Issued? {
        previous := previous.(revoked := true);
        previous := previous.(revokedAt := Some(now));
        previous := previous.(rotatedToId := Some(newId));
        records := records[id := previous];
        records := records[newId := reply.record];
      }
    }

    method Revoke(actor: Actor, id: string, now: int) returns (reply: Reply)
      modifies this
      ensures (Contents(), reply) == Execute(old(Contents()), policy, Command.Revoke(actor, id, now))
    {
      if !Recent(actor, now, policy) {
        return Refused("recent_authentication_required");
      }
      if !Owns(records, actor.ownerId, actor.tenantId, id) {
        return Refused("not_found");
      }
      if Active(records[id], now) {
        records := records[id := records[id].(revoked := true, revokedAt := Some(now))];
      }
      reply := Done;
    }

    method Delete(actor: Actor, id: string, now: int) returns (reply: Reply)
      modifies this
      ensures (Contents(), reply) == Execute(old(Contents()), policy, Command.Delete(actor, id, now))
    {
      if !Recent(actor, now, policy) {
        return Refused("recent_authentication_required");
      }
      if !Owns(records, actor.ownerId, actor.tenantId, id) {
        return Refused("not_found");
      }
      records := records - {id};
      reply := Done;
    }

    method DeleteAccount(actor: Actor, now: int) returns (reply: Reply)
      modifies this
      ensures (Contents(), reply) == Execute(old(Contents()), policy, Command.DeleteAccount(actor, now))
    {
      if !Recent(actor, now, policy) {
        return Refused("recent_authentication_required");
      }
      records := map id | id in records && !Owns(records, actor.ownerId, actor.tenantId, id) :: records[id];
      reply := Done;
    }
  }

  // ----- rotation and expiry -----

  lemma CeilBounds(milliseconds: int)
    ensures milliseconds <= CeilDays(milliseconds) * DAY < milliseconds + DAY
  {
  }

  /** A rotated key expires within the day that starts at the old expiry exactly when the days left, rounded up, fit
      into the longest lifetime; otherwise it expires earlier than the key it replaces. */
  lemma RotationExpiry(s: State, policy: Policy, c: Command)
    requires c.Rotate? && Execute(s, policy, c).1.Issued?
    ensures var before, after := s.records[c.id].expiresAt, Execute(s, policy, c).1.record.expiresAt;
      && (before <= after < before + DAY <==> CeilDays(before - c.now) <= policy.maxLifetimeDays)
      && (after < before <==> policy.maxLifetimeDays < CeilDays(before - c.now))
  {
    var left := CeilDays(s.records[c.id].expiresAt - c.now);
    CeilBounds(s.records[c.id].expiresAt - c.now);
    if policy.maxLifetimeDays < left {
      assert policy.maxLifetimeDays * DAY <= (left - 1) * DAY;
    }
  }

  // ----- whole histories -----

  predicate FreshId(s: State, c: Command) {
    (c.Create? || c.Rotate?) ==> c.newId !in s.records
  }

  /** Replays commands whose identifiers are unused and whose clock does not go back. */
  predicate Proper(s: State, policy: Policy, since: int, history: seq<Command>)
    decreases |history|
  {
    history == [] ||
    (FreshId(s, history[0]) && since <= history[0].now
     && Proper(Execute(s, policy, history[0]).0, policy, history[0].now, history[1..]))
  }

  function After(s: State, policy: Policy, history: seq<Command>): State
    decreases |history|
  {
    if history == [] then s else After(Execute(s, policy, history[0]).0, policy, history[1..])
  }

  function LastTime(since: int, history: seq<Command>): int {
    if history == [] then since else history[|history| - 1].now
  }

  /** Nobody holds more than the allowed number of active keys, now or later, and no key outlives its longest
      lifetime. */
  ghost predicate WithinPolicy(s: State, policy: Policy, since: int) {
    && (forall owner, tenant :: |ActiveKeys(s.records, owner, tenant, since)| <= Max(0, policy.maxActiveKeys))
    && (forall id :: id in s.records ==>
          s.records[id].createdAt <= since && s.records[id].expiresAt <= s.records[id].createdAt + policy.maxLifetimeDays * DAY)
    && (forall key :: Creations(s, key) <= Max(0, policy.maxCreatesPerDay))
  }

  lemma ActiveShrinks(records: Table, owner: string, tenant: string, since: int, now: int)
    requires since <= now
    ensures |ActiveKeys(records, owner, tenant, now)| <= |ActiveKeys(records, owner, tenant, since)|
  {
    SubsetSize(ActiveKeys(records, owner, tenant, now), ActiveKeys(records, owner, tenant, since));
  }

  lemma CreateKeepsLimit(s: State, policy: Policy, c: Command, owner: string, tenant: string)
    requires c.Create? && FreshId(s, c)
    requires |ActiveKeys(s.records, owner, tenant, c.now)| <= Max(0, policy.maxActiveKeys)
    ensures |ActiveKeys(Execute(s, policy, c).0.records, owner, tenant, c.now)| <= Max(0, policy.maxActiveKeys)
  {
    var before, after := ActiveKeys(s.records, owner, tenant, c.now),
                         ActiveKeys(Execute(s, policy, c).0.records, owner, tenant, c.now);
    if c.actor.ownerId == owner && c.actor.tenantId == tenant {
      SubsetSize(after, before + {c.newId});
    } else {
      assert after == before;
    }
  }

  /** A rotation retires the old key in the same step in which the new one becomes active. */
  lemma RotatedKeys(s: State, policy: Policy, c: Command, owner: string, tenant: string)
    requires c.Rotate? && Execute(s, policy, c).1.Issued?
    ensures var before, after := ActiveKeys(s.records, owner, tenant, c.now),
                                 ActiveKeys(Execute(s, policy, c).0.records, owner, tenant, c.now);
      if c.actor.ownerId == owner && c.actor.tenantId == tenant then c.id in before && after <= before - {c.id} + {c.newId}
      else after <= before
  {
    var records := Execute(s, policy, c).0.records;
    assert forall id :: id in records && id != c.id && id != c.newId ==> id in s.records && records[id] == s.records[id];
    assert c.id != c.newId ==> records[c.id].revoked;
  }

  lemma SwapInSet<T>(after: set<T>, before: set<T>, x: T, y: T)
    requires x in before && after <= before - {x} + {y}
    ensures |after| <= |before|
  {
    SubsetSize(after, before - {x} + {y});
  }

  lemma RotateKeepsLimit(s: State, policy: Policy, c: Command, owner: string, tenant: string)
    requires c.Rotate?
    ensures |ActiveKeys(Execute(s, policy, c).0.records, owner, tenant, c.now)| <= |ActiveKeys(s.records, owner, tenant, c.now)|
  {
    if Execute(s, policy, c).1.Issued? {
      var before, after := ActiveKeys(s.records, owner, tenant, c.now),
                           ActiveKeys(Execute(s, policy, c).0.records, owner, tenant, c.now);
      RotatedKeys(s, policy, c, owner, tenant);
      if c.actor.ownerId == owner && c.actor.tenantId == tenant {
        SwapInSet(after, before, c.id, c.newId);
      } else {
        SubsetSize(after, before);
      }
    }
  }

  lemma OthersKeepLimit(s: State, policy: Policy, c: Command, owner: string, tenant: string)
    requires !c.Create? && !c.Rotate?
    ensures |ActiveKeys(Execute(s, policy, c).0.records, owner, tenant, c.now)| <= |ActiveKeys(s.records, owner, tenant, c.now)|
  {
    SubsetSize(ActiveKeys(Execute(s, policy, c).0.records, owner, tenant, c.now), ActiveKeys(s.records, owner, tenant, c.now));
  }

  lemma StepWithinPolicy(s: State, policy: Policy, since: int, c: Command)
    requires WithinPolicy(s, policy, since) && FreshId(s, c) && since <= c.now
    ensures WithinPolicy(Execute(s, policy, c).0, policy, c.now)
  {
    forall owner, tenant
      ensures |ActiveKeys(Execute(s, policy, c).0.records, owner, tenant, c.now)| <= Max(0, policy.maxActiveKeys)
    {
      ActiveShrinks(s.records, owner, tenant, since, c.now);
      if c.Create? {
        CreateKeepsLimit(s, policy, c, owner, tenant);
      } else if c.Rotate? {
        RotateKeepsLimit(s, policy, c, owner, tenant);
      } else {
        OthersKeepLimit(s, policy, c, owner, tenant);
      }
    }
    LifetimesKept(s, policy, since, c);
    CreationsKept(s, policy, c);
  }

  lemma LifetimesKept(s: State, policy: Policy, since: int, c: Command)
    requires since <= c.now
    requires forall id :: id in s.records ==>
      s.records[id].createdAt <= since && s.records[id].expiresAt <= s.records[id].createdAt + policy.maxLifetimeDays * DAY
    ensures var after := Execute(s, policy, c).0.records;
      forall id :: id in after ==>
        after[id].createdAt <= c.now && after[id].expiresAt <= after[id].createdAt + policy.maxLifetimeDays * DAY
  {
    forall days | days <= policy.maxLifetimeDays
      ensures days * DAY <= policy.maxLifetimeDays * DAY
    {
    }
  }

  lemma CreationsKept(s: State, policy: Policy, c: Command)
    requires forall key :: Creations(s, key) <= Max(0, policy.maxCreatesPerDay)
    ensures forall key :: Creations(Execute(s, policy, c).0, key) <= Max(0, policy.maxCreatesPerDay)
  {
    var after := Execute(s, policy, c).0;
    forall key
      ensures Creations(after, key) <= Max(0, policy.maxCreatesPerDay)
    {
      assert Creations(s, key) <= Max(0, policy.maxCreatesPerDay);
      assert Creations(after, key) == Creations(s, key)
        || (Creations(s, key) < policy.maxCreatesPerDay && Creations(after, key) == Creations(s, key) + 1);
    }
  }

  /** The limits hold after every proper history. */
  lemma {:induction false} HistoryWithinPolicy(s: State, policy: Policy, since: int, history: seq<Command>)
    requires WithinPolicy(s, policy, since) && Proper(s, policy, since, history)
    ensures WithinPolicy(After(s, policy, history), policy, LastTime(since, history))
    decreases |history|
  {
    if history != [] {
      StepWithinPolicy(s, policy, since, history[0]);
      HistoryWithinPolicy(Execute(s, policy, history[0]).0, policy, history[0].now, history[1..]);
    }
  }

  /** In a service that started empty, rotation always carries the expiry over: never earlier, and less than a day
      later. */
  lemma RotationCarriesExpiry(policy: Policy, start: int, history: seq<Command>, c: Command)
    requires Proper(State(map[], map[]), policy, start, history)
    requires c.Rotate? && LastTime(start, history) <= c.now
    requires Execute(After(State(map[], map[]), policy, history), policy, c).1.Issued?
    ensures var s := After(State(map[], map[]), policy, history);
      s.records[c.id].expiresAt <= Execute(s, policy, c).1.record.expiresAt < s.records[c.id].expiresAt + DAY
  {
    var empty := State(map[], map[]);
    assert forall owner, tenant :: ActiveKeys(empty.records, owner, tenant, start) == {};
    HistoryWithinPolicy(empty, policy, start, history);
    var s := After(empty, policy, history);
    RotationExpiry(s, policy, c);
    CeilFits(s.records[c.id].expiresAt - c.now, policy.maxLifetimeDays);
  }

  lemma CeilFits(milliseconds: int, days: int)
    requires milliseconds <= days * DAY
    ensures CeilDays(milliseconds) <= days
  {
    CeilBounds(milliseconds);
  }

  // ----- creations per day -----

  predicate CountsFor(c: Command, key: CreationKey) {
    c.Create? && key == CreationKey(c.actor.ownerId, c.actor.tenantId, c.now / DAY)
  }

  /** How many keys a history actually creates for one owner on one day. */
  function CreatedOn(s: State, policy: Policy, history: seq<Command>, key: CreationKey): nat
    decreases |history|
  {
    if history == [] then 0
    else (if CountsFor(history[0], key) && Execute(s, policy, history[0]).1.Issued? then 1 else 0)
         + CreatedOn(Execute(s, policy, history[0]).0, policy, history[1..], key)
  }

  /** Whatever the clock does, the keys created on one day never exceed the daily limit. */
  lemma {:induction false} CreatedWithinLimit(s: State, policy: Policy, history: seq<Command>, key: CreationKey)
    requires forall k :: Creations(s, k) <= Max(0, policy.maxCreatesPerDay)
    ensures Creations(s, key) + CreatedOn(s, policy, history, key) <= Max(0, policy.maxCreatesPerDay)
    decreases |history|
  {
    if history != [] {
      CreationsKept(s, policy, history[0]);
      CreatedWithinLimit(Execute(s, policy, history[0]).0, policy, history[1..], key);
      CreationCounted(s, policy, history[0], key);
    }
  }

  lemma CreationCounted(s: State, policy: Policy, c: Command, key: CreationKey)
    ensures Creations(s, key) + (if CountsFor(c, key) && Execute(s, policy, c).1.Issued? then 1 else 0)
      <= Creations(Execute(s, policy, c).0, key)
  {
  }
}
