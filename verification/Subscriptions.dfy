/** Webhook subscriptions: their life cycle, their signing keys, and what every history of
    commands leaves true of the stored records. Each method is atomic here. */
module Subscriptions {
  import opened Records

  datatype SubscriptionState = Unverified | Active | Paused | Disabled | Deleted

  datatype ProtectedKey = ProtectedKey(id: string, ciphertext: string, expiresAt: Option<int>)

  datatype Subscription = Subscription(
    id: string,
    ownerId: string,
    tenantId: string,
    endpoint: string,
    state: SubscriptionState,
    activeKey: ProtectedKey,
    previousKeys: seq<ProtectedKey>,
    verifiedAt: Option<int>,
    pausedReason: Option<string>,
    deletedAt: Option<int>)

  datatype Actor = Actor(ownerId: string, tenantId: string, canReplay: bool)

  const MAX_OVERLAP_SECONDS := 604_800

  /** A request to the service. Identifiers, sealed secrets and clock readings are its inputs. */
  datatype Command =
    | Create(actor: Actor, id: string, endpoint: string, keyId: string, ciphertext: string)
    | Activate(actor: Actor, id: string, now: int)
    | Pause(actor: Actor, id: string, reason: string)
    | Disable(id: string, reason: string)
    | Rotate(actor: Actor, id: string, overlapSeconds: int, keyId: string, ciphertext: string, now: int)
    | Delete(actor: Actor, id: string, now: int)

  predicate PlainChar(c: char) {
    'a' <= c <= 'z' || 'A' <= c <= 'Z' || '0' <= c <= '9' || c == '_' || c == '.' || c == '-'
  }

  /** A reason fit for an audit record: plain characters only, never empty, at most 120 long. */
  function BoundedReason(reason: string): (r: string)
    ensures 1 <= |r| <= 120 && forall i :: 0 <= i < |r| ==> PlainChar(r[i])
    ensures reason != "" ==>
      |r| == (if |reason| <= 120 then |reason| else 120)
      && forall i :: 0 <= i < |r| ==> r[i] == reason[i] || (!PlainChar(reason[i]) && r[i] == '_')
    ensures reason == "" ==> r == "unspecified"
  {
    var plain := seq(if |reason| <= 120 then |reason| else 120, i requires 0 <= i < |reason| =>
      if PlainChar(reason[i]) then reason[i] else '_');
    if plain == [] then "unspecified" else plain
  }

  /** Bounding again, as the audit trail does, changes nothing; a reason that is already fit is kept whole. */
  lemma BoundedReasonKeeps(reason: string)
    ensures BoundedReason(reason) == reason <==>
      1 <= |reason| <= 120 && forall i :: 0 <= i < |reason| ==> PlainChar(reason[i])
    ensures BoundedReason(BoundedReason(reason)) == BoundedReason(reason)
  {
    var r := BoundedReason(reason);
    if 1 <= |reason| <= 120 && forall i :: 0 <= i < |reason| ==> PlainChar(reason[i]) {
      assert r == reason;
    }
    assert BoundedReason(r) == r;
  }

  type Table = map<string, Subscription>

  predicate Owned(records: Table, actor: Actor, id: string) {
    id in records && records[id].state != Deleted
    && records[id].ownerId == actor.ownerId && records[id].tenantId == actor.tenantId
  }

  /** Whether the service carries the command out instead of raising an error. */
  predicate Accepts(records: Table, c: Command) {
    match c
    case Create(_, _, _, _, _) => true
    case Activate(actor, id, _) => Owned(records, actor, id) && (records[id].state == Unverified || records[id].state == Paused)
    case Pause(actor, id, _) => Owned(records, actor, id)
    case Disable(id, _) => id in records && records[id].state != Deleted
    case Rotate(actor, id, overlap, _, _, _) => 0 <= overlap <= MAX_OVERLAP_SECONDS && Owned(records, actor, id)
    case Delete(actor, id, _) => Owned(records, actor, id)
  }

  function Changed(records: Table, c: Command): Subscription
    requires Accepts(records, c)
  {
    match c
    case Create(actor, id, endpoint, keyId, ciphertext) =>
      Subscription(id, actor.ownerId, actor.tenantId, endpoint, Unverified,
                   ProtectedKey(keyId, ciphertext, None), [], None, None, None)
    case Activate(_, id, now) => records[id].(state := Active, verifiedAt := Some(now), pausedReason := None)
    case Pause(_, id, reason) => records[id].(state := Paused, pausedReason := Some(BoundedReason(reason)))
    case Disable(id, reason) => records[id].(state := Disabled, pausedReason := Some(BoundedReason(reason)))
    case Rotate(_, id, overlap, keyId, ciphertext, now) =>
      records[id].(previousKeys := [records[id].activeKey.(expiresAt := Some(now + overlap * 1000))],
                   activeKey := ProtectedKey(keyId, ciphertext, None))
    case Delete(_, id, now) =>
      records[id].(state := Deleted, deletedAt := Some(now), previousKeys := [],
                   activeKey := ProtectedKey(records[id].activeKey.id, "", None))
  }

  function Execute(records: Table, c: Command): Table {
    if Accepts(records, c) then records[c.id := Changed(records, c)] else records
  }

  class SubscriptionService {
    var records: Table

    constructor ()
      ensures records == map[]
    {
      records := map[];
    }

    method Create(actor: Actor, id: string, endpoint: string, keyId: string, ciphertext: string)
      modifies this
      ensures records == Execute(old(records), Command.Create(actor, id, endpoint, keyId, ciphertext))
    {
      var key := ProtectedKey(keyId, ciphertext, None);
      records := records[id := Subscription(id, actor.ownerId, actor.tenantId, endpoint, Unverified, key, [], None, None, None)];
    }

    method Activate(actor: Actor, id: string, now: int) returns (ok: bool)
      modifies this
      ensures ok <==> Accepts(old(records), Command.Activate(actor, id, now))
      ensures records == Execute(old(records), Command.Activate(actor, id, now))
    {
      if !Owned(records, actor, id) || (records[id].state != Unverified && records[id].state != Paused) {
        return false;
      }
      var record := records[id];
      record := record.(state := Active);
      record := record.(verifiedAt := Some(now));
      record := record.(pausedReason := None);
      records := records[id := record];
      ok := true;
    }

    method Pause(actor: Actor, id: string, reason: string) returns (ok: bool)
      modifies this
      ensures ok <==> Accepts(old(records), Command.Pause(actor, id, reason))
      ensures records == Execute(old(records), Command.Pause(actor, id, reason))
    {
      if !Owned(records, actor, id) {
        return false;
      }
      records := records[id := records[id].(state := Paused, pausedReason := Some(BoundedReason(reason)))];
      ok := true;
    }

    method Disable(id: string, reason: string)
      modifies this
      ensures records == Execute(old(records), Command.Disable(id, reason))
    {
      if id !in records || records[id].state == Deleted {
        return;
      }
      records := records[id := records[id].(state := Disabled, pausedReason := Some(BoundedReason(reason)))];
    }

    method Rotate(actor: Actor, id: string, overlapSeconds: int, keyId: string, ciphertext: string, now: int)
      returns (ok: bool)
      modifies this
      ensures ok <==> Accepts(old(records), Command.Rotate(actor, id, overlapSeconds, keyId, ciphertext, now))
      ensures records == Execute(old(records), Command.Rotate(actor, id, overlapSeconds, keyId, ciphertext, now))
    {
      if overlapSeconds < 0 || overlapSeconds > MAX_OVERLAP_SECONDS || !Owned(records, actor, id) {
        return false;
      }
      var record := records[id];
      record := record.(previousKeys := [record.activeKey.(expiresAt := Some(now + overlapSeconds * 1000))]);
      record := record.(activeKey := ProtectedKey(keyId, ciphertext, None));
      records := records[id := record];
      ok := true;
    }

    /** The keys for signing and verifying; `None` stands for the error on a subscription that is not active. */
    method ReadSigningKeys(id: string, now: int) returns (keys: Option<Keys>)
      ensures keys == SigningKeys(records, id, now)
    {
      if id !in records || records[id].state != Active {
        return None;
      }
      var record := records[id];
      var verify := map[record.activeKey.id := record.activeKey.ciphertext];
      ghost var first := verify;
      for i := 0 to |record.previousKeys|
        invariant verify == WithPrevious(first, record.previousKeys[..i], now)
      {
        var previous := record.previousKeys[i];
        assert record.previousKeys[..i + 1][..i] == record.previousKeys[..i];
        if previous.expiresAt.Some? && previous.expiresAt.value > now {
          verify := verify[previous.id := previous.ciphertext];
        }
      }
      assert record.previousKeys[..|record.previousKeys|] == record.previousKeys;
      keys := Some(Keys(record.activeKey.id, verify));
    }

    method Delete(actor: Actor, id: string, now: int) returns (ok: bool)
      modifies this
      ensures ok <==> Accepts(old(records), Command.Delete(actor, id, now))
      ensures records == Execute(old(records), Command.Delete(actor, id, now))
    {
      if !Owned(records, actor, id) {
        return false;
      }
      var record := records[id].(state := Deleted, deletedAt := Some(now));
      record := record.(activeKey := ProtectedKey(record.activeKey.id, "", None), previousKeys := []);
      records := records[id := record];
      ok := true;
    }
  }

  // ----- what every history keeps -----

  /** Active means verified, at most one previous key survives and it can expire, and exactly the
      deleted records have had their key material erased. */
  predicate RecordOk(r: Subscription) {
    && (r.state == Active ==> r.verifiedAt.Some?)
    && |r.previousKeys| <= 1
    && (forall k :: k in r.previousKeys ==> k.expiresAt.Some? && k.ciphertext != "")
    && (r.state == Deleted <==> r.deletedAt.Some?)
    && (r.state == Deleted <==> r.activeKey.ciphertext == "")
    && (r.state == Deleted ==> r.previousKeys == [])
  }

  ghost predicate TableOk(records: Table) {
    forall id :: id in records ==> records[id].id == id && RecordOk(records[id])
  }

  /** What the random sources guarantee: new ids are unused and a sealed secret is never empty. */
  predicate FreshInputs(records: Table, c: Command) {
    && (c.Create? ==> c.id !in records && c.ciphertext != "")
    && (c.Rotate? ==> c.ciphertext != "")
  }

  lemma StepKeepsTable(records: Table, c: Command)
    requires TableOk(records) && FreshInputs(records, c)
    ensures TableOk(Execute(records, c))
  {
  }

  function History(records: Table, commands: seq<Command>): Table
    decreases |commands|
  {
    if commands == [] then records else History(Execute(records, commands[0]), commands[1..])
  }

  predicate FreshHistory(records: Table, commands: seq<Command>)
    decreases |commands|
  {
    commands == [] || (FreshInputs(records, commands[0]) && FreshHistory(Execute(records, commands[0]), commands[1..]))
  }

  lemma {:induction false} HistoryKeepsTable(records: Table, commands: seq<Command>)
    requires TableOk(records) && FreshHistory(records, commands)
    ensures TableOk(History(records, commands))
    decreases |commands|
  {
    if commands != [] {
      StepKeepsTable(records, commands[0]);
      HistoryKeepsTable(Execute(records, commands[0]), commands[1..]);
    }
  }

  /** Deletion is absorbing: no later history changes a deleted record in any field. */
  lemma {:induction false} DeletedForever(records: Table, commands: seq<Command>, id: string)
    requires FreshHistory(records, commands) && id in records && records[id].state == Deleted
    ensures id in History(records, commands) && History(records, commands)[id] == records[id]
    decreases |commands|
  {
    if commands != [] {
      DeletedForever(Execute(records, commands[0]), commands[1..], id);
    }
  }

  predicate Reactivates(c: Command, id: string) {
    c.Activate? && c.id == id
  }

  /** Only a successful activation makes a subscription active. */
  lemma {:induction false} InactiveUntilActivated(records: Table, commands: seq<Command>, id: string)
    requires FreshHistory(records, commands) && id in records && records[id].state != Active
    requires forall i :: 0 <= i < |commands| ==> !Reactivates(commands[i], id)
    ensures id in History(records, commands) && History(records, commands)[id].state != Active
    decreases |commands|
  {
    if commands != [] {
      assert !Reactivates(commands[0], id);
      assert forall i :: 0 <= i < |commands[1..]| ==> commands[1..][i] == commands[i + 1];
      InactiveUntilActivated(Execute(records, commands[0]), commands[1..], id);
    }
  }

  // ----- signing keys -----

  /** The key a delivery is signed with and, by key id, the sealed secrets a receiver may verify with. */
  datatype Keys = Keys(activeId: string, verify: map<string, string>)

  predicate Unexpired(k: ProtectedKey, now: int) {
    k.expiresAt.Some? && k.expiresAt.value > now
  }

  /** The verification keys after adding those previous keys whose overlap has not ended. */
  function WithPrevious(verify: map<string, string>, previous: seq<ProtectedKey>, now: int): map<string, string> {
    if previous == [] then verify
    else
      var n := |previous| - 1;
      var earlier := WithPrevious(verify, previous[..n], now);
      if Unexpired(previous[n], now) then earlier[previous[n].id := previous[n].ciphertext] else earlier
  }

  /** Nothing at all unless the subscription is active. */
  function SigningKeys(records: Table, id: string, now: int): Option<Keys> {
    if id !in records || records[id].state != Active then None
    else
      var r := records[id];
      Some(Keys(r.activeKey.id, WithPrevious(map[r.activeKey.id := r.activeKey.ciphertext], r.previousKeys, now)))
  }

  lemma {:induction false} WithPreviousKeys(verify: map<string, string>, previous: seq<ProtectedKey>, now: int)
    ensures forall id :: id in WithPrevious(verify, previous, now) <==>
      id in verify || exists k :: k in previous && Unexpired(k, now) && k.id == id
  {
    if previous != [] {
      var n := |previous| - 1;
      WithPreviousKeys(verify, previous[..n], now);
      assert previous == previous[..n] + [previous[n]];
    }
  }

  predicate Verifies(records: Table, id: string, key: string, now: int) {
    SigningKeys(records, id, now).Some? && key in SigningKeys(records, id, now).value.verify
  }

  /** An accepted rotation or deletion: what ends the overlap of a replaced key early. */
  predicate Cuts(records: Table, c: Command, id: string) {
    (c.Rotate? || c.Delete?) && c.id == id && Accepts(records, c)
  }

  predicate Cut(records: Table, commands: seq<Command>, id: string)
    decreases |commands|
  {
    commands != [] && (Cuts(records, commands[0], id) || Cut(Execute(records, commands[0]), commands[1..], id))
  }

  /** New keys never reuse this key id. */
  predicate Unrepeated(commands: seq<Command>, key: string) {
    forall i :: 0 <= i < |commands| && (commands[i].Rotate? || commands[i].Create?) ==> commands[i].keyId != key
  }

  predicate Forgotten(r: Subscription, key: string) {
    r.activeKey.id != key && forall k :: k in r.previousKeys ==> k.id != key
  }

  /** While nothing cuts in, the keys of a subscription stay as they are; refused commands do not count. */
  lemma {:induction false} UncutKeysStay(records: Table, commands: seq<Command>, id: string)
    requires FreshHistory(records, commands) && id in records && !Cut(records, commands, id)
    ensures id in History(records, commands)
    ensures History(records, commands)[id].activeKey == records[id].activeKey
    ensures History(records, commands)[id].previousKeys == records[id].previousKeys
    decreases |commands|
  {
    if commands != [] {
      UncutKeysStay(Execute(records, commands[0]), commands[1..], id);
    }
  }

  /** A key that is gone stays gone. */
  lemma {:induction false} ForgottenForever(records: Table, commands: seq<Command>, id: string, key: string)
    requires FreshHistory(records, commands) && id in records && Forgotten(records[id], key) && Unrepeated(commands, key)
    ensures id in History(records, commands) && Forgotten(History(records, commands)[id], key)
    decreases |commands|
  {
    if commands != [] {
      assert forall i :: 0 <= i < |commands[1..]| ==> commands[1..][i] == commands[i + 1];
      ForgottenForever(Execute(records, commands[0]), commands[1..], id, key);
    }
  }

  /** The first cut leaves a previous key behind: whoever was only a previous key is gone after it. */
  lemma {:induction false} CutForgets(records: Table, commands: seq<Command>, id: string, key: string)
    requires FreshHistory(records, commands) && id in records && records[id].activeKey.id != key
    requires Unrepeated(commands, key) && Cut(records, commands, id)
    ensures id in History(records, commands) && Forgotten(History(records, commands)[id], key)
    decreases |commands|
  {
    var next := Execute(records, commands[0]);
    assert forall i :: 0 <= i < |commands[1..]| ==> commands[1..][i] == commands[i + 1];
    if Cuts(records, commands[0], id) {
      assert Forgotten(next[id], key);
      ForgottenForever(next, commands[1..], id, key);
    } else {
      CutForgets(next, commands[1..], id, key);
    }
  }

  lemma VerifiesIff(records: Table, id: string, key: string, now: int)
    requires id in records
    ensures Verifies(records, id, key, now) <==>
      records[id].state == Active
      && (records[id].activeKey.id == key || exists k :: k in records[id].previousKeys && Unexpired(k, now) && k.id == key)
  {
    var r := records[id];
    WithPreviousKeys(map[r.activeKey.id := r.activeKey.ciphertext], r.previousKeys, now);
  }

  /** After a rotation, and after any further history, a receiver may verify with the replaced key exactly when the
      subscription is active, the overlap has not ended, and no accepted rotation or deletion came in between. */
  lemma RotationOverlap(records: Table, rotate: Command, commands: seq<Command>, at: int)
    requires rotate.Rotate? && Accepts(records, rotate)
    requires FreshHistory(Execute(records, rotate), commands)
    requires Unrepeated([rotate] + commands, records[rotate.id].activeKey.id)
    ensures var later := History(Execute(records, rotate), commands);
      rotate.id in later
      && (Verifies(later, rotate.id, records[rotate.id].activeKey.id, at) <==>
            later[rotate.id].state == Active && at < rotate.now + rotate.overlapSeconds * 1000
            && !Cut(Execute(records, rotate), commands, rotate.id))
      && (!Cut(Execute(records, rotate), commands, rotate.id) ==> later[rotate.id].activeKey.id == rotate.keyId)
  {
    var rotated, replaced := Execute(records, rotate), records[rotate.id].activeKey.id;
    assert ([rotate] + commands)[0] == rotate;
    assert forall i :: 0 <= i < |commands| ==> commands[i] == ([rotate] + commands)[i + 1];
    if Cut(rotated, commands, rotate.id) {
      CutForgets(rotated, commands, rotate.id, replaced);
    } else {
      UncutKeysStay(rotated, commands, rotate.id);
      var previous := History(rotated, commands)[rotate.id].previousKeys;
      assert previous[0] in previous;
    }
    VerifiesIff(History(rotated, commands), rotate.id, replaced, at);
  }

  /** A second rotation ends the overlap of the first at once, however much of it was left. */
  lemma SecondRotationDropsOldest(records: Table, first: Command, second: Command, at: int)
    requires first.Rotate? && second.Rotate? && first.id == second.id
    requires Accepts(records, first) && Accepts(Execute(records, first), second) && second.ciphertext != ""
    requires Unrepeated([first, second], records[first.id].activeKey.id)
    ensures !Verifies(Execute(Execute(records, first), second), first.id, records[first.id].activeKey.id, at)
  {
    var rotated := Execute(records, first);
    assert [first] + [second] == [first, second];
    assert [second][1..] == [];
    assert Cuts(rotated, [second][0], first.id);
    assert FreshHistory(rotated, [second]) && History(rotated, [second]) == Execute(rotated, second);
    RotationOverlap(records, first, [second], at);
  }
}
