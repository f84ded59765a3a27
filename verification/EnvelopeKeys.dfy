/** Envelope encryption: data keys created under a race, and secrets sealed with them.

    The cipher and the base64url alphabet are parameters; `Sound` states everything that is assumed
    of them. A KMS key id stands for the same master key at every instance that holds it. */
module EnvelopeKeys {
  import opened Records

  type Bytes = seq<bv8>
  type KeyId = string

  datatype Sealed = Sealed(tag: Bytes, body: Bytes)

  /** An authenticated cipher, an encoder for its byte strings, and the master key behind each KMS key id. */
  datatype Crypto = Crypto(
    seal: (Bytes, Bytes, string, Bytes) -> Sealed,
    open: (Bytes, Bytes, string, Sealed) -> Option<Bytes>,
    encode: Bytes -> string,
    decode: string -> Bytes,
    master: KeyId -> Bytes)

  /** Opening what was sealed under the same key, nonce and associated data gives the plaintext back, and the
      encoding is reversible and never contains the separator. */
  ghost predicate Sound(c: Crypto) {
    && (forall key, iv, aad, plain :: c.open(key, iv, aad, c.seal(key, iv, aad, plain)) == Some(plain))
    && (forall b :: c.decode(c.encode(b)) == b && '.' !in c.encode(b))
  }

  // ----- the dotted form -----

  function Join(parts: seq<string>): string {
    if parts == [] then ""
    else if |parts| == 1 then parts[0]
    else parts[0] + "." + Join(parts[1..])
  }

  /** Splits at every dot; always yields at least one part. */
  function Split(text: string): (parts: seq<string>)
    ensures parts != []
  {
    if text == "" then [""]
    else
      var rest := Split(text[1..]);
      if text[0] == '.' then [""] + rest else [[text[0]] + rest[0]] + rest[1..]
  }

  lemma {:induction false} SplitAtDot(head: string, tail: string)
    requires '.' !in head
    ensures Split(head + "." + tail) == [head] + Split(tail)
  {
    if head == "" {
      assert ("" + "." + tail)[1..] == tail;
    } else {
      SplitAtDot(head[1..], tail);
      assert (head + "." + tail)[1..] == head[1..] + "." + tail;
      assert [head[0]] + head[1..] == head;
    }
  }

  lemma {:induction false} SplitPlain(text: string)
    requires '.' !in text
    ensures Split(text) == [text]
  {
    if text != "" {
      SplitPlain(text[1..]);
      assert [text[0]] + text[1..] == text;
    }
  }

  lemma {:induction false} SplitPartsPlain(text: string)
    ensures forall i :: 0 <= i < |Split(text)| ==> '.' !in Split(text)[i]
  {
    if text != "" {
      SplitPartsPlain(text[1..]);
    }
  }

  lemma {:induction false} SplitJoinPlain(parts: seq<string>)
    requires parts != [] && forall i :: 0 <= i < |parts| ==> '.' !in parts[i]
    ensures Split(Join(parts)) == parts
  {
    if |parts| == 1 {
      SplitPlain(parts[0]);
    } else {
      SplitJoinPlain(parts[1..]);
      SplitAtDot(parts[0], Join(parts[1..]));
      assert [parts[0]] + parts[1..] == parts;
    }
  }

  /** Splitting undoes joining exactly when no part contains the separator. */
  lemma SplitUndoesJoinIff(parts: seq<string>)
    requires parts != []
    ensures Split(Join(parts)) == parts <==> forall i :: 0 <= i < |parts| ==> '.' !in parts[i]
  {
    SplitPartsPlain(Join(parts));
    if forall i :: 0 <= i < |parts| ==> '.' !in parts[i] {
      SplitJoinPlain(parts);
    }
  }

  // ----- wrapping data keys -----

  datatype Wrapped = Wrapped(keyId: KeyId, ciphertext: string)

  function Encoded(c: Crypto, iv: Bytes, sealed: Sealed): seq<string> {
    [c.encode(iv), c.encode(sealed.tag), c.encode(sealed.body)]
  }

  function Wrap(c: Crypto, active: KeyId, iv: Bytes, dataKey: Bytes): Wrapped {
    Wrapped(active, Join(Encoded(c, iv, c.seal(c.master(active), iv, active, dataKey))))
  }

  /** `None` for an unheld key version, a malformed ciphertext, or a failed authentication. */
  function Unwrap(c: Crypto, held: set<KeyId>, w: Wrapped): Option<Bytes> {
    var parts := Split(w.ciphertext);
    if w.keyId !in held || |parts| != 3 then None
    else c.open(c.master(w.keyId), c.decode(parts[0]), w.keyId, Sealed(c.decode(parts[1]), c.decode(parts[2])))
  }

  lemma UnwrapUndoesWrap(c: Crypto, held: set<KeyId>, active: KeyId, iv: Bytes, dataKey: Bytes)
    requires Sound(c)
    ensures Unwrap(c, held, Wrap(c, active, iv, dataKey)) == if active in held then Some(dataKey) else None
  {
    var sealed := c.seal(c.master(active), iv, active, dataKey);
    SplitUndoesJoinIff(Encoded(c, iv, sealed));
    assert sealed == Sealed(sealed.tag, sealed.body);
  }

  // ----- sealing secrets -----

  function Encrypt(c: Crypto, keyId: KeyId, dataKey: Bytes, iv: Bytes, secret: Bytes): string {
    Join(["v1", keyId] + Encoded(c, iv, c.seal(dataKey, iv, keyId, secret)))
  }

  function Decrypt(c: Crypto, dataKeys: map<KeyId, Bytes>, text: string): Option<Bytes> {
    var parts := Split(text);
    if parts[0] != "v1" || |parts| != 5 || parts[1] !in dataKeys then None
    else c.open(dataKeys[parts[1]], c.decode(parts[2]), parts[1], Sealed(c.decode(parts[3]), c.decode(parts[4])))
  }

  /** A sealed secret opens wherever the same data key is held under the same id; without that id it does not.
      The id must be free of dots, as the keyring's id pattern requires. */
  lemma DecryptUndoesEncrypt(c: Crypto, dataKeys: map<KeyId, Bytes>, keyId: KeyId, dataKey: Bytes, iv: Bytes, secret: Bytes)
    requires Sound(c) && '.' !in keyId
    ensures keyId in dataKeys && dataKeys[keyId] == dataKey ==>
              Decrypt(c, dataKeys, Encrypt(c, keyId, dataKey, iv, secret)) == Some(secret)
    ensures keyId !in dataKeys ==> Decrypt(c, dataKeys, Encrypt(c, keyId, dataKey, iv, secret)) == None
  {
    var sealed := c.seal(dataKey, iv, keyId, secret);
    var parts := ["v1", keyId] + Encoded(c, iv, sealed);
    SplitUndoesJoinIff(parts);
    assert parts == ["v1", keyId, c.encode(iv), c.encode(sealed.tag), c.encode(sealed.body)];
    assert sealed == Sealed(sealed.tag, sealed.body);
  }

  // ----- instances racing through initialize -----

  /** How far an instance has come: it has loaded the table, prepared a wrapped key of its own, stored it if
      nobody was first, or finished. */
  datatype Stage =
    | Fresh
    | Loaded
    | Prepared(dataKey: Bytes, wrapped: Wrapped)
    | Saved(dataKey: Bytes)
    | Ready

  /** A process: the KMS key ids it holds, the one it wraps with, and the data keys it has in memory. */
  datatype Instance = Instance(held: set<KeyId>, active: KeyId, dataKeys: map<KeyId, Bytes>, stage: Stage)

  datatype State = State(table: map<KeyId, string>, instances: map<nat, Instance>)

  datatype Action =
    | Load(i: nat)
    | Prepare(i: nat, dataKey: Bytes, iv: Bytes)
    | Save(i: nat)
    | Reload(i: nat)
    | Restart(i: nat)

  function Row(s: State, id: KeyId): Wrapped
    requires id in s.table
  {
    Wrapped(id, s.table[id])
  }

  /** The data key the table gives an instance that holds `id`. */
  function Stored(c: Crypto, s: State, held: set<KeyId>, id: KeyId): Option<Bytes> {
    if id in s.table then Unwrap(c, held, Row(s, id)) else None
  }

  /** Every row that unwraps; the others are skipped. */
  function Unwrapped(c: Crypto, s: State, held: set<KeyId>): map<KeyId, Bytes> {
    map id | id in s.table && Stored(c, s, held, id).Some? :: Stored(c, s, held, id).value
  }

  predicate Enabled(c: Crypto, s: State, a: Action) {
    a.i in s.instances
    && match a
       case Load(i) => s.instances[i].stage.Fresh? || s.instances[i].stage.Ready?
       case Prepare(i, _, _) => s.instances[i].stage.Loaded? && s.instances[i].active !in s.instances[i].dataKeys
       case Save(i) => s.instances[i].stage.Prepared?
       case Reload(i) => s.instances[i].stage.Saved?
                         && (s.instances[i].active in s.table ==> Stored(c, s, s.instances[i].held, s.instances[i].active).Some?)
       case Restart(_) => true
  }

  function Apply(c: Crypto, s: State, a: Action): State
    requires Enabled(c, s, a)
  {
    var p := s.instances[a.i];
    match a
    case Load(i) =>
      var keys := p.dataKeys + Unwrapped(c, s, p.held);
      s.(instances := s.instances[i := p.(dataKeys := keys, stage := if p.active in keys then Ready else Loaded)])
    case Prepare(i, dataKey, iv) =>
      s.(instances := s.instances[i := p.(stage := Prepared(dataKey, Wrap(c, p.active, iv, dataKey)))])
    case Save(i) =>
      var w := p.stage.wrapped;
      State(if w.keyId in s.table then s.table else s.table[w.keyId := w.ciphertext],
            s.instances[i := p.(stage := Saved(p.stage.dataKey))])
    case Reload(i) =>
      var key := if p.active in s.table then Stored(c, s, p.held, p.active).value else p.stage.dataKey;
      s.(instances := s.instances[i := p.(dataKeys := p.dataKeys[p.active := key], stage := Ready)])
    case Restart(i) => s.(instances := s.instances[i := p.(dataKeys := map[], stage := Fresh)])
  }

  predicate Valid(c: Crypto, s: State, trace: seq<Action>)
    decreases |trace|
  {
    trace == [] || (Enabled(c, s, trace[0]) && Valid(c, Apply(c, s, trace[0]), trace[1..]))
  }

  function Run(c: Crypto, s: State, trace: seq<Action>): State
    requires Valid(c, s, trace)
    decreases |trace|
  {
    if trace == [] then s else Run(c, Apply(c, s, trace[0]), trace[1..])
  }

  ghost predicate Initial(s: State) {
    && s.table == map[]
    && forall i :: i in s.instances ==>
         s.instances[i].stage.Fresh? && s.instances[i].dataKeys == map[] && s.instances[i].active in s.instances[i].held
  }

  /** Every row was wrapped under its own id, so whoever holds that id unwraps it to one and the same key. */
  ghost predicate TableOk(c: Crypto, table: map<KeyId, string>) {
    forall id :: id in table ==> exists iv, key :: table[id] == Wrap(c, id, iv, key).ciphertext
  }

  ghost predicate InstanceOk(c: Crypto, s: State, p: Instance) {
    && p.active in p.held
    && (forall id :: id in p.dataKeys ==> id in p.held && id in s.table && Stored(c, s, p.held, id) == Some(p.dataKeys[id]))
    && (p.stage.Prepared? ==>
          p.stage.wrapped.keyId == p.active
          && exists iv :: p.stage.wrapped.ciphertext == Wrap(c, p.active, iv, p.stage.dataKey).ciphertext)
    && (p.stage.Saved? ==> p.active in s.table)
    && (p.stage.Ready? ==> p.active in p.dataKeys)
  }

  ghost predicate Inv(c: Crypto, s: State) {
    TableOk(c, s.table) && forall i :: i in s.instances ==> InstanceOk(c, s, s.instances[i])
  }

  /** What the table gives does not depend on who asks, as long as they hold the key id. */
  lemma StoredAgrees(c: Crypto, s: State, held: set<KeyId>, other: set<KeyId>, id: KeyId)
    requires Sound(c) && TableOk(c, s.table) && id in s.table && id in held && id in other
    ensures Stored(c, s, held, id).Some? && Stored(c, s, held, id) == Stored(c, s, other, id)
  {
    var iv, key :| s.table[id] == Wrap(c, id, iv, key).ciphertext;
    UnwrapUndoesWrap(c, held, id, iv, key);
    UnwrapUndoesWrap(c, other, id, iv, key);
  }

  /** Stored wrapped keys never change. */
  lemma TableOnlyGrows(c: Crypto, s: State, a: Action)
    requires Enabled(c, s, a)
    ensures forall id :: id in s.table ==> id in Apply(c, s, a).table && Apply(c, s, a).table[id] == s.table[id]
  {
  }

  /** Growing the table takes no data key away from an instance. */
  lemma KeysStayStored(c: Crypto, s: State, a: Action, p: Instance)
    requires InstanceOk(c, s, p) && Enabled(c, s, a)
    ensures var t := Apply(c, s, a);
      forall id :: id in p.dataKeys ==> id in p.held && id in t.table && Stored(c, t, p.held, id) == Some(p.dataKeys[id])
  {
    TableOnlyGrows(c, s, a);
    forall id | id in p.dataKeys
      ensures id in Apply(c, s, a).table && Stored(c, Apply(c, s, a), p.held, id) == Some(p.dataKeys[id])
    {
      assert Row(Apply(c, s, a), id) == Row(s, id);
    }
  }

  lemma StoredNeedsKey(c: Crypto, s: State, held: set<KeyId>, id: KeyId)
    ensures Stored(c, s, held, id).Some? ==> id in s.table && id in held
  {
  }

  /** Old and new data keys alike are what the table unwraps to. */
  lemma LoadedKeys(c: Crypto, s: State, p: Instance, id: KeyId)
    requires InstanceOk(c, s, p) && id in p.dataKeys + Unwrapped(c, s, p.held)
    ensures id in p.held && id in s.table && Stored(c, s, p.held, id) == Some((p.dataKeys + Unwrapped(c, s, p.held))[id])
  {
    StoredNeedsKey(c, s, p.held, id);
  }

  lemma LoaderOk(c: Crypto, s: State, i: nat)
    requires Inv(c, s) && Enabled(c, s, Load(i))
    ensures InstanceOk(c, Apply(c, s, Load(i)), Apply(c, s, Load(i)).instances[i])
  {
    var p, t := s.instances[i], Apply(c, s, Load(i));
    assert InstanceOk(c, s, p);
    forall id | id in p.dataKeys + Unwrapped(c, s, p.held)
      ensures id in p.held && id in t.table && Stored(c, t, p.held, id) == Some((p.dataKeys + Unwrapped(c, s, p.held))[id])
    {
      LoadedKeys(c, s, p, id);
      assert Row(t, id) == Row(s, id);
    }
  }

  lemma PreparerOk(c: Crypto, s: State, i: nat, dataKey: Bytes, iv: Bytes)
    requires Inv(c, s) && Enabled(c, s, Prepare(i, dataKey, iv))
    ensures InstanceOk(c, Apply(c, s, Prepare(i, dataKey, iv)), Apply(c, s, Prepare(i, dataKey, iv)).instances[i])
  {
    assert InstanceOk(c, s, s.instances[i]);
    KeysStayStored(c, s, Prepare(i, dataKey, iv), s.instances[i]);
  }

  lemma SaverOk(c: Crypto, s: State, i: nat)
    requires Inv(c, s) && Enabled(c, s, Save(i))
    ensures InstanceOk(c, Apply(c, s, Save(i)), Apply(c, s, Save(i)).instances[i])
  {
    assert InstanceOk(c, s, s.instances[i]);
    KeysStayStored(c, s, Save(i), s.instances[i]);
  }

  lemma ReloaderOk(c: Crypto, s: State, i: nat)
    requires Sound(c) && Inv(c, s) && Enabled(c, s, Reload(i))
    ensures InstanceOk(c, Apply(c, s, Reload(i)), Apply(c, s, Reload(i)).instances[i])
  {
    var p := s.instances[i];
    assert InstanceOk(c, s, p);
    KeysStayStored(c, s, Reload(i), p);
    StoredAgrees(c, s, p.held, p.held, p.active);
  }

  lemma ActorOk(c: Crypto, s: State, a: Action)
    requires Sound(c) && Inv(c, s) && Enabled(c, s, a)
    ensures InstanceOk(c, Apply(c, s, a), Apply(c, s, a).instances[a.i])
  {
    match a {
      case Load(i) => LoaderOk(c, s, i);
      case Prepare(i, dataKey, iv) => PreparerOk(c, s, i, dataKey, iv);
      case Save(i) => SaverOk(c, s, i);
      case Reload(i) => ReloaderOk(c, s, i);
      case Restart(i) => assert InstanceOk(c, s, s.instances[i]);
    }
  }

  lemma OthersOk(c: Crypto, s: State, a: Action, j: nat)
    requires Inv(c, s) && Enabled(c, s, a) && j in s.instances && j != a.i
    ensures InstanceOk(c, Apply(c, s, a), Apply(c, s, a).instances[j])
  {
    assert InstanceOk(c, s, s.instances[j]);
    TableOnlyGrows(c, s, a);
  }

  lemma StepInv(c: Crypto, s: State, a: Action)
    requires Sound(c) && Inv(c, s) && Enabled(c, s, a)
    ensures Inv(c, Apply(c, s, a))
  {
    var t := Apply(c, s, a);
    ActorOk(c, s, a);
    forall j | j in t.instances ensures InstanceOk(c, t, t.instances[j]) {
      if j != a.i {
        OthersOk(c, s, a, j);
      }
    }
    assert InstanceOk(c, s, s.instances[a.i]);
  }

  lemma {:induction false} RunInv(c: Crypto, s: State, trace: seq<Action>)
    requires Sound(c) && Inv(c, s) && Valid(c, s, trace)
    ensures Inv(c, Run(c, s, trace))
    ensures forall id :: id in s.table ==> id in Run(c, s, trace).table && Run(c, s, trace).table[id] == s.table[id]
    ensures Run(c, s, trace).instances.Keys == s.instances.Keys
    decreases |trace|
  {
    if trace != [] {
      StepInv(c, s, trace[0]);
      TableOnlyGrows(c, s, trace[0]);
      RunInv(c, Apply(c, s, trace[0]), trace[1..]);
    }
  }

  /** A reload never fails: the source's fallback to the instance's own key is dead code, and the stored row
      always unwraps at the instance that saved under it. */
  lemma ReloadAlwaysFinds(c: Crypto, s: State, i: nat)
    requires Sound(c) && Inv(c, s) && i in s.instances && s.instances[i].stage.Saved?
    ensures Enabled(c, s, Reload(i)) && s.instances[i].active in s.table
  {
    assert InstanceOk(c, s, s.instances[i]);
    StoredAgrees(c, s, s.instances[i].held, s.instances[i].held, s.instances[i].active);
  }

  /** Agreement: however the instances interleave, restart or race for the first key, two instances that have a
      data key under one id have the same one, namely the one the table unwraps to. */
  lemma DataKeyAgreement(c: Crypto, s: State, trace: seq<Action>, i: nat, j: nat, id: KeyId)
    requires Sound(c) && Initial(s) && Valid(c, s, trace)
    requires var t := Run(c, s, trace);
      i in t.instances && j in t.instances && id in t.instances[i].dataKeys && id in t.instances[j].dataKeys
    ensures var t := Run(c, s, trace);
      t.instances[i].dataKeys[id] == t.instances[j].dataKeys[id]
      && Stored(c, t, t.instances[i].held, id) == Some(t.instances[i].dataKeys[id])
  {
    RunInv(c, s, trace);
    var t := Run(c, s, trace);
    assert InstanceOk(c, t, t.instances[i]) && InstanceOk(c, t, t.instances[j]);
    StoredAgrees(c, t, t.instances[i].held, t.instances[j].held, id);
  }

  /** The state after the first `n` actions. */
  function After(c: Crypto, s: State, trace: seq<Action>, n: nat): (t: State)
    requires Valid(c, s, trace) && n <= |trace|
    ensures n == |trace| ==> t == Run(c, s, trace)
    decreases n
  {
    if n == 0 then s else After(c, Apply(c, s, trace[0]), trace[1..], n - 1)
  }

  lemma {:induction false} AfterInv(c: Crypto, s: State, trace: seq<Action>, n: nat)
    requires Sound(c) && Inv(c, s) && Valid(c, s, trace) && n <= |trace|
    ensures var t := After(c, s, trace, n);
      && Inv(c, t) && t.instances.Keys == s.instances.Keys
      && (forall id :: id in t.table ==> id in Run(c, s, trace).table && Run(c, s, trace).table[id] == t.table[id])
    decreases n
  {
    if n == 0 {
      RunInv(c, s, trace);
    } else {
      StepInv(c, s, trace[0]);
      AfterInv(c, Apply(c, s, trace[0]), trace[1..], n - 1);
    }
  }

  /** The action puts the data key of `id` into the memory of `reader`: a load that finds the id stored and holds its KMS key,
      or the reload of the instance's own active id. */
  predicate Picks(s: State, a: Action, reader: nat, id: KeyId) {
    reader in s.instances && a.i == reader
    && match a
       case Load(_) => id in s.table && id in s.instances[reader].held
       case Reload(_) => id == s.instances[reader].active
       case _ => false
  }

  predicate KeptFrom(trace: seq<Action>, n: nat, reader: nat) {
    forall k :: n <= k < |trace| ==> trace[k] != Restart(reader)
  }

  /** Some action of the run put the data key there and no restart came after it. */
  predicate PickedUp(c: Crypto, s: State, trace: seq<Action>, reader: nat, id: KeyId)
    requires Valid(c, s, trace)
  {
    exists q :: 0 <= q < |trace| && Picks(After(c, s, trace, q), trace[q], reader, id) && KeptFrom(trace, q + 1, reader)
  }

  lemma PicksStep(c: Crypto, s: State, a: Action, reader: nat, id: KeyId)
    requires Sound(c) && Inv(c, s) && Enabled(c, s, a) && reader in s.instances
    ensures id in Apply(c, s, a).instances[reader].dataKeys
      <==> Picks(s, a, reader, id) || (id in s.instances[reader].dataKeys && a != Restart(reader))
  {
    if a == Load(reader) && Picks(s, a, reader, id) {
      StoredAgrees(c, s, s.instances[reader].held, s.instances[reader].held, id);
    }
    StoredNeedsKey(c, s, s.instances[reader].held, id);
  }

  lemma PickedUpStep(c: Crypto, s: State, trace: seq<Action>, reader: nat, id: KeyId)
    requires trace != [] && Valid(c, s, trace)
    ensures PickedUp(c, s, trace, reader, id)
      <==> (Picks(s, trace[0], reader, id) && KeptFrom(trace, 1, reader))
           || PickedUp(c, Apply(c, s, trace[0]), trace[1..], reader, id)
  {
    var next, rest := Apply(c, s, trace[0]), trace[1..];
    if q :| 0 <= q < |rest| && Picks(After(c, next, rest, q), rest[q], reader, id) && KeptFrom(rest, q + 1, reader) {
      assert After(c, s, trace, q + 1) == After(c, next, rest, q) && trace[q + 1] == rest[q];
      assert forall k :: q + 2 <= k < |trace| ==> trace[k] == rest[k - 1];
    }
    if q :| 0 <= q < |trace| && Picks(After(c, s, trace, q), trace[q], reader, id) && KeptFrom(trace, q + 1, reader) && q > 0 {
      assert After(c, s, trace, q) == After(c, next, rest, q - 1) && trace[q] == rest[q - 1];
      assert forall k :: q <= k < |rest| ==> rest[k] == trace[k + 1];
    }
    assert After(c, s, trace, 0) == s;
  }

  /** Which data keys an instance has after a run: those put there by an action with no restart after it, and those it
      started with if it was never restarted. */
  lemma {:induction false} HasKeyIff(c: Crypto, s: State, trace: seq<Action>, reader: nat, id: KeyId)
    requires Sound(c) && Inv(c, s) && Valid(c, s, trace) && reader in s.instances
    ensures reader in Run(c, s, trace).instances
    ensures id in Run(c, s, trace).instances[reader].dataKeys
      <==> PickedUp(c, s, trace, reader, id) || (id in s.instances[reader].dataKeys && KeptFrom(trace, 0, reader))
    decreases |trace|
  {
    if trace != [] {
      StepInv(c, s, trace[0]);
      PicksStep(c, s, trace[0], reader, id);
      PickedUpStep(c, s, trace, reader, id);
      HasKeyIff(c, Apply(c, s, trace[0]), trace[1..], reader, id);
      assert KeptFrom(trace[1..], 0, reader) <==> KeptFrom(trace, 1, reader) by {
        assert forall k :: 0 <= k < |trace[1..]| ==> trace[1..][k] == trace[k + 1];
        assert forall k :: 1 <= k < |trace| ==> trace[k] == trace[1..][k - 1];
      }
    }
  }

  /** A secret sealed at any moment of a run by an instance that was then ready opens at the end of the run at exactly those
      instances that picked its data key up, before or after the sealing, and were not restarted since. The others
      answer that they do not know the id. */
  lemma SealedOpensElsewhere(c: Crypto, s: State, trace: seq<Action>, p: nat, sealer: nat, iv: Bytes, secret: Bytes, reader: nat)
    requires Sound(c) && Initial(s) && Valid(c, s, trace) && p <= |trace|
    requires sealer in s.instances && reader in s.instances
    requires sealer in After(c, s, trace, p).instances && After(c, s, trace, p).instances[sealer].stage.Ready?
    requires '.' !in After(c, s, trace, p).instances[sealer].active
    ensures var at, end := After(c, s, trace, p).instances[sealer], Run(c, s, trace);
      at.active in at.dataKeys && reader in end.instances
      && Decrypt(c, end.instances[reader].dataKeys, Encrypt(c, at.active, at.dataKeys[at.active], iv, secret))
         == if PickedUp(c, s, trace, reader, at.active) then Some(secret) else None
  {
    var moment, end := After(c, s, trace, p), Run(c, s, trace);
    AfterInv(c, s, trace, p);
    RunInv(c, s, trace);
    var at := moment.instances[sealer];
    assert InstanceOk(c, moment, at);
    HasKeyIff(c, s, trace, reader, at.active);
    var r := end.instances[reader];
    assert InstanceOk(c, end, r);
    if at.active in r.dataKeys {
      assert Row(end, at.active) == Row(moment, at.active);
      StoredAgrees(c, end, r.held, at.held, at.active);
    }
    DecryptUndoesEncrypt(c, r.dataKeys, at.active, at.dataKeys[at.active], iv, secret);
  }

  // ----- one instance, uninterrupted -----

  class PostgresWrappedKeyStore {
    var rows: map<KeyId, string>

    constructor ()
      ensures rows == map[]
    {
      rows := map[];
    }

    /** INSERT ... ON CONFLICT (kms_key_id) DO NOTHING: the first row of a key id stays. */
    method Save(w: Wrapped)
      modifies this
      ensures rows == if w.keyId in old(rows) then old(rows) else old(rows)[w.keyId := w.ciphertext]
    {
      if w.keyId !in rows {
        rows := rows[w.keyId := w.ciphertext];
      }
    }
  }

  /** The step system restricted to one instance. */
  function Alone(table: map<KeyId, string>, p: Instance): State {
    State(table, map[0 := p])
  }

  class EnvelopeSecretProtector {
    const crypto: Crypto
    const held: set<KeyId>
    const kmsActive: KeyId
    const store: PostgresWrappedKeyStore
    var dataKeys: map<KeyId, Bytes>
    var activeKeyId: string

    constructor (crypto: Crypto, held: set<KeyId>, kmsActive: KeyId, store: PostgresWrappedKeyStore)
      ensures this.crypto == crypto && this.held == held && this.kmsActive == kmsActive && this.store == store
      ensures dataKeys == map[] && activeKeyId == ""
    {
      this.crypto, this.held, this.kmsActive, this.store := crypto, held, kmsActive, store;
      dataKeys, activeKeyId := map[], "";
    }

    /** Every data key in memory is what its stored row unwraps to. */
    ghost predicate Consistent()
      reads this, store
    {
      TableOk(crypto, store.rows) && kmsActive in held && FromTable(crypto, store.rows, held, dataKeys)
    }

    /** Loads every row that unwraps, over what is in memory already; if the active key is then not there, stores a new
        wrapped key and adopts whichever row won. Run without interruption it is the step system's own trace, on a
        new instance as on one that was initialized before. */
    method Initialize(freshKey: Bytes, iv: Bytes) returns (ghost trace: seq<Action>)
      requires Sound(crypto) && Consistent()
      modifies this, store
      ensures Consistent() && activeKeyId == kmsActive && kmsActive in dataKeys
      ensures dataKeys == Unwrapped(crypto, State(store.rows, map[]), held)
      ensures var s := Begun(old(store.rows), held, kmsActive, old(dataKeys));
        Valid(crypto, s, trace)
        && Run(crypto, s, trace) == Alone(store.rows, Instance(held, kmsActive, dataKeys, Ready))
    {
      trace := InitializeTrace(crypto, store.rows, held, kmsActive, dataKeys, iv, freshKey);
      LoadRows();
      if kmsActive !in dataKeys {
        CreateActive(freshKey, iv);
      }
      activeKeyId := kmsActive;
      UnwrappedIds(crypto, store.rows, held);
    }

    method CreateActive(freshKey: Bytes, iv: Bytes)
      requires Sound(crypto) && TableOk(crypto, store.rows) && kmsActive in held && kmsActive !in dataKeys
      requires dataKeys == Unwrapped(crypto, State(store.rows, map[]), held)
      modifies this`dataKeys, store
      ensures TableOk(crypto, store.rows)
      ensures store.rows == old(store.rows)[kmsActive := Wrap(crypto, kmsActive, iv, freshKey).ciphertext]
      ensures dataKeys == old(dataKeys)[kmsActive := freshKey]
      ensures dataKeys == Unwrapped(crypto, State(store.rows, map[]), held)
    {
      ActiveUnstored(crypto, store.rows, held, kmsActive);
      OwnRowUnwraps(crypto, store.rows, held, kmsActive, iv, freshKey);
      var wrapped := Wrap(crypto, kmsActive, iv, freshKey);
      store.Save(wrapped);
      NewRowUnwrapped(crypto, old(store.rows), store.rows, held, kmsActive, freshKey);
      RowsUnwrap(crypto, store.rows, held, kmsActive);
      var reloaded := Unwrap(crypto, held, Wrapped(kmsActive, store.rows[kmsActive]));
      dataKeys := dataKeys[kmsActive := reloaded.value];
    }

    method LoadRows()
      requires FromTable(crypto, store.rows, held, dataKeys)
      modifies this`dataKeys
      ensures dataKeys == Unwrapped(crypto, State(store.rows, map[]), held)
    {
      LoadedIsUnwrapped(crypto, store.rows, held, dataKeys);
      UnwrapRows(Unwrapped(crypto, State(store.rows, map[]), held));
    }

    method UnwrapRows(ghost unwrapped: map<KeyId, Bytes>)
      requires RowsGive(crypto, store.rows, held, unwrapped)
      requires forall id :: id in dataKeys ==> id in unwrapped && dataKeys[id] == unwrapped[id]
      modifies this`dataKeys
      ensures dataKeys == unwrapped
    {
      var rest := store.rows.Keys;
      while rest != {}
        invariant rest <= store.rows.Keys
        invariant forall id :: id in dataKeys ==> id in unwrapped && dataKeys[id] == unwrapped[id]
        invariant forall id :: id in unwrapped && id !in rest ==> id in dataKeys
        decreases rest
      {
        var id :| id in rest;
        var key := Unwrap(crypto, held, Wrapped(id, store.rows[id]));
        assert Gives(crypto, store.rows, held, unwrapped, id);
        if key.Some? {
          dataKeys := dataKeys[id := key.value];
        }
        rest := rest - {id};
      }
    }
  }

  ghost predicate FromTable(c: Crypto, table: map<KeyId, string>, held: set<KeyId>, keys: map<KeyId, Bytes>) {
    forall id :: id in keys ==> id in held && id in table && Stored(c, State(table, map[]), held, id) == Some(keys[id])
  }

  /** An instance about to initialize: ready already if it has its active data key. */
  function Begun(table: map<KeyId, string>, held: set<KeyId>, active: KeyId, keys: map<KeyId, Bytes>): State {
    Alone(table, Instance(held, active, keys, if active in keys then Ready else Fresh))
  }

  ghost predicate Gives(c: Crypto, table: map<KeyId, string>, held: set<KeyId>, unwrapped: map<KeyId, Bytes>, id: KeyId) {
    id in table && Unwrap(c, held, Wrapped(id, table[id])) == if id in unwrapped then Some(unwrapped[id]) else None
  }

  /** Each row unwraps to what the map says, and the map has no other ids. */
  ghost predicate RowsGive(c: Crypto, table: map<KeyId, string>, held: set<KeyId>, unwrapped: map<KeyId, Bytes>) {
    (forall id :: id in table ==> Gives(c, table, held, unwrapped, id)) && forall id :: id in unwrapped ==> id in table
  }

  lemma RowsUnwrap(c: Crypto, table: map<KeyId, string>, held: set<KeyId>, id: KeyId)
    requires id in table
    ensures Stored(c, State(table, map[]), held, id) == Unwrap(c, held, Wrapped(id, table[id]))
  {
  }

  lemma UnwrappedIds(c: Crypto, table: map<KeyId, string>, held: set<KeyId>)
    ensures FromTable(c, table, held, Unwrapped(c, State(table, map[]), held))
  {
    forall id | id in Unwrapped(c, State(table, map[]), held) ensures id in held {
      StoredNeedsKey(c, State(table, map[]), held, id);
    }
  }

  /** What is in memory comes from the table, so loading leaves exactly what the table unwraps to. */
  lemma LoadedIsUnwrapped(c: Crypto, table: map<KeyId, string>, held: set<KeyId>, keys: map<KeyId, Bytes>)
    requires FromTable(c, table, held, keys)
    ensures var unwrapped := Unwrapped(c, State(table, map[]), held);
      && keys + unwrapped == unwrapped && RowsGive(c, table, held, unwrapped)
      && forall id :: id in keys ==> id in unwrapped && keys[id] == unwrapped[id]
  {
    forall id | id in table ensures Gives(c, table, held, Unwrapped(c, State(table, map[]), held), id) {
      RowsUnwrap(c, table, held, id);
    }
    assert forall id :: id in keys ==> id in Unwrapped(c, State(table, map[]), held);
  }

  lemma ActiveUnstored(c: Crypto, table: map<KeyId, string>, held: set<KeyId>, active: KeyId)
    requires Sound(c) && TableOk(c, table) && active in held && active !in Unwrapped(c, State(table, map[]), held)
    ensures active !in table
  {
    if active in table {
      StoredAgrees(c, State(table, map[]), held, held, active);
    }
  }

  lemma OwnRowUnwraps(c: Crypto, table: map<KeyId, string>, held: set<KeyId>, active: KeyId, iv: Bytes, key: Bytes)
    requires Sound(c) && TableOk(c, table) && active in held
    ensures var saved := table[active := Wrap(c, active, iv, key).ciphertext];
      TableOk(c, saved) && Stored(c, State(saved, map[]), held, active) == Some(key)
  {
    var wrapped := Wrap(c, active, iv, key);
    var saved := table[active := wrapped.ciphertext];
    UnwrapUndoesWrap(c, held, active, iv, key);
    assert Row(State(saved, map[]), active) == wrapped;
  }

  lemma NewRowUnwrapped(c: Crypto, table: map<KeyId, string>, saved: map<KeyId, string>, held: set<KeyId>, active: KeyId, key: Bytes)
    requires active in saved && saved == table[active := saved[active]]
    requires Stored(c, State(saved, map[]), held, active) == Some(key)
    ensures Unwrapped(c, State(saved, map[]), held) == Unwrapped(c, State(table, map[]), held)[active := key]
  {
    forall id | id in table && id != active
      ensures Stored(c, State(table, map[]), held, id) == Stored(c, State(saved, map[]), held, id)
    {
      assert Row(State(table, map[]), id) == Row(State(saved, map[]), id);
    }
  }

  lemma SameTable(c: Crypto, s: State, t: State, held: set<KeyId>)
    requires s.table == t.table
    ensures Unwrapped(c, s, held) == Unwrapped(c, t, held)
  {
    assert forall id :: id in s.table ==> Row(s, id) == Row(t, id);
    assert forall id :: id in s.table ==> Stored(c, s, held, id) == Stored(c, t, held, id);
  }

  lemma LoadTrace(c: Crypto, table: map<KeyId, string>, held: set<KeyId>, active: KeyId, before: map<KeyId, Bytes>)
    requires FromTable(c, table, held, before)
    ensures var s := Begun(table, held, active, before);
      var keys := Unwrapped(c, State(table, map[]), held);
      Enabled(c, s, Load(0))
      && Apply(c, s, Load(0)) == Alone(table, Instance(held, active, keys, if active in keys then Ready else Loaded))
  {
    var s := Begun(table, held, active, before);
    LoadedIsUnwrapped(c, table, held, before);
    SameTable(c, s, State(table, map[]), held);
  }

  /** The trace of an uninterrupted initialize, and where it ends. */
  lemma InitializeTrace(c: Crypto, table: map<KeyId, string>, held: set<KeyId>, active: KeyId, before: map<KeyId, Bytes>,
                        iv: Bytes, key: Bytes)
    returns (trace: seq<Action>)
    requires Sound(c) && TableOk(c, table) && active in held && FromTable(c, table, held, before)
    ensures var s := Begun(table, held, active, before);
      var keys := Unwrapped(c, State(table, map[]), held);
      Valid(c, s, trace)
      && Run(c, s, trace) ==
         if active in keys then Alone(table, Instance(held, active, keys, Ready))
         else Alone(table[active := Wrap(c, active, iv, key).ciphertext], Instance(held, active, keys[active := key], Ready))
  {
    var s := Begun(table, held, active, before);
    var keys := Unwrapped(c, State(table, map[]), held);
    LoadTrace(c, table, held, active, before);
    trace := [Load(0)];
    assert trace[1..] == [];
    if active !in keys {
      if active in table {
        StoredAgrees(c, State(table, map[]), held, held, active);
      }
      var rest := CreateTrace(c, Apply(c, s, Load(0)), iv, key);
      trace := [Load(0)] + rest;
      assert trace[1..] == rest;
    }
  }

  lemma CreateTrace(c: Crypto, s1: State, iv: Bytes, key: Bytes) returns (trace: seq<Action>)
    requires Sound(c) && 0 in s1.instances && s1.instances == map[0 := s1.instances[0]]
    requires var p := s1.instances[0];
      p.stage.Loaded? && p.active in p.held && p.active !in p.dataKeys && p.active !in s1.table
    ensures var p := s1.instances[0];
      Valid(c, s1, trace)
      && Run(c, s1, trace) == Alone(s1.table[p.active := Wrap(c, p.active, iv, key).ciphertext],
                                    p.(dataKeys := p.dataKeys[p.active := key], stage := Ready))
  {
    var p := s1.instances[0];
    UnwrapUndoesWrap(c, p.held, p.active, iv, key);
    var s2 := Apply(c, s1, Prepare(0, key, iv));
    var s3 := Apply(c, s2, Save(0));
    var s4 := Apply(c, s3, Reload(0));
    trace := [Prepare(0, key, iv), Save(0), Reload(0)];
    assert trace[1..] == [Save(0), Reload(0)] && trace[1..][1..] == [Reload(0)];
    assert Valid(c, s3, [Reload(0)]) && Run(c, s3, [Reload(0)]) == s4;
    assert Valid(c, s2, trace[1..]) && Run(c, s2, trace[1..]) == s4;
    assert s4.instances == map[0 := p.(dataKeys := p.dataKeys[p.active := key], stage := Ready)];
  }
}
