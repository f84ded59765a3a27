/** The in-memory outbox and its producer, against the table functions of the step system. */
module MemoryOutbox {
  import opened Records
  import opened Pipeline
  import opened PostgresStores
  import opened Distinct
  import Ranking

  datatype UniqueKey = UniqueKey(tenant: string, resource: string, revision: int, kind: string)

  function KeyOf(event: Event): UniqueKey {
    UniqueKey(event.tenant, event.resource, event.revision, event.kind)
  }

  /** Every record's key is remembered, and no two records share one. Keys are never forgotten. */
  ghost predicate Remembered(records: map<string, OutboxRow>, keys: set<UniqueKey>) {
    OutboxOk(records) && forall id :: id in records ==> KeyOf(records[id].event) in keys
  }

  /** Every remembered key still has its record. */
  ghost predicate Present(records: map<string, OutboxRow>, keys: set<UniqueKey>) {
    forall key :: key in keys ==> exists id :: id in records && KeyOf(records[id].event) == key
  }

  function Appended(records: map<string, OutboxRow>, keys: set<UniqueKey>, event: Event, createdAt: int): map<string, OutboxRow> {
    if KeyOf(event) in keys then records else records[event.id := OutboxRow(event, createdAt, Pending)]
  }

  class InMemoryOutboxStore {
    var records: map<string, OutboxRow>
    var uniqueKeys: set<UniqueKey>

    constructor ()
      ensures records == map[] && uniqueKeys == {}
    {
      records, uniqueKeys := map[], {};
    }

    method AppendUnique(event: Event, createdAt: int) returns (added: bool)
      modifies this
      ensures added <==> KeyOf(event) !in old(uniqueKeys)
      ensures uniqueKeys == old(uniqueKeys) + {KeyOf(event)}
      ensures records == Appended(old(records), old(uniqueKeys), event, createdAt)
    {
      if KeyOf(event) in uniqueKeys {
        return false;
      }
      uniqueKeys := uniqueKeys + {KeyOf(event)};
      records := records[event.id := OutboxRow(event, createdAt, Pending)];
      added := true;
    }

    /** Selects the oldest `limit` leasable records and stamps them one by one. */
    method Lease(owner: Owner, now: int, leaseMs: int, limit: nat) returns (selected: seq<string>)
      modifies this
      ensures OldestLeasable(old(records), now, limit, selected)
      ensures records == LeaseRows(old(records), (set id | id in selected), owner, now + leaseMs)
      ensures uniqueKeys == old(uniqueKeys)
    {
      selected := SelectOldest(now, limit);
      ghost var before := records;
      for i := 0 to |selected|
        invariant records == LeaseRows(before, (set id | id in selected[..i]), owner, now + leaseMs)
        invariant uniqueKeys == old(uniqueKeys)
      {
        TakeNext(selected, i);
        assert selected[i] in selected;
        records := records[selected[i] := records[selected[i]].(state := Leased(owner, now + leaseMs))];
      }
      assert selected[..|selected|] == selected;
    }

    method SelectOldest(now: int, limit: nat) returns (selected: seq<string>)
      ensures OldestLeasable(records, now, limit, selected)
    {
      var ids := Enumerate(set id | id in records && Leasable(records[id], now));
      var rank := OutboxRank(records);
      var sorted := Ranking.Sort(rank, ids);
      Ranking.SortSorts(rank, ids);
      Ranking.SortElements(rank, ids);
      PermutedNoDuplicates(ids, sorted);
      SortedPrefixOldest(records, now, limit, sorted);
      selected := if |sorted| <= limit then sorted else sorted[..limit];
    }

    /** Fails exactly when the caller no longer holds the record's lease; then no record changes. */
    method MarkQueued(id: string, owner: Owner, now: int) returns (kept: bool)
      modifies this
      ensures kept <==> HoldsOutboxLease(old(records), id, owner)
      ensures records == MarkRow(old(records), id, owner, now) && uniqueKeys == old(uniqueKeys)
    {
      if id !in records || !records[id].state.Leased? || records[id].state.owner != owner {
        return false;
      }
      records := records[id := records[id].(state := Relayed(now))];
      kept := true;
    }
  }

  class WebhookProducer {
    const enabled: bool

    constructor (enabled: bool)
      ensures this.enabled == enabled
    {
      this.enabled := enabled;
    }

    /** Stages an event in the caller's transaction, or does nothing while webhooks are switched off. */
    method Stage(outbox: InMemoryOutboxStore, event: Event, publishedAt: int) returns (staged: bool)
      modifies outbox
      ensures staged <==> enabled && KeyOf(event) !in old(outbox.uniqueKeys)
      ensures outbox.records
        == if enabled then Appended(old(outbox.records), old(outbox.uniqueKeys), event, publishedAt) else old(outbox.records)
      ensures outbox.uniqueKeys == if enabled then old(outbox.uniqueKeys) + {KeyOf(event)} else old(outbox.uniqueKeys)
    {
      if !enabled {
        return false;
      }
      staged := outbox.AppendUnique(event, publishedAt);
    }
  }

  lemma AppendKeepsRecords(records: map<string, OutboxRow>, keys: set<UniqueKey>, event: Event, createdAt: int)
    requires Remembered(records, keys)
    ensures Remembered(Appended(records, keys, event, createdAt), keys + {KeyOf(event)})
  {
  }

  /** As long as remembered keys have their records, the in-memory insert is the table's insert exactly when the event
      id is unused or the key is a repeat. In the remaining case it overwrites a record that has another key. */
  lemma AppendMatchesTableIff(records: map<string, OutboxRow>, keys: set<UniqueKey>, event: Event, createdAt: int)
    requires Remembered(records, keys) && Present(records, keys)
    ensures Appended(records, keys, event, createdAt) == Pipeline.AppendUnique(records, event, createdAt)
      <==> event.id !in records || KeyOf(event) in keys
    ensures Present(Appended(records, keys, event, createdAt), keys + {KeyOf(event)})
      <==> event.id !in records || KeyOf(event) in keys
  {
    var after := Appended(records, keys, event, createdAt);
    DuplicateIff(records, keys, event);
    if KeyOf(event) !in keys {
      assert after[event.id].event == event;
      if event.id in records {
        var lost := KeyOf(records[event.id].event);
        LostKey(records, keys, event, createdAt);
        assert lost in keys + {KeyOf(event)};
      } else {
        forall key | key in keys + {KeyOf(event)}
          ensures exists id :: id in after && KeyOf(after[id].event) == key
        {
          if key in keys {
            var id :| id in records && KeyOf(records[id].event) == key;
            assert id in after && after[id] == records[id];
          }
        }
      }
    }
  }

  lemma DuplicateIff(records: map<string, OutboxRow>, keys: set<UniqueKey>, event: Event)
    requires Remembered(records, keys) && Present(records, keys)
    ensures Duplicate(records, event) <==> KeyOf(event) in keys
  {
    if KeyOf(event) in keys {
      var id :| id in records && KeyOf(records[id].event) == KeyOf(event);
      assert SameUniqueKey(records[id].event, event);
    }
  }

  lemma LostKey(records: map<string, OutboxRow>, keys: set<UniqueKey>, event: Event, createdAt: int)
    requires Remembered(records, keys) && event.id in records && KeyOf(event) !in keys
    ensures var lost, after := KeyOf(records[event.id].event), Appended(records, keys, event, createdAt);
      forall id :: id in after ==> KeyOf(after[id].event) != lost
  {
    var lost, after := KeyOf(records[event.id].event), Appended(records, keys, event, createdAt);
    forall id | id in after
      ensures KeyOf(after[id].event) != lost
    {
      if id != event.id {
        assert KeyOf(records[id].event) == lost ==> SameUniqueKey(records[id].event, records[event.id].event);
      }
    }
  }

  // ----- runs of producers and relays -----

  datatype Outbox = Outbox(records: map<string, OutboxRow>, keys: set<UniqueKey>)

  datatype Op =
    | Append(event: Event, createdAt: int)
    | Take(owner: Owner, now: int, leaseMs: int, limit: nat, batch: seq<string>)
    | Mark(id: string, owner: Owner, now: int)

  ghost predicate Possible(s: Outbox, op: Op) {
    op.Take? ==> OldestLeasable(s.records, op.now, op.limit, op.batch)
  }

  function Step(s: Outbox, op: Op): Outbox {
    match op
    case Append(event, createdAt) => Outbox(Appended(s.records, s.keys, event, createdAt), s.keys + {KeyOf(event)})
    case Take(owner, now, leaseMs, _, batch) =>
      s.(records := LeaseRows(s.records, (set id | id in batch), owner, now + leaseMs))
    case Mark(id, owner, now) => s.(records := MarkRow(s.records, id, owner, now))
  }

  ghost predicate PossibleAll(s: Outbox, ops: seq<Op>)
    decreases |ops|
  {
    ops == [] || (Possible(s, ops[0]) && PossibleAll(Step(s, ops[0]), ops[1..]))
  }

  function Run(s: Outbox, ops: seq<Op>): Outbox
    decreases |ops|
  {
    if ops == [] then s else Run(Step(s, ops[0]), ops[1..])
  }

  /** An append under a new key that reuses the id of a record. */
  predicate Overwrites(s: Outbox, op: Op, id: string) {
    op.Append? && op.event.id == id && id in s.records && KeyOf(op.event) !in s.keys
  }

  predicate Overwritten(s: Outbox, ops: seq<Op>, id: string)
    decreases |ops|
  {
    ops != [] && (Overwrites(s, ops[0], id) || Overwritten(Step(s, ops[0]), ops[1..], id))
  }

  /** Nobody but the holder has the record: it is leased as it was, or relayed. */
  predicate Held(s: Outbox, id: string, owner: Owner, until: int) {
    id in s.records && (s.records[id].state == Leased(owner, until) || s.records[id].state.Relayed?)
  }

  lemma StepKeepsHold(s: Outbox, op: Op, id: string, owner: Owner, until: int)
    requires Held(s, id, owner, until) && Possible(s, op) && !Overwrites(s, op, id)
    requires op.Take? ==> op.now < until
    ensures Held(Step(s, op), id, owner, until) && (op.Take? ==> id !in op.batch)
  {
  }

  /** A lease excludes everyone else until it runs out: through any run of appends, leases and marks whose leases are all
      taken before then, no batch contains the record, unless an append has overwritten it. */
  lemma {:induction false} LeaseExcludes(s: Outbox, ops: seq<Op>, id: string, owner: Owner, until: int)
    requires Held(s, id, owner, until) && PossibleAll(s, ops) && !Overwritten(s, ops, id)
    requires forall i :: 0 <= i < |ops| && ops[i].Take? ==> ops[i].now < until
    ensures forall i :: 0 <= i < |ops| && ops[i].Take? ==> id !in ops[i].batch
    ensures Held(Run(s, ops), id, owner, until)
    decreases |ops|
  {
    if ops != [] {
      StepKeepsHold(s, ops[0], id, owner, until);
      assert forall i :: 0 <= i < |ops[1..]| ==> ops[1..][i] == ops[i + 1];
      LeaseExcludes(Step(s, ops[0]), ops[1..], id, owner, until);
      assert forall i :: 1 <= i < |ops| ==> ops[i] == ops[1..][i - 1];
    }
  }

  /** The same run on the table of the production store. */
  function TableRun(rows: map<string, OutboxRow>, ops: seq<Op>): map<string, OutboxRow>
    decreases |ops|
  {
    if ops == [] then rows
    else
      var next :=
        match ops[0]
        case Append(event, createdAt) => Pipeline.AppendUnique(rows, event, createdAt)
        case Take(owner, now, leaseMs, _, batch) => LeaseRows(rows, (set id | id in batch), owner, now + leaseMs)
        case Mark(id, owner, now) => MarkRow(rows, id, owner, now);
      TableRun(next, ops[1..])
  }

  ghost predicate NoneOverwritten(s: Outbox, ops: seq<Op>) {
    forall id :: !Overwritten(s, ops, id)
  }

  lemma StepKeepsRecords(s: Outbox, op: Op)
    requires Remembered(s.records, s.keys)
    ensures Remembered(Step(s, op).records, Step(s, op).keys)
  {
    if op.Append? {
      AppendKeepsRecords(s.records, s.keys, op.event, op.createdAt);
    }
  }

  lemma StepKeepsPresent(s: Outbox, op: Op)
    requires Remembered(s.records, s.keys) && Present(s.records, s.keys) && forall id :: !Overwrites(s, op, id)
    ensures Present(Step(s, op).records, Step(s, op).keys)
  {
    if op.Append? {
      assert !Overwrites(s, op, op.event.id);
      AppendMatchesTableIff(s.records, s.keys, op.event, op.createdAt);
    } else {
      var t := Step(s, op);
      forall key | key in t.keys
        ensures exists id :: id in t.records && KeyOf(t.records[id].event) == key
      {
        var id :| id in s.records && KeyOf(s.records[id].event) == key;
        assert id in t.records && t.records[id].event == s.records[id].event;
      }
    }
  }

  /** Through any run in which no append overwrites a record, the in-memory outbox holds exactly what the table would. */
  lemma {:induction false} RunMatchesTable(s: Outbox, ops: seq<Op>)
    requires Remembered(s.records, s.keys) && Present(s.records, s.keys) && NoneOverwritten(s, ops)
    ensures Run(s, ops).records == TableRun(s.records, ops)
    ensures Remembered(Run(s, ops).records, Run(s, ops).keys)
    decreases |ops|
  {
    if ops != [] {
      forall id
        ensures !Overwrites(s, ops[0], id) && !Overwritten(Step(s, ops[0]), ops[1..], id)
      {
        assert !Overwritten(s, ops, id);
      }
      StepKeepsRecords(s, ops[0]);
      StepKeepsPresent(s, ops[0]);
      if ops[0].Append? {
        assert !Overwrites(s, ops[0], ops[0].event.id);
        AppendMatchesTableIff(s.records, s.keys, ops[0].event, ops[0].createdAt);
      }
      RunMatchesTable(Step(s, ops[0]), ops[1..]);
    }
  }
}
