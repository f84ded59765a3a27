/** The PostgreSQL-backed stores. Every method's effect is the row function of the step system. */
module PostgresStores {
  import opened Records
  import opened Pipeline
  import opened Distinct
  import Ranking

  // ----- outbox -----

  function OutboxRank(outbox: map<string, OutboxRow>): string -> Ranking.Rank {
    (id: string) => if id in outbox then Ranking.Rank(outbox[id].createdAt, 0, id) else Ranking.Rank(0, 0, id)
  }

  /** The batch is the first `limit` leasable rows by (created_at, id), or all of them. */
  ghost predicate OldestLeasable(outbox: map<string, OutboxRow>, now: int, limit: nat, batch: seq<string>) {
    && NoDuplicates(batch) && |batch| <= limit
    && (forall id :: id in batch ==> id in outbox && Leasable(outbox[id], now))
    && forall other :: other in outbox && Leasable(outbox[other], now) && other !in batch ==>
         |batch| == limit
         && forall id :: id in batch ==> Ranking.Leq(OutboxRank(outbox)(id), OutboxRank(outbox)(other))
  }

  lemma SortedPrefixOldest(outbox: map<string, OutboxRow>, now: int, limit: nat, sorted: seq<string>)
    requires NoDuplicates(sorted) && Ranking.SortedBy(OutboxRank(outbox), sorted)
    requires forall id :: id in sorted <==> id in outbox && Leasable(outbox[id], now)
    ensures OldestLeasable(outbox, now, limit, if |sorted| <= limit then sorted else sorted[..limit])
  {
    var batch := if |sorted| <= limit then sorted else sorted[..limit];
    forall id, other | id in batch && other in sorted && other !in batch
      ensures Ranking.Leq(OutboxRank(outbox)(id), OutboxRank(outbox)(other))
    {
      var i :| 0 <= i < |batch| && batch[i] == id;
      var j :| 0 <= j < |sorted| && sorted[j] == other;
      NotInPrefix(sorted, |batch|, j);
    }
  }

  class PostgresOutboxStore {
    var rows: map<string, OutboxRow>

    constructor ()
      ensures rows == map[]
    {
      rows := map[];
    }

    /** A repeated unique key is ignored; a repeated primary key with a new unique key is an error. */
    method AppendUnique(event: Event, now: int) returns (added: Option<bool>)
      modifies this
      ensures rows == Pipeline.AppendUnique(old(rows), event, now)
      ensures added == Some(true) <==> event.id in rows && rows != old(rows)
      ensures added.None? <==> !Duplicate(old(rows), event) && event.id in old(rows)
    {
      if Duplicate(rows, event) {
        return Some(false);
      }
      if event.id in rows {
        return None;
      }
      rows := rows[event.id := OutboxRow(event, now, Pending)];
      added := Some(true);
    }

    /** Leases the oldest `limit` rows that are pending or whose lease has run out. */
    method Lease(owner: Owner, now: int, leaseMs: int, limit: nat) returns (batch: seq<string>)
      modifies this
      ensures OldestLeasable(old(rows), now, limit, batch)
      ensures rows == LeaseRows(old(rows), (set id | id in batch), owner, now + leaseMs)
    {
      var leasable := set id | id in rows && Leasable(rows[id], now);
      var ids := Enumerate(leasable);
      var rank := OutboxRank(rows);
      var sorted := Ranking.Sort(rank, ids);
      Ranking.SortSorts(rank, ids);
      Ranking.SortElements(rank, ids);
      PermutedNoDuplicates(ids, sorted);
      batch := if |sorted| <= limit then sorted else sorted[..limit];
      SortedPrefixOldest(rows, now, limit, sorted);
      rows := LeaseRows(rows, (set id | id in batch), owner, now + leaseMs);
    }

    /** Fails exactly when the caller no longer holds the row's lease; then no row changes. */
    method MarkQueued(id: string, owner: Owner, now: int) returns (kept: bool)
      modifies this
      ensures kept <==> HoldsOutboxLease(old(rows), id, owner)
      ensures rows == MarkRow(old(rows), id, owner, now)
    {
      kept := id in rows && rows[id].state.Leased? && rows[id].state.owner == owner;
      if kept {
        rows := rows[id := rows[id].(state := Relayed(now))];
      }
    }
  }

  // ----- queue -----

  function ServedAt(cursor: map<string, int>, tenant: string): int {
    if tenant in cursor then cursor[tenant] else 0
  }

  /** The row dequeue must pick: its tenant was served longest ago, ties going to the tenant with the
      oldest available row, and within the tenant it is the oldest available row. */
  ghost predicate NextRow(queue: map<string, QueueRow>, cursor: map<string, int>, now: int, id: string) {
    && id in queue && Available(queue[id], now)
    && forall other :: other in queue && Available(queue[other], now) ==>
         var mine, theirs := ServedAt(cursor, queue[id].event.tenant), ServedAt(cursor, queue[other].event.tenant);
         mine < theirs || (mine == theirs && queue[id].sequence <= queue[other].sequence)
  }

  predicate HoldsLease(queue: map<string, QueueRow>, id: string, owner: Owner) {
    id in queue && queue[id].lease.Some? && queue[id].lease.value.owner == owner
  }

  class PostgresEventQueue {
    var rows: map<string, QueueRow>
    var nextSequence: nat
    var cursor: map<string, int>
    const owner: Owner
    const leaseMs: int

    constructor (owner: Owner, leaseMs: int)
      ensures rows == map[] && cursor == map[] && nextSequence == 0
      ensures this.owner == owner && this.leaseMs == leaseMs
    {
      rows, cursor, nextSequence := map[], map[], 0;
      this.owner, this.leaseMs := owner, leaseMs;
    }

    /** The sequence number is consumed even when the event is already queued. */
    method Enqueue(event: Event) returns (added: bool)
      modifies this
      ensures added <==> event.id !in old(rows)
      ensures rows == EnqueueRow(old(rows), old(nextSequence), event) && nextSequence == old(nextSequence) + 1
      ensures cursor == old(cursor)
    {
      added := event.id !in rows;
      if added {
        rows := rows[event.id := QueueRow(event, nextSequence, None)];
      }
      nextSequence := nextSequence + 1;
    }

    /** Leases the fair choice among the available rows and stamps its tenant as served. */
    method Dequeue(now: int) returns (claimed: Option<Event>)
      modifies this
      ensures claimed.None? <==> forall id :: id in old(rows) ==> !Available(old(rows)[id], now)
      ensures claimed.None? ==> rows == old(rows) && cursor == old(cursor)
      ensures claimed.Some? ==>
                (exists id :: NextRow(old(rows), old(cursor), now, id) && claimed.value == old(rows)[id].event
                   && rows == ClaimRow(old(rows), id, owner, now + leaseMs))
      ensures claimed.Some? ==> cursor == old(cursor)[claimed.value.tenant := now]
      ensures nextSequence == old(nextSequence)
    {
      var open := set id | id in rows && Available(rows[id], now);
      if open == {} {
        assert forall id :: id in rows ==> id !in open;
        return None;
      }
      var id: string :| id in open;
      var rest := open - {id};
      while rest != {}
        invariant rest <= open && id in open - rest
        invariant forall other :: other in open - rest ==>
          var mine, theirs := ServedAt(cursor, rows[id].event.tenant), ServedAt(cursor, rows[other].event.tenant);
          mine < theirs || (mine == theirs && rows[id].sequence <= rows[other].sequence)
        decreases rest
      {
        var other: string :| other in rest;
        var mine, theirs := ServedAt(cursor, rows[id].event.tenant), ServedAt(cursor, rows[other].event.tenant);
        if theirs < mine || (theirs == mine && rows[other].sequence < rows[id].sequence) {
          id := other;
        }
        rest := rest - {other};
      }
      assert NextRow(rows, cursor, now, id);
      claimed := Some(rows[id].event);
      cursor := cursor[rows[id].event.tenant := now];
      rows := ClaimRow(rows, id, owner, now + leaseMs);
    }

    /** Removes the event if this worker holds its lease; every other row stays. A lost lease is not reported. */
    method Commit(id: string)
      modifies this
      ensures id in rows <==> id in old(rows) && !HoldsLease(old(rows), id, owner)
      ensures forall other :: other != id || !HoldsLease(old(rows), id, owner) ==>
        (other in rows <==> other in old(rows)) && (other in rows ==> rows[other] == old(rows)[other])
      ensures rows == CommitRow(old(rows), id, owner)
      ensures nextSequence == old(nextSequence) && cursor == old(cursor)
    {
      if id in rows && rows[id].lease.Some? && rows[id].lease.value.owner == owner {
        rows := rows - {id};
      }
    }

    /** Gives the event back, whoever holds its lease: it is available at once, and nothing else changes. */
    method Release(id: string)
      modifies this
      ensures rows.Keys == old(rows).Keys
      ensures id in rows ==> rows[id].event == old(rows)[id].event && rows[id].sequence == old(rows)[id].sequence
      ensures id in rows ==> forall now :: Available(rows[id], now)
      ensures forall other :: other in rows && other != id ==> rows[other] == old(rows)[other]
      ensures rows == ReleaseRow(old(rows), id)
      ensures nextSequence == old(nextSequence) && cursor == old(cursor)
    {
      if id in rows {
        rows := rows[id := QueueRow(rows[id].event, rows[id].sequence, None)];
      }
    }
  }

  // ----- deliveries -----

  class PostgresDeliveryStore {
    var rows: map<string, Delivery>

    constructor ()
      ensures rows == map[]
    {
      rows := map[];
    }

    method Create(record: Delivery) returns (created: bool)
      modifies this
      ensures created <==> record.id !in old(rows)
      ensures rows == CreateRow(old(rows), record)
    {
      created := record.id !in rows;
      if created {
        rows := rows[record.id := record];
      }
    }

    /** Overwrites what an attempt changes of a stored row, never what identifies it; inserts nothing. */
    method Save(record: Delivery)
      modifies this
      ensures rows.Keys == old(rows).Keys
      ensures record.id in rows ==>
        var stored, saved := old(rows)[record.id], rows[record.id];
        && saved.eventId == stored.eventId && saved.subscriptionId == stored.subscriptionId
        && saved.tenantId == stored.tenantId && saved.createdAt == stored.createdAt
        && saved.state == record.state && saved.attempts == record.attempts && saved.replayCount == record.replayCount
        && saved.nextAttemptAt == record.nextAttemptAt && saved.updatedAt == record.updatedAt
        && saved.lastStatus == record.lastStatus && saved.lastErrorCode == record.lastErrorCode
      ensures forall other :: other in rows && other != record.id ==> rows[other] == old(rows)[other]
      ensures rows == SaveRow(old(rows), record)
    {
      if record.id in rows {
        var row := rows[record.id];
        row := row.(state := record.state, attempts := record.attempts, nextAttemptAt := record.nextAttemptAt);
        row := row.(updatedAt := record.updatedAt, replayCount := record.replayCount);
        row := row.(lastStatus := record.lastStatus, lastErrorCode := record.lastErrorCode, id := record.id);
        rows := rows[record.id := row];
      }
    }
  }
}
