/**
 The repository: the SQL statements run against the rows (internal/repository/outbox.sql.go),
 and the transaction wrapper (internal/repository/store.go).
 */
module Queries {
  import opened Prelude
  import opened Outbox
  import opened Courier

  class Store {
    var rows: Table

    constructor ()
      ensures rows == map[]
    {
      rows := map[];
    }

    /** INSERT ... ON CONFLICT (id) DO NOTHING; reports how many rows it added. */
    method CreateOutboxEvent(id: Uuid, content: Content, now: Time) returns (affected: nat)
      modifies this
      ensures rows == Outbox.Insert(old(rows), id, content, now)
      ensures affected == |rows| - |old(rows)|
    {
      if id in rows {
        return 0;
      }
      rows := rows[id := Row(content, now, None, 0, None, None, None, None)];
      assert rows.Keys == old(rows.Keys) + {id};
      return 1;
    }

    /** The UPDATE part of the claim, one chosen row after the other. */
    method Lock(chosen: seq<Uuid>, now: Time, worker: string)
      requires Distinct(chosen) && Elements(chosen) <= rows.Keys
      modifies this
      ensures rows == Outbox.Claim(old(rows), Elements(chosen), now, worker)
    {
      for i := 0 to |chosen|
        invariant rows.Keys == old(rows.Keys)
        invariant forall id :: id in rows ==>
          rows[id] == if id in chosen[..i] then Locked(old(rows)[id], now, worker) else old(rows)[id]
      {
        assert chosen[i] in Elements(chosen);
        rows := rows[chosen[i] := Locked(rows[chosen[i]], now, worker)];
      }
      assert chosen[..|chosen|] == chosen;
    }

    /** RETURNING: the rows come in whatever order the database likes. */
    method Collect(ids: set<Uuid>) returns (items: seq<Claimed>, order: seq<Uuid>)
      requires ids <= rows.Keys
      ensures Distinct(order) && Elements(order) == ids
      ensures (forall i :: 0 <= i < |order| ==> order[i] in rows) && items == Snapshot(rows, order)
    {
      items := [];
      order := [];
      var rest := ids;
      while rest != {}
        invariant rest <= ids && Distinct(order) && Elements(order) == ids - rest
        invariant (forall i :: 0 <= i < |order| ==> order[i] in rows) && items == Snapshot(rows, order)
        decreases rest
      {
        var id :| id in rest;
        assert id !in order;
        assert Elements(order + [id]) == Elements(order) + {id};
        items := items + [Claimed(id, rows[id])];
        order := order + [id];
        rest := rest - {id};
      }
    }

    /**
     Locks and returns the earliest eligible rows, as many as the limit allows; rows locked by another transaction
     are skipped. A negative LIMIT is an error.
     */
    method ClaimPendingOutboxEvents(limit: int, worker: string, now: Time, skip: set<Uuid>)
      returns (r: Result<seq<Claimed>, string>, order: seq<Uuid>)
      modifies this
      ensures r.Err? <==> limit < 0
      ensures r.Err? ==> rows == old(rows)
      ensures r.Ok? ==>
        && Distinct(order) && IsSortedPrefix(old(rows), now, limit, skip, Elements(order))
        && rows == Outbox.Claim(old(rows), Elements(order), now, worker)
        && (forall i :: 0 <= i < |order| ==> order[i] in rows) && r.value == Snapshot(rows, order)
    {
      if limit < 0 {
        return Err("LIMIT must not be negative"), [];
      }
      var chosen := SelectPending(rows, now, limit, skip);
      Lock(chosen, now, worker);
      var items, returned := Collect(Elements(chosen));
      return Ok(items), returned;
    }

    /** Counts the failure and lets go of the row, unless it is published; a full counter is an error. */
    method MarkOutboxEventFailed(id: Uuid, nextAttemptAt: Time, lastError: string) returns (failed: bool)
      modifies this
      ensures rows == Outbox.MarkFailed(old(rows), id, nextAttemptAt, lastError)
      ensures failed <==> id in old(rows) && old(rows)[id].publishedAt.None? && old(rows)[id].attempts >= 0x7fff_ffff
    {
      if id !in rows || rows[id].publishedAt.Some? {
        return false;
      }
      var row := rows[id];
      if row.attempts >= MAX_INT32 {
        return true;
      }
      rows := rows[id := Row(row.content, row.createdAt, None, row.attempts + 1, Some(nextAttemptAt), None, None, Some(lastError))];
      return false;
    }

    method MarkOutboxEventPublished(id: Uuid, now: Time)
      modifies this
      ensures rows == Outbox.MarkPublished(old(rows), id, now)
    {
      if id in rows && rows[id].publishedAt.None? {
        var row := rows[id];
        rows := rows[id := Row(row.content, row.createdAt, Some(now), row.attempts, row.nextAttemptAt, None, None, None)];
      }
    }

    method ReleaseOutboxEventLock(id: Uuid)
      modifies this
      ensures rows == Outbox.Release(old(rows), id)
    {
      if id in rows && rows[id].publishedAt.None? {
        var row := rows[id];
        rows := rows[id := Row(row.content, row.createdAt, None, row.attempts, row.nextAttemptAt, None, None, row.lastError)];
      }
    }

    /** Deletes what was published more than seven days ago; reports how many rows that was. */
    method DeletePublishedOutboxEvents(now: Time) returns (affected: nat)
      modifies this
      ensures rows == Outbox.DeletePublished(old(rows), now)
      ensures affected == |old(rows)| - |rows|
      ensures forall id :: id in rows ==> id in old(rows) && rows[id] == old(rows)[id]
      ensures forall id :: id in old(rows) ==>
        (id !in rows <==> old(rows)[id].publishedAt.Some? && now - old(rows)[id].publishedAt.value > 7 * 24 * 60 * 60 * 1_000_000)
    {
      var rest := rows.Keys;
      affected := 0;
      while rest != {}
        invariant rest <= rows.Keys <= old(rows).Keys && affected == |old(rows).Keys| - |rows.Keys|
        invariant forall id :: id in rows ==> rows[id] == old(rows)[id]
        invariant forall id :: id in old(rows) && id !in rest ==> (id in rows <==> !PastRetention(old(rows)[id], now))
        decreases rest
      {
        var id :| id in rest;
        rest := rest - {id};
        if rows[id].publishedAt.Some? && rows[id].publishedAt.value < now - RETENTION {
          ghost var before := rows.Keys;
          rows := rows - {id};
          assert rows.Keys == before - {id};
          affected := affected + 1;
        }
      }
    }

    /**
     ExecTx around the insert: begin, run, then commit or roll back. Whatever goes wrong, the row is there or nothing
     has changed; only an error on commit leaves the caller in doubt which.
     */
    method ExecTx(id: Uuid, content: Content, now: Time, begins: bool, inserts: bool, commit: Outcome) returns (o: Outcome)
      modifies this
      ensures o == (if begins && inserts then commit else Failed)
      ensures rows == if o.Failed? then old(rows) else Outbox.Insert(old(rows), id, content, now)
    {
      if !begins {
        return Failed;
      }
      var saved := rows;
      if inserts {
        var _ := CreateOutboxEvent(id, content, now);
      }
      if !inserts || commit.Failed? {
        rows := saved;
        return Failed;
      }
      return commit;
    }
  }
}
