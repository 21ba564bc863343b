/**
 The outbox_events table and its SQL statements (internal/repository/outbox.sql.go,
 db/migrations/00002_outbox_events.sql), each statement as a function on the table.
 */
module Outbox {
  import opened Prelude
  import Envelopes

  /** The columns that the insert fixes for good. */
  datatype Content = Content(
    aggregateType: string, aggregateId: Uuid, eventType: string, eventVersion: nat,
    topic: string, payload: Envelopes.Document, traceId: Option<string>)

  datatype Row = Row(
    content: Content, createdAt: Time, publishedAt: Option<Time>,
    attempts: nat, nextAttemptAt: Option<Time>,
    lockedAt: Option<Time>, lockedBy: Option<string>, lastError: Option<string>)

  type Table = map<Uuid, Row>

  /** One row as a claim returns it. */
  datatype Claimed = Claimed(id: Uuid, row: Row)

  const LEASE: Time := 5 * MINUTE
  const RETENTION: Time := 7 * DAY
  const RETRY_DELAY: Time := 5 * SECOND

  /** The wait before the next attempt, with Go's int32 increment. */
  function Backoff(attempts: nat): Time {
    Min(Int32(attempts + 1), 6) * RETRY_DELAY
  }

  predicate Eligible(row: Row, now: Time) {
    && row.publishedAt.None?
    && (row.nextAttemptAt.None? || row.nextAttemptAt.value <= now)
    && (row.lockedAt.None? || row.lockedAt.value < now - LEASE)
  }

  /** ORDER BY created_at, id. */
  predicate Before(t: Table, a: Uuid, b: Uuid) {
    && a in t && b in t
    && (t[a].createdAt < t[b].createdAt || (t[a].createdAt == t[b].createdAt && a < b))
  }

  /** The rows the claim's WHERE clause lets through, less those another transaction holds. */
  function EligibleIds(t: Table, now: Time, skip: set<Uuid>): set<Uuid> {
    set id | id in t && id !in skip && Eligible(t[id], now)
  }

  /** The claimed set is a prefix of the eligible rows in order, as long as the limit allows. */
  predicate IsSortedPrefix(t: Table, now: Time, limit: nat, skip: set<Uuid>, claimed: set<Uuid>) {
    var eligible := EligibleIds(t, now, skip);
    && claimed <= eligible
    && |claimed| == Min(limit, |eligible|)
    && forall a, b :: a in claimed && b in eligible && b !in claimed ==> Before(t, a, b)
  }

  function Locked(row: Row, now: Time, worker: string): Row {
    row.(lockedAt := Some(now), lockedBy := Some(worker))
  }

  function Claim(t: Table, claimed: set<Uuid>, now: Time, worker: string): Table {
    map id | id in t :: if id in claimed then Locked(t[id], now, worker) else t[id]
  }

  /** INSERT ... ON CONFLICT (id) DO NOTHING. */
  function Insert(t: Table, id: Uuid, content: Content, createdAt: Time): Table {
    if id in t then t else t[id := Row(content, createdAt, None, 0, None, None, None, None)]
  }

  predicate Pending(t: Table, id: Uuid) {
    id in t && t[id].publishedAt.None?
  }

  /** Whether the failure mark changes a row: an unpublished one whose INTEGER counter has room. */
  predicate CanFail(t: Table, id: Uuid) {
    Pending(t, id) && t[id].attempts < MAX_INT32
  }

  function MarkFailed(t: Table, id: Uuid, retryAt: Time, cause: string): Table {
    if !CanFail(t, id) then t
    else t[id := t[id].(attempts := t[id].attempts + 1, nextAttemptAt := Some(retryAt), lastError := Some(cause),
                        lockedAt := None, lockedBy := None)]
  }

  function MarkPublished(t: Table, id: Uuid, now: Time): Table {
    if !Pending(t, id) then t
    else t[id := t[id].(publishedAt := Some(now), lockedAt := None, lockedBy := None, lastError := None)]
  }

  function Release(t: Table, id: Uuid): Table {
    if !Pending(t, id) then t else t[id := t[id].(lockedAt := None, lockedBy := None)]
  }

  predicate PastRetention(row: Row, now: Time) {
    row.publishedAt.Some? && row.publishedAt.value < now - RETENTION
  }

  function DeletePublished(t: Table, now: Time): Table {
    map id | id in t && !PastRetention(t[id], now) :: t[id]
  }

  /** The insert-time columns of every row. */
  function Contents(t: Table): map<Uuid, Content> {
    map id | id in t :: t[id].content
  }

  predicate IsEarliest(t: Table, ids: set<Uuid>, first: Uuid) {
    first in ids && forall b :: b in ids && b != first ==> Before(t, first, b)
  }

  lemma {:induction false} EarliestExists(t: Table, ids: set<Uuid>)
    requires ids != {} && ids <= t.Keys
    ensures exists first :: IsEarliest(t, ids, first)
  {
    var x :| x in ids;
    if ids == {x} {
      assert IsEarliest(t, ids, x);
    } else {
      var rest := ids - {x};
      assert rest != {} by { assert rest + {x} == ids; }
      EarliestExists(t, rest);
      var y :| IsEarliest(t, rest, y);
      assert ids == rest + {x} && y != x;
      if Before(t, x, y) {
        assert IsEarliest(t, ids, x);
      } else {
        assert Before(t, y, x);
        assert IsEarliest(t, ids, y);
      }
    }
  }

  /** The claim statement determines which rows it takes. */
  lemma SortedPrefixUnique(t: Table, now: Time, limit: nat, skip: set<Uuid>, c: set<Uuid>, d: set<Uuid>)
    requires IsSortedPrefix(t, now, limit, skip, c) && IsSortedPrefix(t, now, limit, skip, d)
    ensures c == d
  {
    if c != d {
      if c <= d { SubsetCount(c, d); }
      if d <= c { SubsetCount(d, c); }
      var a :| a in c && a !in d;
      var b :| b in d && b !in c;
    }
  }

  /** The claim statement always has an answer. */
  lemma {:induction false} PrefixExists(t: Table, now: Time, limit: nat, skip: set<Uuid>) returns (claimed: set<Uuid>)
    ensures IsSortedPrefix(t, now, limit, skip, claimed)
  {
    var eligible := EligibleIds(t, now, skip);
    if limit == 0 {
      claimed := {};
    } else {
      claimed := PrefixExists(t, now, limit - 1, skip);
      var rest := eligible - claimed;
      assert eligible == claimed + rest;
      if rest != {} {
        EarliestExists(t, rest);
        var first :| IsEarliest(t, rest, first);
        SubsetCount({first}, rest);
        claimed := claimed + {first};
      }
    }
  }

  /** Rows outside the claim are untouched; rows inside change only in their lock columns. */
  lemma ClaimTouchesOnlyLocks(t: Table, claimed: set<Uuid>, now: Time, worker: string)
    ensures Claim(t, claimed, now, worker).Keys == t.Keys
    ensures forall id :: id in t && id !in claimed ==> Claim(t, claimed, now, worker)[id] == t[id]
    ensures forall id :: id in t && id in claimed ==>
      var row := Claim(t, claimed, now, worker)[id];
      && row.lockedAt == Some(now) && row.lockedBy == Some(worker)
      && row.(lockedAt := t[id].lockedAt, lockedBy := t[id].lockedBy) == t[id]
    ensures Contents(Claim(t, claimed, now, worker)) == Contents(t)
  {
  }

  // When a row can be claimed.

  /** What a statement about one row leaves alone. */
  predicate OthersUntouched(t: Table, t': Table, id: Uuid) {
    t' - {id} == t - {id}
  }

  /** A new row at once. */
  lemma NewIsDue(t: Table, id: Uuid, content: Content, createdAt: Time, now: Time)
    requires id !in t
    ensures var t' := Insert(t, id, content, createdAt);
      && OthersUntouched(t, t', id) && id in t' && Eligible(t'[id], now)
      && t'[id].content == content && t'[id].createdAt == createdAt && t'[id].attempts == 0
  {
  }

  /** A claimed row that nobody touches again exactly when five minutes have passed. */
  lemma ClaimedIsDueIff(t: Table, claimed: set<Uuid>, now: Time, worker: string, id: Uuid, later: Time)
    requires id in t && id in claimed && Eligible(t[id], now) && now <= later
    ensures Eligible(Claim(t, claimed, now, worker)[id], later) <==> later - now > 5 * 60 * 1_000_000
  {
  }

  /** A row that could not be published, and that nobody touches again, exactly when 5, 10, ..., 30 seconds have passed. */
  lemma FailedIsDueIff(t: Table, id: Uuid, clock: Time, cause: string, later: Time)
    requires CanFail(t, id)
    ensures var n, t' := t[id].attempts, MarkFailed(t, id, clock + Backoff(t[id].attempts), cause);
      && (Eligible(t'[id], later) <==> later - clock >= (if n < 6 then 5 * (n + 1) else 30) * 1_000_000)
      && OthersUntouched(t, t', id) && t'[id].attempts == n + 1 && t'[id].lastError == Some(cause) && t'[id].lockedBy.None?
      && t'[id].publishedAt.None? && t'[id].content == t[id].content && t'[id].createdAt == t[id].createdAt
  {
  }

  /** A published row never again. */
  lemma PublishedIsNeverDue(t: Table, id: Uuid, now: Time, later: Time)
    requires Pending(t, id)
    ensures var t' := MarkPublished(t, id, now);
      && !Eligible(t'[id], later)
      && OthersUntouched(t, t', id) && t'[id].publishedAt == Some(now) && t'[id].lastError.None?
      && t'[id].lockedAt.None? && t'[id].lockedBy.None?
      && t'[id].content == t[id].content && t'[id].createdAt == t[id].createdAt && t'[id].attempts == t[id].attempts
  {
  }

  /** A released row exactly when its latest wait is over. */
  lemma ReleasedIsDueIff(t: Table, id: Uuid, later: Time)
    requires Pending(t, id)
    ensures var t' := Release(t, id);
      && (Eligible(t'[id], later) <==> t[id].nextAttemptAt.None? || t[id].nextAttemptAt.value <= later)
      && OthersUntouched(t, t', id) && t'[id].lockedBy.None?
      && t'[id].(lockedAt := t[id].lockedAt, lockedBy := t[id].lockedBy) == t[id]
  {
  }

  method Earliest(t: Table, ids: set<Uuid>) returns (first: Uuid)
    requires ids != {} && ids <= t.Keys
    ensures IsEarliest(t, ids, first)
  {
    EarliestExists(t, ids);
    first :| first in ids && IsEarliest(t, ids, first);
  }

  /** The chosen are in order and all before the rest; together they are the eligible. */
  ghost predicate Split(t: Table, eligible: set<Uuid>, chosen: seq<Uuid>, rest: set<Uuid>) {
    && Distinct(chosen) && rest <= eligible && Elements(chosen) == eligible - rest
    && (forall a, b :: a in chosen && b in rest ==> Before(t, a, b))
    && forall i, j :: 0 <= i < j < |chosen| ==> Before(t, chosen[i], chosen[j])
  }

  lemma TakeEarliest(t: Table, eligible: set<Uuid>, chosen: seq<Uuid>, rest: set<Uuid>, first: Uuid)
    requires Split(t, eligible, chosen, rest) && IsEarliest(t, rest, first)
    ensures Split(t, eligible, chosen + [first], rest - {first})
  {
    var longer := chosen + [first];
    assert first !in chosen;
    assert Elements(longer) == Elements(chosen) + {first};
    forall a, b | a in longer && b in rest - {first} ensures Before(t, a, b) {
      assert a in chosen || a == first;
    }
  }

  lemma SplitIsPrefix(t: Table, now: Time, limit: nat, skip: set<Uuid>, chosen: seq<Uuid>, rest: set<Uuid>)
    requires Split(t, EligibleIds(t, now, skip), chosen, rest)
    requires |chosen| == limit || (|chosen| < limit && rest == {})
    ensures IsSortedPrefix(t, now, limit, skip, Elements(chosen))
  {
    DistinctCount(chosen);
    SubsetCount(Elements(chosen), EligibleIds(t, now, skip));
  }

  /** Of two rows exactly one comes first: the older, or at the same age the one with the lower id. */
  lemma OlderComesFirst(t: Table, a: Uuid, b: Uuid)
    requires a in t && b in t && a != b
    ensures Before(t, a, b) <==> !Before(t, b, a)
    ensures t[a].createdAt < t[b].createdAt ==> Before(t, a, b)
    ensures t[a].createdAt == t[b].createdAt && a < b ==> Before(t, a, b)
  {
  }

  /** Evaluates the claim's subselect: repeatedly take the earliest eligible row left. */
  method SelectPending(t: Table, now: Time, limit: nat, skip: set<Uuid>) returns (chosen: seq<Uuid>)
    ensures Distinct(chosen)
    ensures IsSortedPrefix(t, now, limit, skip, Elements(chosen))
    ensures forall i, j :: 0 <= i < j < |chosen| ==> Before(t, chosen[i], chosen[j])
  {
    var rest := EligibleIds(t, now, skip);
    ghost var eligible := rest;
    chosen := [];
    while |chosen| < limit && rest != {}
      invariant |chosen| <= limit && Split(t, eligible, chosen, rest)
      decreases rest
    {
      var first := Earliest(t, rest);
      TakeEarliest(t, eligible, chosen, rest, first);
      chosen := chosen + [first];
      rest := rest - {first};
    }
    SplitIsPrefix(t, now, limit, skip, chosen, rest);
  }
}
