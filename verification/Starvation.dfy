/**
 Rows that keep failing cannot starve a fresh one: in thirty one-second ticks the backoff lets a
 failing row be claimed at most three times, so it takes a thousand of them to fill thirty batches.
 */
module Starvation {
  import opened Prelude
  import opened Outbox
  import opened Ticks

  /** One tick, and the rows that arrive before the next. */
  datatype Round = Round(tick: WorkerTick, arrivals: Table)

  function Next(t: Table, r: Round, now: Time, worker: string): Table {
    AfterTick(t, r.tick, now, worker) + r.arrivals
  }

  /** Arrivals are fresh rows; those that come before x in the claim's order are among the rows reckoned with. */
  predicate Arrive(t: Table, arrivals: Table, x: Uuid, ahead: set<Uuid>)
    requires x in t
  {
    forall id :: id in arrivals ==>
      && id !in t && arrivals[id].attempts == 0 && arrivals[id].nextAttemptAt.None?
      && (id in ahead || t[x].createdAt < arrivals[id].createdAt || (t[x].createdAt == arrivals[id].createdAt && x < id))
  }

  /** Rounds a second apart from `now` on, none of which claims x; rows that are not failing are never refused. */
  ghost predicate PassesOver(
    t: Table, now: Time, rounds: seq<Round>, x: Uuid, failing: set<Uuid>, healthy: set<Uuid>, worker: string)
    decreases |rounds|
  {
    rounds == [] ||
    (var r := rounds[0];
     && !r.tick.failed && IsTick(t, r.tick, now)
     && x in t && x !in r.tick.claimed && Arrive(t, r.arrivals, x, failing + healthy)
     && (forall id :: id in r.tick.claimed && id !in failing ==> !r.tick.fate(id).Refused?)
     && PassesOver(Next(t, r, now, worker), now + PUBLISH_INTERVAL, rounds[1..], x, failing, healthy, worker))
  }

  /** Claims that a row first due at `due`, with a failures behind it, can still have up to `end`, failing each time. */
  function Claims(due: Time, a: nat, end: Time): nat
    decreases Max(0, end - due + 1)
  {
    if due > end then 0 else 1 + Claims(due + Min(a + 1, 6) * RETRY_DELAY, a + 1, end)
  }

  function Max(a: int, b: int): int {
    if a >= b then a else b
  }

  lemma {:induction false} LaterMeansFewer(due: Time, due': Time, a: nat, end: Time)
    requires due <= due'
    ensures Claims(due', a, end) <= Claims(due, a, end)
    decreases Max(0, end - due + 1)
  {
    if due' <= end {
      LaterMeansFewer(due + Min(a + 1, 6) * RETRY_DELAY, due' + Min(a + 1, 6) * RETRY_DELAY, a + 1, end);
    }
  }

  /** Waits of at least 5, 10 and 15 seconds: the fourth claim is thirty seconds after the first. */
  lemma AtMostThree(due: Time, a: nat, end: Time)
    requires end < due + 30 * SECOND
    ensures Claims(due, a, end) <= 3
  {
    var second := due + Min(a + 1, 6) * RETRY_DELAY;
    var third := second + Min(a + 2, 6) * RETRY_DELAY;
    var fourth := third + Min(a + 3, 6) * RETRY_DELAY;
    assert fourth >= due + 30 * SECOND > end;
    assert Claims(fourth, a + 3, end) == 0;
    assert Claims(third, a + 2, end) <= 1;
    assert Claims(second, a + 1, end) <= 2;
  }

  /** How often a row can still be claimed up to `end`. */
  function Credit(row: Row, now: Time, end: Time, failing: bool): nat {
    if row.publishedAt.Some? || (row.lockedAt.Some? && row.lockedAt.value >= end - LEASE) then 0
    else if failing then Claims(if row.nextAttemptAt.Some? then Max(now, row.nextAttemptAt.value) else now, row.attempts, end)
    else 1
  }

  lemma WaitingKeepsCredit(row: Row, now: Time, end: Time, failing: bool)
    ensures Credit(row, now + PUBLISH_INTERVAL, end, failing) <= Credit(row, now, end, failing)
  {
    var next := if row.nextAttemptAt.Some? then row.nextAttemptAt.value else now;
    LaterMeansFewer(Max(now, next), Max(now + PUBLISH_INTERVAL, next), row.attempts, end);
    LaterMeansFewer(now, now + PUBLISH_INTERVAL, row.attempts, end);
  }

  lemma ClaimCostsCredit(row: Row, now: Time, end: Time, failing: bool, fate: Fate, worker: string)
    requires Eligible(row, now) && now <= end <= now + LEASE && (failing || !fate.Refused?)
    ensures Credit(Settle(Locked(row, now, worker), fate, now), now + PUBLISH_INTERVAL, end, failing) + 1
         <= Credit(row, now, end, failing)
  {
  }

  /** The credit of a row that is there or may yet arrive. */
  function CreditOf(id: Uuid, t: Table, now: Time, end: Time, failing: set<Uuid>): nat {
    if id in t then Credit(t[id], now, end, id in failing)
    else if id in failing then Claims(now, 0, end) else 1
  }

  function TotalCredit(ids: seq<Uuid>, t: Table, now: Time, end: Time, failing: set<Uuid>): nat {
    if ids == [] then 0 else CreditOf(ids[0], t, now, end, failing) + TotalCredit(ids[1..], t, now, end, failing)
  }

  function CountIn(ids: seq<Uuid>, s: set<Uuid>): nat {
    if ids == [] then 0 else (if ids[0] in s then 1 else 0) + CountIn(ids[1..], s)
  }

  lemma {:induction false} CountsAll(ids: seq<Uuid>, s: set<Uuid>)
    requires Distinct(ids) && s <= Elements(ids)
    ensures CountIn(ids, s) == |s|
  {
    if ids == [] {
      assert s == {};
    } else {
      var rest := s - {ids[0]};
      forall id | id in rest ensures id in Elements(ids[1..]) {
        assert id in ids;
      }
      CountsAll(ids[1..], rest);
      CountInSkips(ids[1..], s, ids[0]);
      OneMemberMoves(rest, s, ids[0]);
    }
  }

  lemma {:induction false} CountInSkips(ids: seq<Uuid>, s: set<Uuid>, x: Uuid)
    requires x !in ids
    ensures CountIn(ids, s) == CountIn(ids, s - {x})
  {
    if ids != [] {
      CountInSkips(ids[1..], s, x);
    }
  }

  /** A tick spends one credit for every row it claims. */
  lemma {:induction false} TickSpends(ids: seq<Uuid>, t: Table, r: Round, now: Time, end: Time, failing: set<Uuid>, worker: string)
    requires IsTick(t, r.tick, now) && now <= end <= now + LEASE
    requires forall id :: id in r.arrivals ==> id !in t && r.arrivals[id].attempts == 0 && r.arrivals[id].nextAttemptAt.None?
    requires forall id :: id in r.tick.claimed && id !in failing ==> !r.tick.fate(id).Refused?
    ensures TotalCredit(ids, Next(t, r, now, worker), now + PUBLISH_INTERVAL, end, failing) + CountIn(ids, r.tick.claimed)
         <= TotalCredit(ids, t, now, end, failing)
  {
    if ids != [] {
      var id := ids[0];
      TickSpends(ids[1..], t, r, now, end, failing, worker);
      if id in t {
        WaitingKeepsCredit(t[id], now, end, id in failing);
        if id in r.tick.claimed {
          ClaimCostsCredit(t[id], now, end, id in failing, r.tick.fate(id), worker);
        }
      } else {
        LaterMeansFewer(now, now + PUBLISH_INTERVAL, 0, end);
      }
    }
  }

  /** Every pending row before x is among the listed. */
  predicate ListsAhead(t: Table, x: Uuid, ids: seq<Uuid>) {
    x in t && forall id :: id in t && t[id].publishedAt.None? && Before(t, id, x) ==> id in ids
  }

  /** A tick that passes over an eligible row claims a full batch of rows before it. */
  lemma PassingOverFillsTheBatch(t: Table, tick: WorkerTick, now: Time, x: Uuid, ids: seq<Uuid>)
    requires !tick.failed && IsTick(t, tick, now) && ListsAhead(t, x, ids)
    requires Eligible(t[x], now) && x !in tick.claimed
    ensures |tick.claimed| == BATCH && tick.claimed <= Elements(ids)
  {
    var eligible := EligibleIds(t, now, {});
    assert x in eligible;
    SubsetCount(tick.claimed, eligible);
  }

  lemma ListsAheadStays(t: Table, r: Round, now: Time, x: Uuid, ids: seq<Uuid>, worker: string)
    requires ListsAhead(t, x, ids) && Arrive(t, r.arrivals, x, Elements(ids))
    ensures ListsAhead(Next(t, r, now, worker), x, ids)
  {
    var t' := Next(t, r, now, worker);
    assert forall id :: id in t ==> (Before(t', id, x) <==> Before(t, id, x));
  }

  /** Rounds that all pass over x use up a hundred credits each. */
  lemma {:induction false} PassingOverCosts(
    t: Table, now: Time, rounds: seq<Round>, x: Uuid, ids: seq<Uuid>,
    failing: set<Uuid>, healthy: set<Uuid>, worker: string, end: Time)
    requires PassesOver(t, now, rounds, x, failing, healthy, worker) && ListsAhead(t, x, ids) && Eligible(t[x], now)
    requires Distinct(ids) && Elements(ids) == failing + healthy
    requires end == now + (|rounds| - 1) * PUBLISH_INTERVAL && |rounds| <= 300
    ensures BATCH * |rounds| <= TotalCredit(ids, t, now, end, failing)
    decreases |rounds|
  {
    if rounds != [] {
      var r := rounds[0];
      PassingOverFillsTheBatch(t, r.tick, now, x, ids);
      CountsAll(ids, r.tick.claimed);
      TickSpends(ids, t, r, now, end, failing, worker);
      ListsAheadStays(t, r, now, x, ids, worker);
      PassingOverCosts(Next(t, r, now, worker), now + PUBLISH_INTERVAL, rounds[1..], x, ids, failing, healthy, worker, end);
    }
  }

  lemma {:induction false} CreditBound(ids: seq<Uuid>, t: Table, now: Time, end: Time, failing: set<Uuid>)
    requires end < now + 30 * SECOND
    ensures TotalCredit(ids, t, now, end, failing) <= |ids| + 2 * CountIn(ids, failing)
  {
    if ids != [] {
      CreditBound(ids[1..], t, now, end, failing);
      AtMostThree(now, 0, end);
      if ids[0] in t {
        var row := t[ids[0]];
        AtMostThree(if row.nextAttemptAt.Some? then Max(now, row.nextAttemptAt.value) else now, row.attempts, end);
      }
    }
  }

  lemma {:induction false} Listing(s: set<Uuid>) returns (ids: seq<Uuid>)
    ensures Distinct(ids) && Elements(ids) == s && |ids| == |s|
    decreases s
  {
    if s == {} {
      ids := [];
    } else {
      var x :| x in s;
      var rest := Listing(s - {x});
      assert x !in Elements(rest);
      ids := rest + [x];
    }
  }

  lemma CreditAhead(t: Table, now: Time, end: Time, failing: set<Uuid>, healthy: set<Uuid>, ids: seq<Uuid>)
    requires failing !! healthy && Distinct(ids) && Elements(ids) == failing + healthy && end < now + 30 * SECOND
    ensures TotalCredit(ids, t, now, end, failing) <= 3 * |failing| + |healthy|
  {
    CreditBound(ids, t, now, end, failing);
    CountsAll(ids, failing);
    DistinctCount(ids);
  }

  /**
   No starvation: with P rows that may fail and h that do not ahead of an eligible row, and 3P + h < 3000,
   thirty ticks a second apart cannot all pass it over.
   */
  lemma NoStarvation(t: Table, now: Time, rounds: seq<Round>, x: Uuid, failing: set<Uuid>, healthy: set<Uuid>, worker: string)
    requires x in t && Eligible(t[x], now) && |rounds| == 30 && failing !! healthy
    requires forall id :: id in t && t[id].publishedAt.None? && Before(t, id, x) ==> id in failing || id in healthy
    requires 3 * |failing| + |healthy| < 3000
    ensures !PassesOver(t, now, rounds, x, failing, healthy, worker)
  {
    var ids := Listing(failing + healthy);
    var end := now + 29 * PUBLISH_INTERVAL;
    CreditAhead(t, now, end, failing, healthy, ids);
    assert ListsAhead(t, x, ids) by {
      assert forall id :: id in failing + healthy ==> id in Elements(ids);
    }
    if PassesOver(t, now, rounds, x, failing, healthy, worker) {
      PassingOverCosts(t, now, rounds, x, ids, failing, healthy, worker, end);
    }
  }
}
