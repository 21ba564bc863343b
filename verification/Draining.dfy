/** The outbox drains: a hundred rows a tick, oldest first, and to the last row however faults are spread. */
module Draining {
  import opened Prelude
  import opened Outbox
  import opened Ticks

  function PendingIds(t: Table): set<Uuid> {
    set id | id in t && t[id].publishedAt.None?
  }

  /** One tick, and the table it finds if others have changed it since the last. */
  datatype Turn = Turn(found: Option<Table>, tick: WorkerTick)

  function Found(t: Table, turn: Turn): Table {
    if turn.found.Some? then turn.found.value else t
  }

  function AfterTurn(t: Table, turn: Turn, now: Time, worker: string): Table {
    AfterTick(Found(t, turn), turn.tick, now, worker)
  }

  /** A tick without a fault: the claim works, and every claimed row is published and marked. */
  predicate Clean(tick: WorkerTick) {
    !tick.failed && forall id :: id in tick.claimed ==> tick.fate(id) == Published
  }

  predicate Faultless(turn: Turn) {
    turn.found.None? && Clean(turn.tick)
  }

  /** The table after one tick a second, the first at `now`. */
  function Final(t: Table, now: Time, turns: seq<Turn>, worker: string): Table
    decreases |turns|
  {
    if turns == [] then t else Final(AfterTurn(t, turns[0], now, worker), now + PUBLISH_INTERVAL, turns[1..], worker)
  }

  /** Pending rows are locked no later than `last` and due at most one longest backoff after it. */
  predicate Bounded(t: Table, last: Time) {
    forall id :: id in t && t[id].publishedAt.None? ==>
      && (t[id].lockedAt.Some? ==> t[id].lockedAt.value <= last)
      && (t[id].nextAttemptAt.Some? ==> t[id].nextAttemptAt.value <= last + 6 * RETRY_DELAY)
  }

  /** Others may lock, fail, publish and release rows, but bring in no pending ones. */
  predicate Meanwhile(t: Table, turn: Turn, now: Time) {
    turn.found.Some? ==> Bounded(turn.found.value, now) && PendingIds(turn.found.value) <= PendingIds(t)
  }

  /** Every tick claims what the claim statement claims on the table it finds. */
  predicate IsWork(t: Table, now: Time, turns: seq<Turn>, worker: string)
    decreases |turns|
  {
    turns == [] ||
    (Meanwhile(t, turns[0], now) && IsTick(Found(t, turns[0]), turns[0].tick, now)
     && IsWork(AfterTurn(t, turns[0], now, worker), now + PUBLISH_INTERVAL, turns[1..], worker))
  }

  predicate AllEligible(t: Table, now: Time) {
    forall id :: id in t && t[id].publishedAt.None? ==> Eligible(t[id], now)
  }

  /** The pending rows of t' are pending rows of t, unchanged. */
  ghost predicate OnlyPublishes(t: Table, t': Table) {
    && PendingIds(t') <= PendingIds(t)
    && forall id :: id in PendingIds(t') ==> t'[id] == t[id]
  }

  /** What was published in between is older than what is left. */
  ghost predicate OldestFirst(t: Table, t': Table) {
    forall a, b :: a in PendingIds(t) - PendingIds(t') && b in PendingIds(t') ==> Before(t, a, b)
  }

  /** All rows are still there with their content, and published ones are as they were. */
  ghost predicate RowsKept(t: Table, t': Table) {
    && t'.Keys == t.Keys
    && forall id :: id in t ==> t'[id].content == t[id].content && (t[id].publishedAt.Some? ==> t'[id] == t[id])
  }

  lemma TickKeepsOrder(t: Table, tick: WorkerTick, now: Time, worker: string)
    ensures forall a, b :: Before(AfterTick(t, tick, now, worker), a, b) <==> Before(t, a, b)
  {
  }

  lemma CleanTickPublishes(t: Table, tick: WorkerTick, now: Time, worker: string)
    requires IsTick(t, tick, now) && Clean(tick)
    ensures PendingIds(AfterTick(t, tick, now, worker)) == PendingIds(t) - tick.claimed
    ensures OnlyPublishes(t, AfterTick(t, tick, now, worker))
  {
  }

  /** With every pending row eligible, a clean tick publishes the hundred oldest. */
  lemma CleanTickDrains(t: Table, tick: WorkerTick, now: Time, worker: string)
    requires IsTick(t, tick, now) && Clean(tick) && AllEligible(t, now)
    ensures var t' := AfterTick(t, tick, now, worker);
      && |PendingIds(t')| == |PendingIds(t)| - Min(BATCH, |PendingIds(t)|)
      && OldestFirst(t, t')
  {
    CleanTickPublishes(t, tick, now, worker);
    assert EligibleIds(t, now, {}) == PendingIds(t);
  }

  lemma EligibleStays(t: Table, now: Time, t': Table, now': Time)
    requires AllEligible(t, now) && OnlyPublishes(t, t') && now <= now'
    ensures AllEligible(t', now')
  {
    forall id | id in t' && t'[id].publishedAt.None? ensures Eligible(t'[id], now') {
      assert id in PendingIds(t');
    }
  }

  lemma OldestFirstChains(t: Table, t': Table, t'': Table)
    requires OldestFirst(t, t') && OldestFirst(t', t'') && OnlyPublishes(t, t') && OnlyPublishes(t', t'')
    requires forall a, b :: Before(t', a, b) <==> Before(t, a, b)
    ensures OldestFirst(t, t'') && OnlyPublishes(t, t'')
  {
  }

  lemma TickKeepsRows(t: Table, tick: WorkerTick, now: Time, worker: string)
    requires IsTick(t, tick, now)
    ensures RowsKept(t, AfterTick(t, tick, now, worker))
  {
  }

  lemma RowsKeptChains(t: Table, t': Table, t'': Table)
    requires RowsKept(t, t') && RowsKept(t', t'')
    ensures RowsKept(t, t'')
  {
  }

  /**
   k fault-free ticks over n eligible rows leave exactly max(0, n - 100k) of them pending, untouched, and those are the
   newest; all rows are still there, the others published, and rows published before are as they were.
   */
  lemma {:induction false} DrainsExactly(t: Table, now: Time, turns: seq<Turn>, worker: string)
    requires IsWork(t, now, turns, worker) && AllEligible(t, now)
    requires forall i :: 0 <= i < |turns| ==> Faultless(turns[i])
    ensures var t' := Final(t, now, turns, worker);
      && |PendingIds(t')| == Natural(|PendingIds(t)| - BATCH * |turns|)
      && OnlyPublishes(t, t') && OldestFirst(t, t') && RowsKept(t, t')
    decreases |turns|
  {
    if turns != [] {
      var tick, mid := turns[0].tick, AfterTurn(t, turns[0], now, worker);
      CleanTickPublishes(t, tick, now, worker);
      CleanTickDrains(t, tick, now, worker);
      EligibleStays(t, now, mid, now + PUBLISH_INTERVAL);
      DrainsExactly(mid, now + PUBLISH_INTERVAL, turns[1..], worker);
      TickKeepsOrder(t, tick, now, worker);
      OldestFirstChains(t, mid, Final(t, now, turns, worker));
      TickKeepsRows(t, tick, now, worker);
      RowsKeptChains(t, mid, Final(t, now, turns, worker));
    }
  }

  // Faults.

  function Faults(turns: seq<Turn>): nat {
    if turns == [] then 0 else (if Faultless(turns[0]) then 0 else 1) + Faults(turns[1..])
  }

  /** A turn before other turns. */
  lemma TurnBefore(t: Table, now: Time, turn: Turn, rest: seq<Turn>, worker: string)
    requires Meanwhile(t, turn, now) && IsTick(Found(t, turn), turn.tick, now)
    requires IsWork(AfterTurn(t, turn, now, worker), now + PUBLISH_INTERVAL, rest, worker)
    ensures IsWork(t, now, [turn] + rest, worker)
    ensures Final(t, now, [turn] + rest, worker) == Final(AfterTurn(t, turn, now, worker), now + PUBLISH_INTERVAL, rest, worker)
    ensures Faults([turn] + rest) == (if Faultless(turn) then 0 else 1) + Faults(rest)
  {
    assert ([turn] + rest)[1..] == rest;
  }

  /** Any tick at all publishes or not, and what it leaves behind is bounded by its own time. */
  lemma AnyTickBounds(t: Table, tick: WorkerTick, last: Time, now: Time, worker: string)
    requires Bounded(t, last) && last <= now
    ensures Bounded(AfterTick(t, tick, now, worker), now)
    ensures PendingIds(AfterTick(t, tick, now, worker)) <= PendingIds(t)
  {
  }

  lemma CleanTickBounds(t: Table, tick: WorkerTick, last: Time, now: Time, worker: string)
    requires Bounded(t, last) && IsTick(t, tick, now) && Clean(tick)
    ensures Bounded(AfterTick(t, tick, now, worker), last)
  {
  }

  lemma {:induction false} EmptyStaysEmpty(t: Table, now: Time, turns: seq<Turn>, worker: string)
    requires IsWork(t, now, turns, worker) && PendingIds(t) == {}
    ensures PendingIds(Final(t, now, turns, worker)) == {}
    decreases |turns|
  {
    if turns != [] {
      var found, t' := Found(t, turns[0]), AfterTurn(t, turns[0], now, worker);
      assert PendingIds(found) == {};
      forall id | id in t' ensures t'[id].publishedAt.Some? {
        assert id in found && id !in PendingIds(found);
      }
      EmptyStaysEmpty(t', now + PUBLISH_INTERVAL, turns[1..], worker);
    }
  }

  /** Ticks after which every lease and backoff left by a fault has run out. */
  const SETTLING: nat := 301

  /** How many hundreds cover n rows. */
  function Batches(n: nat): nat {
    if n == 0 then 0 else 1 + Batches(n - Min(BATCH, n))
  }

  /** Ticks to recover from that many faults, each with up to `most` rows to go. */
  function Recovery(faults: nat, most: nat): nat {
    if faults == 0 then 0 else Recovery(faults - 1, most) + SETTLING + Batches(most)
  }

  /** Ticks that surely suffice: d ticks after the last fault, with n of at most `most` rows and at most `faults` faults left. */
  function Needed(d: nat, n: nat, faults: nat, most: nat): nat {
    Natural(SETTLING - d) + Batches(n) + Recovery(faults, most)
  }

  lemma SettledIsEligible(t: Table, last: Time, d: nat)
    requires Bounded(t, last) && d >= SETTLING
    ensures AllEligible(t, last + d * PUBLISH_INTERVAL)
  {
  }

  lemma {:induction false} BatchesMonotone(m: nat, n: nat)
    requires m <= n
    ensures Batches(m) <= Batches(n)
  {
    if m > 0 {
      BatchesMonotone(m - Min(BATCH, m), n - Min(BATCH, n));
    }
  }

  lemma NeededAfterFault(d: nat, n: nat, n': nat, faults: nat, most: nat)
    requires n' <= n <= most && faults > 0
    ensures Needed(1, n', faults - 1, most) <= Needed(d, n, faults, most) - 1
  {
    BatchesMonotone(n', n);
    BatchesMonotone(n, most);
  }

  lemma NeededAfterCleanTick(d: nat, n: nat, n': nat, faults: nat, most: nat)
    requires 0 < n && n' <= n && (d >= SETTLING ==> n' == n - Min(BATCH, n))
    ensures Needed(d + 1, n', faults, most) <= Needed(d, n, faults, most) - 1
  {
    BatchesMonotone(n', n);
  }

  lemma SomeNeeded(d: nat, n: nat, faults: nat, most: nat)
    requires n > 0
    ensures Needed(d, n, faults, most) > 0
  {
    assert Batches(n) > 0;
  }

  /** A turn whose tick finds the table as the last left it brings the end nearer. */
  lemma CleanTurnProgresses(t: Table, last: Time, d: nat, turn: Turn, worker: string, faults: nat, most: nat)
    requires Faultless(turn) && IsTick(t, turn.tick, last + d * PUBLISH_INTERVAL) && Bounded(t, last)
    requires PendingIds(t) != {} && |PendingIds(t)| <= most
    ensures var t' := AfterTurn(t, turn, last + d * PUBLISH_INTERVAL, worker);
      && Bounded(t', last) && |PendingIds(t')| <= most
      && Needed(d + 1, |PendingIds(t')|, faults, most) <= Needed(d, |PendingIds(t)|, faults, most) - 1
  {
    var now := last + d * PUBLISH_INTERVAL;
    var t' := AfterTurn(t, turn, now, worker);
    CleanTickBounds(t, turn.tick, last, now, worker);
    CleanTickPublishes(t, turn.tick, now, worker);
    SubsetCount(PendingIds(t'), PendingIds(t));
    if d >= SETTLING {
      SettledIsEligible(t, last, d);
      CleanTickDrains(t, turn.tick, now, worker);
    }
    NeededAfterCleanTick(d, |PendingIds(t)|, |PendingIds(t')|, faults, most);
  }

  /** A faulty one is paid for out of the budget. */
  lemma FaultyTurnProgresses(t: Table, last: Time, d: nat, turn: Turn, worker: string, faults: nat, most: nat)
    requires Meanwhile(t, turn, last + d * PUBLISH_INTERVAL) && Bounded(t, last)
    requires |PendingIds(t)| <= most && faults > 0
    ensures var now := last + d * PUBLISH_INTERVAL;
      var t' := AfterTurn(t, turn, now, worker);
      && Bounded(t', now) && |PendingIds(t')| <= most
      && Needed(1, |PendingIds(t')|, faults - 1, most) <= Needed(d, |PendingIds(t)|, faults, most) - 1
  {
    var now, found := last + d * PUBLISH_INTERVAL, Found(t, turn);
    var t' := AfterTurn(t, turn, now, worker);
    AnyTickBounds(found, turn.tick, if turn.found.Some? then now else last, now, worker);
    SubsetCount(PendingIds(t'), PendingIds(t));
    NeededAfterFault(d, |PendingIds(t)|, |PendingIds(t')|, faults, most);
  }

  /** The first of the turns leaves a table from which the others have less to do. */
  lemma FirstTurn(t: Table, last: Time, d: nat, now: Time, turns: seq<Turn>, worker: string, faults: nat, most: nat)
    returns (t': Table, last': Time, d': nat, faults': nat)
    requires now == last + d * PUBLISH_INTERVAL && turns != []
    requires IsWork(t, now, turns, worker) && Bounded(t, last)
    requires Faults(turns) <= faults && PendingIds(t) != {} && |PendingIds(t)| <= most
    ensures now + PUBLISH_INTERVAL == last' + d' * PUBLISH_INTERVAL
    ensures IsWork(t', now + PUBLISH_INTERVAL, turns[1..], worker) && Bounded(t', last')
    ensures Faults(turns[1..]) <= faults' && |PendingIds(t')| <= most
    ensures Needed(d', |PendingIds(t')|, faults', most) <= Needed(d, |PendingIds(t)|, faults, most) - 1
    ensures Final(t, now, turns, worker) == Final(t', now + PUBLISH_INTERVAL, turns[1..], worker)
  {
    t' := AfterTurn(t, turns[0], now, worker);
    if Faultless(turns[0]) {
      last', d', faults' := last, d + 1, faults;
      CleanTurnProgresses(t, last, d, turns[0], worker, faults, most);
    } else {
      last', d', faults' := now, 1, faults - 1;
      FaultyTurnProgresses(t, last, d, turns[0], worker, faults, most);
    }
  }

  lemma {:induction false} DrainsWithin(
    t: Table, last: Time, d: nat, now: Time, turns: seq<Turn>, worker: string, faults: nat, most: nat, budget: nat)
    requires now == last + d * PUBLISH_INTERVAL
    requires IsWork(t, now, turns, worker) && Bounded(t, last)
    requires Faults(turns) <= faults && |PendingIds(t)| <= most
    requires Needed(d, |PendingIds(t)|, faults, most) <= budget <= |turns|
    ensures PendingIds(Final(t, now, turns, worker)) == {}
    decreases |turns|
  {
    if PendingIds(t) == {} {
      EmptyStaysEmpty(t, now, turns, worker);
    } else {
      SomeNeeded(d, |PendingIds(t)|, faults, most);
      var t', last', d', faults' := FirstTurn(t, last, d, now, turns, worker, faults, most);
      DrainsWithin(t', last', d', now + PUBLISH_INTERVAL, turns[1..], worker, faults', most, budget - 1);
    }
  }

  lemma {:induction false} RecoveryIsProduct(faults: nat, most: nat)
    ensures Recovery(faults, most) == faults * (SETTLING + Batches(most))
  {
    if faults > 0 {
      RecoveryIsProduct(faults - 1, most);
    }
  }

  /** Turns that are enough for n rows when that many are disturbed. */
  function Enough(disturbed: nat, n: nat): nat {
    (disturbed + 1) * (SETTLING + Batches(n))
  }

  lemma EnoughIsNeeded(faults: nat, n: nat)
    ensures Enough(faults, n) == Needed(0, n, faults, n)
  {
    RecoveryIsProduct(faults, n);
  }

  /**
   However failed claims, refused publishes, lost marks, crashes and the doings of others are spread over the turns,
   enough turns for the number so disturbed empty the outbox.
   */
  lemma DrainsDespiteFaults(t: Table, now: Time, turns: seq<Turn>, worker: string, faults: nat)
    requires IsWork(t, now, turns, worker) && Bounded(t, now) && Faults(turns) <= faults
    requires |turns| >= Enough(faults, |PendingIds(t)|)
    ensures PendingIds(Final(t, now, turns, worker)) == {}
  {
    var n := |PendingIds(t)|;
    EnoughIsNeeded(faults, n);
    DrainsWithin(t, now, 0, now, turns, worker, faults, n, Needed(0, n, faults, n));
  }
}
