/** On one clock and within leases: retries of a row are spaced by the cumulative backoff, and no attempt is wasted. */
module Spacing {
  import opened Prelude
  import opened Outbox
  import opened Courier
  import OutboxSafety
  import opened Ledger
  import opened LeaseSafety

  /** Workers read the time the database reads. */
  ghost predicate OneClock(P: Params, now: Time, actions: seq<Action>)
    decreases |actions|
  {
    actions == [] ||
    (var init, last := actions[..|actions| - 1], actions[|actions| - 1];
     OneClock(P, now, init) &&
     (last.ByWorker? && last.move.Send? ==> last.move.clock == Run(P, Initial(now), init).now))
  }

  /** The waits that n failures add up to. */
  function CumulativeBackoff(n: nat): Time {
    if n == 0 then 0 else CumulativeBackoff(n - 1) + Min(n, 6) * RETRY_DELAY
  }

  lemma {:induction false} CumulativeBackoffClosedForm(n: nat)
    requires n >= 6
    ensures CumulativeBackoff(n) == (105 + 30 * (n - 6)) * SECOND
  {
    if n == 6 {
      assert CumulativeBackoff(3) == 30 * SECOND;
      assert CumulativeBackoff(5) == 75 * SECOND;
    } else {
      CumulativeBackoffClosedForm(n - 1);
    }
  }

  /** Two thousand years. */
  const AGES: Time := 2000 * 365 * DAY

  lemma FullCounterTakesAges(n: nat)
    requires n >= MAX_INT32
    ensures CumulativeBackoff(n - 1) > AGES
  {
    CumulativeBackoffClosedForm(n - 1);
  }

  ghost predicate RowSpaced(s: State, id: Uuid) {
    id in s.table && s.table[id].attempts > 0 ==>
      && id in s.audit.firstFailure
      && s.table[id].nextAttemptAt.Some?
      && s.audit.firstFailure[id] + CumulativeBackoff(s.table[id].attempts) <= s.table[id].nextAttemptAt.value
      && s.audit.firstFailure[id] + CumulativeBackoff(s.table[id].attempts - 1) <= s.now
  }

  ghost predicate WorkerSpaced(now: Time, worker: Worker) {
    worker.Busy? ==>
      && (forall j :: 0 <= j < |worker.events| && worker.events[j].row.nextAttemptAt.Some? ==>
            worker.events[j].row.nextAttemptAt.value <= worker.claimedAt)
      && (HasEvent(worker) && worker.pc.MarkingFailed? ==>
            var wait := Backoff(Current(worker).row.attempts);
            worker.claimedAt + wait <= worker.pc.retryAt <= now + wait)
  }

  ghost predicate SpacingInv(s: State) {
    && (forall id :: RowSpaced(s, id))
    && forall w :: w in s.workers ==> WorkerSpaced(s.now, s.workers[w])
  }

  /** The failure mark of the row in hand adds its wait to the ones before. */
  lemma MarkedRowSpaced(s: State, w: nat, applied: bool)
    requires SpacingInv(s) && LeaseInv(s)
    requires HasEvent(WorkerOf(s, w)) && !WorkerOf(s, w).pc.Sending?
    ensures RowSpaced(MarkRowStep(s, w, applied), Current(WorkerOf(s, w)).id)
  {
    var worker := WorkerOf(s, w);
    var id := Current(worker).id;
    assert OwnLease(s.table, worker, Current(worker));
    assert RowSpaced(s, id);
    assert WorkerSpaced(s.now, worker);
    if worker.pc.MarkingFailed? && applied && CanFail(s.table, id) {
      var n := s.table[id].attempts;
      assert CumulativeBackoff(n + 1) == CumulativeBackoff(n) + Backoff(n);
    }
  }

  lemma OtherRowSpaced(s: State, w: nat, applied: bool, id: Uuid)
    requires RowSpaced(s, id)
    requires HasEvent(WorkerOf(s, w)) && !WorkerOf(s, w).pc.Sending? && id != Current(WorkerOf(s, w)).id
    ensures RowSpaced(MarkRowStep(s, w, applied), id)
  {
  }

  lemma MarkRowSpaces(s: State, w: nat, applied: bool)
    requires SpacingInv(s) && LeaseInv(s)
    ensures SpacingInv(MarkRowStep(s, w, applied))
  {
    var s', worker := MarkRowStep(s, w, applied), WorkerOf(s, w);
    if HasEvent(worker) && !worker.pc.Sending? {
      MarkRowMoves(s, w, applied);
      MarkedRowSpaced(s, w, applied);
      forall id | id != Current(worker).id ensures RowSpaced(s', id) {
        OtherRowSpaced(s, w, applied, id);
      }
    }
  }

  lemma ClaimSpaces(s: State, w: nat, name: string, limit: nat, skip: set<Uuid>, order: seq<Uuid>, reported: bool)
    requires SpacingInv(s)
    ensures SpacingInv(ClaimStep(s, w, name, limit, skip, order, reported))
  {
    var s' := ClaimStep(s, w, name, limit, skip, order, reported);
    if s' != s {
      forall id ensures RowSpaced(s', id) {
        assert RowSpaced(s, id);
      }
      assert forall i :: 0 <= i < |order| ==> order[i] in Elements(order);
      assert WorkerSpaced(s'.now, s'.workers[w]);
    }
  }

  lemma SendSpaces(P: Params, s: State, w: nat, outcome: Outcome, clock: Time, cause: string)
    requires SpacingInv(s) && LeaseInv(s) && clock == s.now
    ensures SpacingInv(SendStep(P, s, w, outcome, clock, cause))
  {
    var s' := SendStep(P, s, w, outcome, clock, cause);
    forall id ensures RowSpaced(s', id) {
      assert RowSpaced(s, id);
    }
  }

  lemma CrashSpaces(s: State, w: nat)
    requires SpacingInv(s)
    ensures SpacingInv(CrashWorkerStep(s, w))
  {
    forall id ensures RowSpaced(CrashWorkerStep(s, w), id) {
      assert RowSpaced(s, id);
    }
  }

  lemma WorldSpaces(P: Params, s: State, e: Event)
    requires SpacingInv(s) && !P.releases
    ensures SpacingInv(WorldStep(P, s, e))
  {
    forall id ensures RowSpaced(WorldStep(P, s, e), id) {
      assert RowSpaced(s, id);
    }
  }

  lemma ConsumerSpaces(P: Params, s: State, c: nat, act: ConsumerAct)
    requires SpacingInv(s)
    ensures SpacingInv(ConsumerStep(P, s, c, act))
  {
    OutboxSafety.ConsumerLeavesDelivery(P, s, c, act);
    forall id ensures RowSpaced(ConsumerStep(P, s, c, act), id) {
      assert RowSpaced(s, id);
    }
  }

  lemma StepSpaces(P: Params, s: State, a: Action)
    requires SpacingInv(s) && LeaseInv(s) && !P.releases
    requires a.ByWorker? && a.move.Send? ==> a.move.clock == s.now
    ensures SpacingInv(Step(P, s, a))
  {
    match a
    case ByConsumer(c, act) => ConsumerSpaces(P, s, c, act);
    case ByWorld(e) => WorldSpaces(P, s, e);
    case ByWorker(w, act) =>
      match act
      case Claim(name, limit, skip, order, reported) => ClaimSpaces(s, w, name, limit, skip, order, reported);
      case Send(outcome, clock, cause) => SendSpaces(P, s, w, outcome, clock, cause);
      case MarkRow(applied) => MarkRowSpaces(s, w, applied);
      case CrashWorker => CrashSpaces(s, w);
  }

  lemma {:induction false} SpacingAlways(P: Params, now: Time, actions: seq<Action>)
    requires !P.releases && TimelyRun(P, now, LEASE, actions) && OneClock(P, now, actions)
    ensures SpacingInv(Run(P, Initial(now), actions))
    decreases |actions|
  {
    if actions != [] {
      var init := actions[..|actions| - 1];
      SpacingAlways(P, now, init);
      LeasesAlways(P, now, LEASE, init);
      StepSpaces(P, Run(P, Initial(now), init), actions[|actions| - 1]);
    }
  }

  /** A row that failed n times is not claimed again before the waits of all n failures have passed since the first. */
  lemma ClaimsAreSpaced(P: Params, now: Time, actions: seq<Action>, limit: nat, skip: set<Uuid>, order: seq<Uuid>, id: Uuid)
    requires !P.releases && TimelyRun(P, now, LEASE, actions) && OneClock(P, now, actions)
    requires IsClaim(Run(P, Initial(now), actions), limit, skip, order) && id in order
    requires Run(P, Initial(now), actions).table[id].attempts > 0
    ensures var s := Run(P, Initial(now), actions);
      && id in s.audit.firstFailure
      && s.audit.firstFailure[id] + CumulativeBackoff(s.table[id].attempts) <= s.now
  {
    SpacingAlways(P, now, actions);
    assert id in Elements(order);
    assert RowSpaced(Run(P, Initial(now), actions), id);
  }

  lemma FullCounterIsOld(s: State, id: Uuid)
    requires RowSpaced(s, id) && id in s.table && s.table[id].attempts >= MAX_INT32
    ensures s.audit.firstFailure[id] + AGES <= s.now
  {
    FullCounterTakesAges(s.table[id].attempts);
  }

  /** The attempt counter stays clear of the int32 limit for two thousand years after a row first fails. */
  lemma CounterNeverFull(P: Params, now: Time, actions: seq<Action>, id: Uuid)
    requires !P.releases && TimelyRun(P, now, LEASE, actions) && OneClock(P, now, actions)
    requires var s := Run(P, Initial(now), actions);
      id in s.table && id in s.audit.firstFailure && s.now < s.audit.firstFailure[id] + AGES
    ensures Run(P, Initial(now), actions).table[id].attempts < MAX_INT32
  {
    SpacingAlways(P, now, actions);
    RowsSoundAlways(P, now, actions);
    var s := Run(P, Initial(now), actions);
    assert RowSpaced(s, id);
    if s.table[id].attempts >= MAX_INT32 {
      FullCounterIsOld(s, id);
    }
  }

  // No attempt is wasted when every mark is made.

  /** Whether the step makes every mark that is due: none is lost, and no worker that still owes one crashes. */
  predicate MakesItsMark(s: State, a: Action) {
    a.ByWorker? ==>
      && (a.move.MarkRow? ==> a.move.applied)
      && (a.move.CrashWorker? ==> !HasEvent(WorkerOf(s, a.worker)) || WorkerOf(s, a.worker).pc.Sending?)
  }

  ghost predicate MarksMade(P: Params, now: Time, actions: seq<Action>)
    decreases |actions|
  {
    actions == [] ||
    (var init, last := actions[..|actions| - 1], actions[|actions| - 1];
     MarksMade(P, now, init) && MakesItsMark(Run(P, Initial(now), init), last))
  }

  /** The one thing that can waste a mark then is a full counter. */
  ghost predicate Unwasted(s: State, id: Uuid) {
    id !in s.audit.deleted ==> Count(s.audit.wasted, id) == 0 || (id in s.table && s.table[id].attempts == MAX_INT32)
  }

  lemma MarkRowUnwasted(P: Params, s: State, w: nat, id: Uuid)
    requires LeaseInv(s) && TableSound(s.table) && Unwasted(s, id)
    ensures Unwasted(MarkRowStep(s, w, true), id)
  {
    var worker := WorkerOf(s, w);
    if HasEvent(worker) && !worker.pc.Sending? {
      assert OwnLease(s.table, worker, Current(worker));
      assert MarkTakesEffect(s.table, worker) || s.table[Current(worker).id].attempts == MAX_INT32;
    }
  }

  /** The row, unless removed, is there and its counter no lower. */
  predicate RowOn(s: State, s': State, id: Uuid) {
    id !in s'.audit.deleted ==>
      && id !in s.audit.deleted
      && (id in s.table ==> id in s'.table && s.table[id].attempts <= s'.table[id].attempts <= MAX_INT32)
  }

  lemma StepRowOn(P: Params, s: State, a: Action, id: Uuid)
    requires TableSound(s.table)
    ensures RowOn(s, Step(P, s, a), id)
  {
    StepAges(P, s, a);
    RowsStay(P, s, a);
    StepBalances(P, s, a, id);
    if id in s.table && id in Step(P, s, a).table {
      assert RowAges(s.table[id], Step(P, s, a).table[id]) && RowSound(Step(P, s, a).table[id]);
    }
  }

  lemma WorkerUnwasted(P: Params, s: State, w: nat, act: WorkerAct, id: Uuid)
    requires LeaseInv(s) && TableSound(s.table) && Unwasted(s, id) && MakesItsMark(s, ByWorker(w, act))
    requires RowOn(s, WorkerStep(P, s, w, act), id)
    ensures Unwasted(WorkerStep(P, s, w, act), id)
  {
    match act
    case Claim(name, limit, skip, order, reported) =>
    case Send(outcome, clock, cause) =>
    case MarkRow(applied) => MarkRowUnwasted(P, s, w, id);
    case CrashWorker =>
  }

  lemma OtherUnwasted(P: Params, s: State, a: Action, id: Uuid)
    requires Unwasted(s, id) && !a.ByWorker? && RowOn(s, Step(P, s, a), id)
    ensures Unwasted(Step(P, s, a), id)
  {
    match a
    case ByConsumer(c, act) => OutboxSafety.ConsumerLeavesDelivery(P, s, c, act);
    case ByWorld(e) =>
  }

  lemma StepUnwasted(P: Params, s: State, a: Action, id: Uuid)
    requires LeaseInv(s) && TableSound(s.table) && Unwasted(s, id) && MakesItsMark(s, a)
    ensures Unwasted(Step(P, s, a), id)
  {
    StepRowOn(P, s, a, id);
    if a.ByWorker? {
      WorkerUnwasted(P, s, a.worker, a.move, id);
    } else {
      OtherUnwasted(P, s, a, id);
    }
  }

  lemma {:induction false} UnwastedAlways(P: Params, now: Time, actions: seq<Action>, id: Uuid)
    requires !P.releases && TimelyRun(P, now, LEASE, actions) && MarksMade(P, now, actions)
    ensures Unwasted(Run(P, Initial(now), actions), id)
    decreases |actions|
  {
    if actions == [] {
    } else {
      var init := actions[..|actions| - 1];
      UnwastedAlways(P, now, init, id);
      LeasesAlways(P, now, LEASE, init);
      RowsSoundAlways(P, now, init);
      StepUnwasted(P, Run(P, Initial(now), init), actions[|actions| - 1], id);
    }
  }

  /** Then a row never removed and in nobody's hands was attempted exactly as often as its counter and publication say. */
  lemma AttemptsAreExact(P: Params, now: Time, actions: seq<Action>, id: Uuid)
    requires !P.releases && TimelyRun(P, now, LEASE, actions) && MarksMade(P, now, actions)
    requires var s := Run(P, Initial(now), actions);
      id in s.table && id !in s.audit.deleted && s.table[id].attempts < MAX_INT32 && InFlight(s.workers, id) == {}
    ensures var s := Run(P, Initial(now), actions);
      Count(s.audit.sends, id) == s.table[id].attempts + PublishedCount(s.table[id])
  {
    UnwastedAlways(P, now, actions, id);
    AttemptsBalance(P, now, actions, id);
  }
}
