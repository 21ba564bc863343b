/** What every row keeps over a run, and the account of every publish attempt. */
module Ledger {
  import opened Prelude
  import opened Outbox
  import opened Courier
  import IntakeSafety
  import OutboxSafety

  /** Published rows are unlocked and clean; the two lock columns are set together. */
  predicate RowSound(row: Row) {
    && (row.publishedAt.Some? ==> row.lockedAt.None? && row.lastError.None?)
    && (row.lockedAt.None? <==> row.lockedBy.None?)
    && row.attempts <= MAX_INT32
  }

  ghost predicate TableSound(t: Table) {
    forall id :: id in t ==> RowSound(t[id])
  }

  /** How one statement may change a row that stays: never once published, never un-counting an attempt. */
  predicate RowAges(old_: Row, new_: Row) {
    && (old_.publishedAt.Some? ==> new_ == old_)
    && old_.attempts <= new_.attempts <= old_.attempts + 1
    && new_.content == old_.content && new_.createdAt == old_.createdAt
  }

  ghost predicate TableAges(t: Table, t': Table) {
    && (TableSound(t) ==> TableSound(t'))
    && forall id :: id in t && id in t' ==> RowAges(t[id], t'[id])
  }

  lemma MarkPublishedAges(t: Table, id: Uuid, now: Time)
    ensures TableAges(t, MarkPublished(t, id, now))
  {
  }

  lemma MarkFailedAges(t: Table, id: Uuid, retryAt: Time, cause: string)
    ensures TableAges(t, MarkFailed(t, id, retryAt, cause))
  {
  }

  lemma MarkRowAges(s: State, w: nat, applied: bool)
    ensures TableAges(s.table, MarkRowStep(s, w, applied).table)
  {
    var worker := WorkerOf(s, w);
    if HasEvent(worker) {
      var id := Current(worker).id;
      MarkPublishedAges(s.table, id, s.now);
      if worker.pc.MarkingFailed? {
        MarkFailedAges(s.table, id, worker.pc.retryAt, worker.pc.cause);
      }
    }
  }

  lemma ClaimAges(s: State, w: nat, name: string, limit: nat, skip: set<Uuid>, order: seq<Uuid>, reported: bool)
    ensures TableAges(s.table, ClaimStep(s, w, name, limit, skip, order, reported).table)
  {
  }

  lemma WorldAges(P: Params, s: State, e: Event)
    ensures TableAges(s.table, WorldStep(P, s, e).table)
  {
  }

  /** Every statement of every process obeys the row rules. */
  lemma StepAges(P: Params, s: State, a: Action)
    ensures TableAges(s.table, Step(P, s, a).table)
  {
    match a
    case ByConsumer(c, act) => OutboxSafety.ConsumerLeavesDelivery(P, s, c, act);
    case ByWorld(e) => WorldAges(P, s, e);
    case ByWorker(w, act) =>
      match act
      case Claim(name, limit, skip, order, reported) => ClaimAges(s, w, name, limit, skip, order, reported);
      case Send(outcome, clock, cause) =>
      case MarkRow(applied) => MarkRowAges(s, w, applied);
      case CrashWorker =>
  }

  lemma {:induction false} RowsSoundAlways(P: Params, now: Time, actions: seq<Action>)
    ensures TableSound(Run(P, Initial(now), actions).table)
    decreases |actions|
  {
    if actions != [] {
      RowsSoundAlways(P, now, actions[..|actions| - 1]);
      StepAges(P, Run(P, Initial(now), actions[..|actions| - 1]), actions[|actions| - 1]);
    }
  }

  /** Rows go only by retention, and a row that goes is entered among the removed. */
  lemma RowsStay(P: Params, s: State, a: Action)
    ensures forall id :: id in s.table ==> id in Step(P, s, a).table || (P.retention && id in Step(P, s, a).audit.deleted)
  {
    match a
    case ByConsumer(c, act) => OutboxSafety.ConsumerLeavesDelivery(P, s, c, act);
    case ByWorld(e) =>
    case ByWorker(w, act) =>
      OutboxSafety.WorkerContents(P, s, w, act);
      assert Contents(s.table).Keys == s.table.Keys;
      assert Contents(WorkerStep(P, s, w, act).table).Keys == WorkerStep(P, s, w, act).table.Keys;
  }

  ghost predicate RemovedAt(P: Params, s: State, actions: seq<Action>, id: Uuid, m: nat) {
    m <= |actions| && id !in Run(P, s, actions[..m]).table
  }

  lemma PublishedStays(P: Params, s: State, a: Action, id: Uuid)
    requires id in s.table && s.table[id].publishedAt.Some?
    ensures id in Step(P, s, a).table ==> Step(P, s, a).table[id] == s.table[id]
    ensures !P.retention ==> id in Step(P, s, a).table
  {
    StepAges(P, s, a);
    if !P.retention {
      RowsStay(P, s, a);
    }
  }

  /**
   Once published, a row is never claimed, failed, released or re-stamped, however the run goes on: it stays as it is
   until the retention delete removes it, if that is run at all.
   */
  lemma {:induction false} PublishedForGood(P: Params, s: State, actions: seq<Action>, id: Uuid)
    requires id in s.table && s.table[id].publishedAt.Some?
    ensures (id in Run(P, s, actions).table && Run(P, s, actions).table[id] == s.table[id])
         || (P.retention && exists m: nat :: RemovedAt(P, s, actions, id, m))
    decreases |actions|
  {
    if actions != [] {
      var n := |actions| - 1;
      var init := actions[..n];
      var t := Run(P, s, init);
      PublishedForGood(P, s, init, id);
      if m: nat :| RemovedAt(P, s, init, id, m) {
        assert init[..m] == actions[..m];
        assert P.retention ==> RemovedAt(P, s, actions, id, m);
      }
      if id in t.table && t.table[id] == s.table[id] {
        PublishedStays(P, t, actions[n], id);
        assert actions[..|actions|] == actions;
        assert id !in Run(P, s, actions).table ==> RemovedAt(P, s, actions, id, |actions|);
      }
    }
  }

  // The account of publish attempts.

  predicate IsInFlight(worker: Worker, id: Uuid) {
    HasEvent(worker) && !worker.pc.Sending? && Current(worker).id == id
  }

  /** The workers that have made an attempt at the row and not yet its mark. */
  function InFlight(workers: map<nat, Worker>, id: Uuid): set<nat> {
    set w | w in workers && IsInFlight(workers[w], id)
  }

  function PublishedCount(row: Row): nat {
    if row.publishedAt.Some? then 1 else 0
  }

  /** The attempts that the row itself accounts for. */
  function InRow(t: Table, id: Uuid): nat {
    if id in t then t[id].attempts + PublishedCount(t[id]) else 0
  }

  /** The attempts that ended in a counted failure, in the publication, in a mark without effect, or are still open. */
  ghost function Accounted(s: State, id: Uuid): nat {
    InRow(s.table, id) + Count(s.audit.wasted, id) + |InFlight(s.workers, id)|
  }

  /** The attempts made that nothing in sight accounts for any more. */
  ghost function Unaccounted(s: State, id: Uuid): int {
    Count(s.audit.sends, id) - Accounted(s, id)
  }

  lemma InFlightMoves(workers: map<nat, Worker>, w: nat, worker: Worker, id: Uuid)
    ensures var before, after := InFlight(workers, id), InFlight(workers[w := worker], id);
      |after| == |before| - (if w in before then 1 else 0) + (if IsInFlight(worker, id) then 1 else 0)
  {
    OneMemberMoves(InFlight(workers, id), InFlight(workers[w := worker], id), w);
  }

  /** A mark settles exactly one attempt, in the row or as waste, and only at the row it is for. */
  lemma MarkSettlesOne(s: State, w: nat, applied: bool, id: Uuid)
    requires HasEvent(WorkerOf(s, w)) && !WorkerOf(s, w).pc.Sending?
    ensures var s' := MarkRowStep(s, w, applied);
      && s'.audit.sends == s.audit.sends
      && InRow(s'.table, id) + Count(s'.audit.wasted, id) ==
           InRow(s.table, id) + Count(s.audit.wasted, id) + (if Current(WorkerOf(s, w)).id == id then 1 else 0)
  {
    var worker := WorkerOf(s, w);
    if applied && MarkTakesEffect(s.table, worker) {
      MarkSettlesInRow(s, worker, id);
    }
  }

  lemma MarkSettlesInRow(s: State, worker: Worker, id: Uuid)
    requires HasEvent(worker) && MarkTakesEffect(s.table, worker)
    ensures InRow(Marked(s, worker).table, id) == InRow(s.table, id) + (if Current(worker).id == id then 1 else 0)
  {
  }

  lemma MarkRowMoves(s: State, w: nat, applied: bool)
    requires HasEvent(WorkerOf(s, w)) && !WorkerOf(s, w).pc.Sending?
    ensures MarkRowStep(s, w, applied).workers == s.workers[w := Advance(WorkerOf(s, w))]
  {
  }

  lemma SendBalances(P: Params, s: State, w: nat, outcome: Outcome, clock: Time, cause: string, id: Uuid)
    ensures Unaccounted(SendStep(P, s, w, outcome, clock, cause), id) == Unaccounted(s, id)
  {
    var s', worker := SendStep(P, s, w, outcome, clock, cause), WorkerOf(s, w);
    if HasEvent(worker) && worker.pc.Sending? {
      InFlightMoves(s.workers, w, s'.workers[w], id);
    }
  }

  lemma MarkRowBalances(s: State, w: nat, applied: bool, id: Uuid)
    ensures Unaccounted(MarkRowStep(s, w, applied), id) == Unaccounted(s, id)
  {
    var worker := WorkerOf(s, w);
    if HasEvent(worker) && !worker.pc.Sending? {
      MarkRowMoves(s, w, applied);
      InFlightMoves(s.workers, w, Advance(worker), id);
      MarkSettlesOne(s, w, applied, id);
    }
  }

  lemma CrashBalances(s: State, w: nat, id: Uuid)
    ensures Unaccounted(CrashWorkerStep(s, w), id) == Unaccounted(s, id)
  {
    InFlightMoves(s.workers, w, Idle, id);
  }

  lemma ClaimBalances(s: State, w: nat, name: string, limit: nat, skip: set<Uuid>, order: seq<Uuid>, reported: bool, id: Uuid)
    ensures Unaccounted(ClaimStep(s, w, name, limit, skip, order, reported), id) == Unaccounted(s, id)
  {
    var s' := ClaimStep(s, w, name, limit, skip, order, reported);
    if s' != s {
      ClaimTouchesOnlyLocks(s.table, Elements(order), s.now, name);
      InFlightMoves(s.workers, w, s'.workers[w], id);
    }
  }

  lemma WorkerBalances(P: Params, s: State, w: nat, act: WorkerAct, id: Uuid)
    ensures Unaccounted(WorkerStep(P, s, w, act), id) == Unaccounted(s, id)
  {
    match act
    case Claim(name, limit, skip, order, reported) => ClaimBalances(s, w, name, limit, skip, order, reported, id);
    case Send(outcome, clock, cause) => SendBalances(P, s, w, outcome, clock, cause, id);
    case MarkRow(applied) => MarkRowBalances(s, w, applied, id);
    case CrashWorker => CrashBalances(s, w, id);
  }

  lemma ConsumerBalances(P: Params, s: State, c: nat, act: ConsumerAct, id: Uuid)
    ensures Unaccounted(ConsumerStep(P, s, c, act), id) == Unaccounted(s, id)
  {
    OutboxSafety.ConsumerLeavesDelivery(P, s, c, act);
  }

  /** Only the removal of a row takes attempts out of sight. */
  lemma WorldBalances(P: Params, s: State, e: Event, id: Uuid)
    ensures Unaccounted(WorldStep(P, s, e), id) >= Unaccounted(s, id)
    ensures id !in WorldStep(P, s, e).audit.deleted ==> Unaccounted(WorldStep(P, s, e), id) == Unaccounted(s, id)
  {
  }

  lemma StepBalances(P: Params, s: State, a: Action, id: Uuid)
    ensures Unaccounted(Step(P, s, a), id) >= Unaccounted(s, id)
    ensures id !in Step(P, s, a).audit.deleted ==> Unaccounted(Step(P, s, a), id) == Unaccounted(s, id)
    ensures s.audit.deleted.Keys <= Step(P, s, a).audit.deleted.Keys
  {
    match a
    case ByConsumer(c, act) =>
      ConsumerBalances(P, s, c, act, id);
      OutboxSafety.ConsumerLeavesDelivery(P, s, c, act);
    case ByWorld(e) => WorldBalances(P, s, e, id);
    case ByWorker(w, act) =>
      WorkerBalances(P, s, w, act, id);
      IntakeSafety.WorkerLeavesIntake(P, s, w, act);
  }

  /**
   Conservation of publish attempts, in every run and for every row: attempts made are never fewer than those the
   counter, the publication, wasted marks and open attempts account for, and exactly as many if the row was never removed.
   */
  lemma {:induction false} AttemptsBalance(P: Params, now: Time, actions: seq<Action>, id: Uuid)
    ensures var s := Run(P, Initial(now), actions);
      && Count(s.audit.sends, id) >= Accounted(s, id)
      && (id !in s.audit.deleted ==> Count(s.audit.sends, id) == Accounted(s, id))
    decreases |actions|
  {
    if actions == [] {
      assert InFlight(Initial(now).workers, id) == {};
    } else {
      var init := actions[..|actions| - 1];
      AttemptsBalance(P, now, init, id);
      StepBalances(P, Run(P, Initial(now), init), actions[|actions| - 1], id);
    }
  }
}
