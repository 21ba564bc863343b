/** On one clock no lock lies in the future and no wait is longer than thirty seconds. */
module Waits {
  import opened Prelude
  import Outbox
  import opened Courier
  import OutboxSafety
  import Spacing
  import Draining

  predicate WorkerPatient(now: Time, worker: Worker) {
    worker.Busy? && worker.pc.MarkingFailed? ==> worker.pc.retryAt <= now + 6 * Outbox.RETRY_DELAY
  }

  ghost predicate WaitInv(s: State) {
    Draining.Bounded(s.table, s.now) && forall w :: w in s.workers ==> WorkerPatient(s.now, s.workers[w])
  }

  lemma ClaimWaits(s: State, w: nat, name: string, limit: nat, skip: set<Uuid>, order: seq<Uuid>, reported: bool)
    requires WaitInv(s)
    ensures WaitInv(ClaimStep(s, w, name, limit, skip, order, reported))
  {
  }

  lemma SendWaits(P: Params, s: State, w: nat, outcome: Outcome, clock: Time, cause: string)
    requires WaitInv(s) && clock == s.now
    ensures WaitInv(SendStep(P, s, w, outcome, clock, cause))
  {
  }

  lemma MarkRowWaits(s: State, w: nat, applied: bool)
    requires WaitInv(s)
    ensures WaitInv(MarkRowStep(s, w, applied))
  {
  }

  lemma CrashWaits(s: State, w: nat)
    requires WaitInv(s)
    ensures WaitInv(CrashWorkerStep(s, w))
  {
  }

  lemma ConsumerWaits(P: Params, s: State, c: nat, act: ConsumerAct)
    requires WaitInv(s)
    ensures WaitInv(ConsumerStep(P, s, c, act))
  {
    OutboxSafety.ConsumerLeavesDelivery(P, s, c, act);
  }

  lemma WorldWaits(P: Params, s: State, e: Event)
    requires WaitInv(s)
    ensures WaitInv(WorldStep(P, s, e))
  {
  }

  lemma StepWaits(P: Params, s: State, a: Action)
    requires WaitInv(s) && (a.ByWorker? && a.move.Send? ==> a.move.clock == s.now)
    ensures WaitInv(Step(P, s, a))
  {
    match a
    case ByConsumer(c, act) => ConsumerWaits(P, s, c, act);
    case ByWorld(e) => WorldWaits(P, s, e);
    case ByWorker(w, act) =>
      match act
      case Claim(name, limit, skip, order, reported) => ClaimWaits(s, w, name, limit, skip, order, reported);
      case Send(outcome, clock, cause) => SendWaits(P, s, w, outcome, clock, cause);
      case MarkRow(applied) => MarkRowWaits(s, w, applied);
      case CrashWorker => CrashWaits(s, w);
  }

  lemma {:induction false} WaitsAlways(P: Params, now: Time, actions: seq<Action>)
    requires Spacing.OneClock(P, now, actions)
    ensures WaitInv(Run(P, Initial(now), actions))
    decreases |actions|
  {
    if actions != [] {
      var init := actions[..|actions| - 1];
      WaitsAlways(P, now, init);
      StepWaits(P, Run(P, Initial(now), init), actions[|actions| - 1]);
    }
  }
}
