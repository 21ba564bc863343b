/** From the committed record to the routed topic: once nothing is pending, whatever was committed has arrived. */
module Arrival {
  import opened Prelude
  import opened Courier
  import opened Deployment
  import Draining
  import IntakeSafety
  import Kafka
  import Ledger
  import OutboxSafety
  import OwnCopies
  import opened Routing
  import Spacing
  import Shifts

  lemma {:induction false} RowsStayAlong(P: Params, s: State, more: seq<Action>)
    requires !P.retention
    ensures s.table.Keys <= Run(P, s, more).table.Keys
    decreases |more|
  {
    if more == [] {
    } else {
      var n := |more| - 1;
      RowsStayAlong(P, s, more[..n]);
      Ledger.RowsStay(P, Run(P, s, more[..n]), more[n]);
    }
  }

  lemma {:induction false} NothingDeleted(P: Params, now: Time, actions: seq<Action>)
    requires !P.retention
    ensures Run(P, Initial(now), actions).audit.deleted == map[]
    decreases |actions|
  {
    if actions == [] {
    } else {
      var s := Run(P, Initial(now), actions[..|actions| - 1]);
      NothingDeleted(P, now, actions[..|actions| - 1]);
      match actions[|actions| - 1]
      case ByConsumer(c, act) => OutboxSafety.ConsumerLeavesDelivery(P, s, c, act);
      case ByWorker(v, act) => IntakeSafety.WorkerLeavesIntake(P, s, v, act);
      case ByWorld(e) =>
    }
  }

  lemma CommittedIsHandled(sys: System, start: Time, actions: seq<Action>, p: nat, k: nat)
    requires IntakeSafety.Prudent(sys.flush)
    requires var s := Run(Protocol(sys), Initial(start), actions); p in s.committed && k < s.committed[p]
    ensures var s := Run(Protocol(sys), Initial(start), actions);
      match Classify(sys.cfg, sys.log(Kafka.Place(p, k)))
      case DeadLetter => Kafka.Place(p, k) in s.dlq
      case Route(_, id, _, _) => id in IntakeSafety.Ever(s)
  {
    var P := Protocol(sys);
    var s := Run(P, Initial(start), actions);
    MarksNameRows(sys);
    IntakeSafety.IntakeAlways(P, start, actions);
    assert IntakeSafety.Handled(P, IntakeSafety.Ever(s), s.dlq, Kafka.Place(p, k));
  }

  /** A committed routable record has its row. */
  lemma CommittedHasRow(sys: System, start: Time, actions: seq<Action>, p: nat, k: nat)
    requires IntakeSafety.Prudent(sys.flush) && !sys.retention
    requires var s := Run(Protocol(sys), Initial(start), actions); p in s.committed && k < s.committed[p]
    ensures var v := Classify(sys.cfg, sys.log(Kafka.Place(p, k)));
      v.Route? ==> v.id in Run(Protocol(sys), Initial(start), actions).table
  {
    CommittedIsHandled(sys, start, actions, p, k);
    NothingDeleted(Protocol(sys), start, actions);
  }

  /** Wherever a run has nothing pending, each routable record committed before is in the routed topics, as its row has it. */
  lemma DrainedMeansArrived(sys: System, start: Time, actions: seq<Action>, more: seq<Action>, p: nat, k: nat)
    requires IntakeSafety.Prudent(sys.flush) && !sys.retention
    requires var s := Run(Protocol(sys), Initial(start), actions); p in s.committed && k < s.committed[p]
    requires Draining.PendingIds(Run(Protocol(sys), Initial(start), actions + more).table) == {}
    ensures var s' := Run(Protocol(sys), Initial(start), actions + more);
      var v := Classify(sys.cfg, sys.log(Kafka.Place(p, k)));
      v.Route? ==> v.id in s'.table && Render(sys.cfg.lib, v.id, s'.table[v.id].content) in s'.routed
  {
    var P := Protocol(sys);
    var v := Classify(sys.cfg, sys.log(Kafka.Place(p, k)));
    var s' := Run(P, Initial(start), actions + more);
    CommittedHasRow(sys, start, actions, p, k);
    RunConcat(P, Initial(start), actions, more);
    RowsStayAlong(P, Run(P, Initial(start), actions), more);
    OwnCopies.OwnContentPublished(P, start, actions + more);
    if v.Route? {
      assert v.id !in Draining.PendingIds(s'.table);
      assert P.render(v.id, s'.table[v.id].content) == Render(sys.cfg.lib, v.id, s'.table[v.id].content);
    }
  }

  /** Every routable record committed in s has its copy in s'. */
  ghost predicate AllArrived(sys: System, s: State, s': State) {
    forall p: nat, k: nat :: p in s.committed && k < s.committed[p] ==> Arrived(sys, s', Kafka.Place(p, k))
  }

  ghost predicate Arrived(sys: System, s': State, place: Kafka.Place) {
    var v := Classify(sys.cfg, sys.log(place));
    v.Route? ==> v.id in s'.table && Render(sys.cfg.lib, v.id, s'.table[v.id].content) in s'.routed
  }

  lemma DrainedMeansAllArrived(sys: System, start: Time, actions: seq<Action>, more: seq<Action>)
    requires IntakeSafety.Prudent(sys.flush) && !sys.retention
    requires Draining.PendingIds(Run(Protocol(sys), Initial(start), actions + more).table) == {}
    ensures AllArrived(sys, Run(Protocol(sys), Initial(start), actions), Run(Protocol(sys), Initial(start), actions + more))
  {
    var s := Run(Protocol(sys), Initial(start), actions);
    forall p: nat, k: nat | p in s.committed && k < s.committed[p]
      ensures Arrived(sys, Run(Protocol(sys), Initial(start), actions + more), Kafka.Place(p, k))
    {
      DrainedMeansArrived(sys, start, actions, more, p, k);
    }
  }

  /**
   End to end: whatever a run on one clock has come to, every run that goes on with enough shifts of one worker, others doing
   what they like in between but bring in rows, brings every routable record committed so far to the routed topics.
   */
  lemma CommittedEventsArrive(sys: System, start: Time, actions: seq<Action>, w: nat, name: string, shifts: seq<Shifts.Shift>)
    requires IntakeSafety.Prudent(sys.flush) && !sys.retention
    requires Spacing.OneClock(Protocol(sys), start, actions) && WorkerOf(Run(Protocol(sys), Initial(start), actions), w).Idle?
    requires var s := Run(Protocol(sys), Initial(start), actions);
      && Shifts.CanWork(Protocol(sys), s, w, name, shifts)
      && |shifts| >= Draining.Enough(Shifts.Disturbances(shifts), |Draining.PendingIds(s.table)|)
    ensures var s := Run(Protocol(sys), Initial(start), actions);
      AllArrived(sys, s, Run(Protocol(sys), Initial(start), actions + Shifts.AllActions(shifts, s.now)))
  {
    var s := Run(Protocol(sys), Initial(start), actions);
    Shifts.EveryOutboxDrains(Protocol(sys), start, actions, w, name, shifts);
    DrainedMeansAllArrived(sys, start, actions, Shifts.AllActions(shifts, s.now));
  }

  /** And one idle worker by itself can always do it. */
  lemma CommittedEventsCanArrive(sys: System, start: Time, actions: seq<Action>, w: nat, name: string) returns (more: seq<Action>)
    requires IntakeSafety.Prudent(sys.flush) && !sys.retention
    requires Spacing.OneClock(Protocol(sys), start, actions) && WorkerOf(Run(Protocol(sys), Initial(start), actions), w).Idle?
    ensures forall a :: a in more ==> Shifts.OnlyWorks(w, a)
    ensures AllArrived(sys, Run(Protocol(sys), Initial(start), actions), Run(Protocol(sys), Initial(start), actions + more))
  {
    more := Shifts.CanAlwaysDrain(Protocol(sys), start, actions, w, name);
    DrainedMeansAllArrived(sys, start, actions, more);
  }
}
