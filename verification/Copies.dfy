/**
 Published means copied. In every run a row that is published, or was before retention removed it, has a copy in the
 routed topics of what some delivery asked for under its id.
 */
module Copies {
  import opened Prelude
  import Kafka
  import opened Courier
  import IntakeSafety
  import OutboxSafety
  import opened Provenance

  /** Some delivery under this id has its record in the routed topics. */
  ghost predicate HasCopy(P: Params, deliveries: seq<Delivery>, routed: seq<Kafka.Message>, id: Uuid) {
    exists i :: 0 <= i < |deliveries| && deliveries[i].id == id && P.render(id, deliveries[i].content) in routed
  }

  ghost predicate WorkerCopied(P: Params, s: State, worker: Worker) {
    HasEvent(worker) && worker.pc.MarkingPublished? ==> HasCopy(P, s.audit.deliveries, s.routed, Current(worker).id)
  }

  /** Published rows, removed rows and rows about to be marked as published. */
  ghost predicate CopiesInv(P: Params, s: State) {
    && (forall id :: id in s.table && s.table[id].publishedAt.Some? ==> HasCopy(P, s.audit.deliveries, s.routed, id))
    && (forall id :: id in s.audit.deleted ==> HasCopy(P, s.audit.deliveries, s.routed, id))
    && (forall w :: w in s.workers ==> WorkerCopied(P, s, s.workers[w]))
  }

  lemma CopyStays(P: Params, s: State, s': State, id: Uuid)
    requires HasCopy(P, s.audit.deliveries, s.routed, id)
    requires s.audit.deliveries <= s'.audit.deliveries && s.routed <= s'.routed
    ensures HasCopy(P, s'.audit.deliveries, s'.routed, id)
  {
    var i :| 0 <= i < |s.audit.deliveries| && s.audit.deliveries[i].id == id && P.render(id, s.audit.deliveries[i].content) in s.routed;
    assert s'.audit.deliveries[i] == s.audit.deliveries[i];
  }

  /** What is newly published, removed or about to be marked is all that a step has to answer for. */
  lemma CopiesStay(P: Params, s: State, s': State)
    requires CopiesInv(P, s) && s.audit.deliveries <= s'.audit.deliveries && s.routed <= s'.routed
    requires forall id :: id in s'.table && s'.table[id].publishedAt.Some? ==>
      (id in s.table && s.table[id].publishedAt.Some?) || HasCopy(P, s.audit.deliveries, s.routed, id)
    requires forall id :: id in s'.audit.deleted ==> id in s.audit.deleted || (id in s.table && s.table[id].publishedAt.Some?)
    requires forall w :: w in s'.workers ==>
      (w in s.workers && s'.workers[w] == s.workers[w]) || WorkerCopied(P, s', s'.workers[w])
    ensures CopiesInv(P, s')
  {
    forall id | HasCopy(P, s.audit.deliveries, s.routed, id) ensures HasCopy(P, s'.audit.deliveries, s'.routed, id) {
      CopyStays(P, s, s', id);
    }
  }

  lemma ConsumerCopies(P: Params, s: State, c: nat, act: ConsumerAct)
    requires CopiesInv(P, s)
    ensures CopiesInv(P, ConsumerStep(P, s, c, act))
  {
    OutboxSafety.ConsumerLeavesDelivery(P, s, c, act);
    IntakeSafety.ConsumerGrows(P, s, c, act);
    CopiesStay(P, s, ConsumerStep(P, s, c, act));
  }

  lemma WorldCopies(P: Params, s: State, e: Event)
    requires CopiesInv(P, s)
    ensures CopiesInv(P, WorldStep(P, s, e))
  {
    CopiesStay(P, s, WorldStep(P, s, e));
  }

  lemma ClaimCopies(P: Params, s: State, w: nat, name: string, limit: nat, skip: set<Uuid>, order: seq<Uuid>, reported: bool)
    requires CopiesInv(P, s)
    ensures CopiesInv(P, ClaimStep(s, w, name, limit, skip, order, reported))
  {
    var s' := ClaimStep(s, w, name, limit, skip, order, reported);
    if s' != s {
      assert s'.workers == s.workers[w := s'.workers[w]] && (s'.workers[w].Busy? ==> s'.workers[w].pc.Sending?);
      assert s'.routed == s.routed && s'.audit == s.audit;
      CopiesStay(P, s, s');
    }
  }

  lemma SendCopies(P: Params, s: State, w: nat, outcome: Outcome, clock: Time, cause: string)
    requires CopiesInv(P, s) && ProvenanceInv(P, s)
    ensures CopiesInv(P, SendStep(P, s, w, outcome, clock, cause))
  {
    var s', worker := SendStep(P, s, w, outcome, clock, cause), WorkerOf(s, w);
    if HasEvent(worker) && worker.pc.Sending? {
      var e, d := Current(worker), s.audit.deliveries;
      assert Sourced(d, e.id, e.row.content);
      var i :| 0 <= i < |d| && d[i].id == e.id && d[i].content == e.row.content;
      assert outcome.Done? ==> s'.routed[|s.routed|] == P.render(e.id, d[i].content);
      assert WorkerCopied(P, s', s'.workers[w]);
      CopiesStay(P, s, s');
    }
  }

  lemma MarkRowCopies(P: Params, s: State, w: nat, applied: bool)
    requires CopiesInv(P, s)
    ensures CopiesInv(P, MarkRowStep(s, w, applied))
  {
    var s', worker := MarkRowStep(s, w, applied), WorkerOf(s, w);
    if HasEvent(worker) && !worker.pc.Sending? {
      OutboxSafety.MarkRowOnlyAdvances(s, w, applied);
      IntakeSafety.MarkRowLeavesIntake(s, w, applied);
      forall id | id in s'.table && s'.table[id].publishedAt.Some?
        ensures (id in s.table && s.table[id].publishedAt.Some?) || HasCopy(P, s.audit.deliveries, s.routed, id)
      {
        OutboxSafety.MarkRowPublishesCurrent(s, w, applied, id);
        assert worker == s.workers[w];
      }
      CopiesStay(P, s, s');
    }
  }

  lemma CrashCopies(P: Params, s: State, w: nat)
    requires CopiesInv(P, s)
    ensures CopiesInv(P, CrashWorkerStep(s, w))
  {
    CopiesStay(P, s, CrashWorkerStep(s, w));
  }

  lemma StepCopies(P: Params, s: State, a: Action)
    requires CopiesInv(P, s) && ProvenanceInv(P, s)
    ensures CopiesInv(P, Step(P, s, a))
  {
    match a
    case ByConsumer(c, act) => ConsumerCopies(P, s, c, act);
    case ByWorld(e) => WorldCopies(P, s, e);
    case ByWorker(w, act) =>
      match act
      case Claim(name, limit, skip, order, reported) => ClaimCopies(P, s, w, name, limit, skip, order, reported);
      case Send(outcome, clock, cause) => SendCopies(P, s, w, outcome, clock, cause);
      case MarkRow(applied) => MarkRowCopies(P, s, w, applied);
      case CrashWorker => CrashCopies(P, s, w);
  }

  /** In every run, retention or not: whatever is or was published has its copy, and nothing is marked before it is copied. */
  lemma {:induction false} PublishedHasCopy(P: Params, now: Time, actions: seq<Action>)
    ensures CopiesInv(P, Run(P, Initial(now), actions))
    decreases |actions|
  {
    if actions == [] {
    } else {
      var init := actions[..|actions| - 1];
      PublishedHasCopy(P, now, init);
      ProvenanceAlways(P, now, init);
      StepCopies(P, Run(P, Initial(now), init), actions[|actions| - 1]);
    }
  }
}
