/**
 Where everything comes from, retention or not: every row, every event a worker holds and every routed record goes back
 to one delivered source record.
 */
module Provenance {
  import opened Prelude
  import opened Outbox
  import Kafka
  import opened Courier
  import OutboxSafety

  /** Some delivery asked for this row. */
  ghost predicate Sourced(deliveries: seq<Delivery>, id: Uuid, content: Content) {
    exists i :: 0 <= i < |deliveries| && deliveries[i].id == id && deliveries[i].content == content
  }

  ghost predicate TableSourced(deliveries: seq<Delivery>, book: map<Uuid, Content>) {
    forall id :: id in book ==> Sourced(deliveries, id, book[id])
  }

  ghost predicate WorkerSourced(deliveries: seq<Delivery>, worker: Worker) {
    worker.Busy? ==>
      worker.next < |worker.events|
      && forall j :: 0 <= j < |worker.events| ==> Sourced(deliveries, worker.events[j].id, worker.events[j].row.content)
  }

  /** The record is the rendering of some delivery. */
  ghost predicate RecordSourced(P: Params, deliveries: seq<Delivery>, m: Kafka.Message) {
    exists i :: 0 <= i < |deliveries| && m == P.render(deliveries[i].id, deliveries[i].content)
  }

  ghost predicate ProvenanceInv(P: Params, s: State) {
    && TableSourced(s.audit.deliveries, Contents(s.table))
    && (forall w :: w in s.workers ==> WorkerSourced(s.audit.deliveries, s.workers[w]))
    && (forall m :: m in s.routed ==> RecordSourced(P, s.audit.deliveries, m))
  }

  lemma SourcedStays(d: seq<Delivery>, d': seq<Delivery>, id: Uuid, content: Content)
    requires d <= d' && Sourced(d, id, content)
    ensures Sourced(d', id, content)
  {
    var i :| 0 <= i < |d| && d[i].id == id && d[i].content == content;
    assert d'[i] == d[i];
  }

  lemma InvStays(P: Params, s: State, s': State)
    requires ProvenanceInv(P, s) && s.audit.deliveries <= s'.audit.deliveries
    requires s'.workers == s.workers && s'.routed == s.routed
    requires TableSourced(s'.audit.deliveries, Contents(s'.table))
    ensures ProvenanceInv(P, s')
  {
    var d, d' := s.audit.deliveries, s'.audit.deliveries;
    forall w | w in s'.workers ensures WorkerSourced(d', s'.workers[w]) {
      if s.workers[w].Busy? {
        forall j | 0 <= j < |s.workers[w].events|
          ensures Sourced(d', s.workers[w].events[j].id, s.workers[w].events[j].row.content)
        {
          SourcedStays(d, d', s.workers[w].events[j].id, s.workers[w].events[j].row.content);
        }
      }
    }
    forall m | m in s'.routed ensures RecordSourced(P, d', m) {
      var i :| 0 <= i < |d| && m == P.render(d[i].id, d[i].content);
      assert d'[i] == d[i];
    }
  }

  /** Rows keep what they were inserted with; a new one carries the content of a new delivery. */
  ghost predicate BookGrows(s: State, s': State) {
    && s.audit.deliveries <= s'.audit.deliveries
    && forall id :: id in s'.table ==>
         if id in s.table then s'.table[id].content == s.table[id].content
         else Sourced(s'.audit.deliveries, id, s'.table[id].content)
  }

  lemma BookStaysSourced(s: State, s': State)
    requires TableSourced(s.audit.deliveries, Contents(s.table)) && BookGrows(s, s')
    ensures TableSourced(s'.audit.deliveries, Contents(s'.table))
  {
    forall id | id in Contents(s'.table) ensures Sourced(s'.audit.deliveries, id, Contents(s'.table)[id]) {
      if id in s.table {
        assert Contents(s.table)[id] == s.table[id].content;
        SourcedStays(s.audit.deliveries, s'.audit.deliveries, id, s.table[id].content);
      }
    }
  }

  lemma CheckGrows(P: Params, s: State, c: nat, con: Consumer, answered: bool)
    ensures BookGrows(s, CheckStep(P, s, c, con, answered))
  {
  }

  lemma InsertGrows(P: Params, s: State, c: nat, con: Consumer, outcome: Outcome, createdAt: Time)
    ensures BookGrows(s, InsertStep(P, s, c, con, outcome, createdAt))
  {
    var s' := InsertStep(P, s, c, con, outcome, createdAt);
    var n := |s.audit.deliveries|;
    forall id | id in s'.table && id !in s.table ensures Sourced(s'.audit.deliveries, id, s'.table[id].content) {
      assert s'.audit.deliveries[n].id == id && s'.audit.deliveries[n].content == s'.table[id].content;
    }
  }

  lemma FetchingGrows(P: Params, s: State, c: nat, act: ConsumerAct)
    requires act.CrashConsumer? || act.Assign? || act.Poll? || act.Begin?
    ensures BookGrows(s, ConsumerStep(P, s, c, act))
  {
  }

  lemma EndingGrows(P: Params, s: State, c: nat, act: ConsumerAct)
    requires act.Mark? || act.BuryRecord? || act.Cancel? || act.Commit? || act.Flush?
    ensures BookGrows(s, ConsumerStep(P, s, c, act))
  {
  }

  lemma ConsumerGrows(P: Params, s: State, c: nat, act: ConsumerAct)
    ensures BookGrows(s, ConsumerStep(P, s, c, act))
  {
    match act
    case Check(answered) => CheckGrows(P, s, c, ConsumerOf(s, c), answered);
    case Insert(outcome, createdAt) => InsertGrows(P, s, c, ConsumerOf(s, c), outcome, createdAt);
    case CrashConsumer => FetchingGrows(P, s, c, act);
    case Assign(p) => FetchingGrows(P, s, c, act);
    case Poll(batch) => FetchingGrows(P, s, c, act);
    case Begin => FetchingGrows(P, s, c, act);
    case _ => EndingGrows(P, s, c, act);
  }

  lemma ConsumerKeepsProvenance(P: Params, s: State, c: nat, act: ConsumerAct)
    requires ProvenanceInv(P, s)
    ensures ProvenanceInv(P, ConsumerStep(P, s, c, act))
  {
    var s' := ConsumerStep(P, s, c, act);
    OutboxSafety.ConsumerLeavesDelivery(P, s, c, act);
    ConsumerGrows(P, s, c, act);
    BookStaysSourced(s, s');
    InvStays(P, s, s');
  }

  lemma WorldKeepsProvenance(P: Params, s: State, e: Event)
    requires ProvenanceInv(P, s)
    ensures ProvenanceInv(P, WorldStep(P, s, e))
  {
    var s' := WorldStep(P, s, e);
    BookStaysSourced(s, s');
    InvStays(P, s, s');
  }

  lemma ClaimKeepsProvenance(P: Params, s: State, w: nat, name: string, limit: nat, skip: set<Uuid>, order: seq<Uuid>, reported: bool)
    requires ProvenanceInv(P, s)
    ensures ProvenanceInv(P, ClaimStep(s, w, name, limit, skip, order, reported))
  {
    var s' := ClaimStep(s, w, name, limit, skip, order, reported);
    ClaimTouchesOnlyLocks(s.table, Elements(order), s.now, name);
    if s' != s {
      assert forall i :: 0 <= i < |order| ==> order[i] in Elements(order);
      assert WorkerSourced(s'.audit.deliveries, s'.workers[w]) by {
        assert forall i :: 0 <= i < |order| ==> s'.table[order[i]].content == Contents(s.table)[order[i]];
      }
    }
  }

  lemma SendKeepsProvenance(P: Params, s: State, w: nat, outcome: Outcome, clock: Time, cause: string)
    requires ProvenanceInv(P, s)
    ensures ProvenanceInv(P, SendStep(P, s, w, outcome, clock, cause))
  {
    var worker := WorkerOf(s, w);
    if HasEvent(worker) && worker.pc.Sending? {
      var e, d := Current(worker), s.audit.deliveries;
      assert Sourced(d, e.id, e.row.content);
      assert RecordSourced(P, d, P.render(e.id, e.row.content));
    }
  }

  lemma MarkRowKeepsProvenance(P: Params, s: State, w: nat, applied: bool)
    requires ProvenanceInv(P, s)
    ensures ProvenanceInv(P, MarkRowStep(s, w, applied))
  {
    OutboxSafety.MarkRowContents(s, w, applied);
    OutboxSafety.MarkRowOnlyAdvances(s, w, applied);
  }

  lemma CrashKeepsProvenance(P: Params, s: State, w: nat)
    requires ProvenanceInv(P, s)
    ensures ProvenanceInv(P, CrashWorkerStep(s, w))
  {
  }

  lemma StepKeepsProvenance(P: Params, s: State, a: Action)
    requires ProvenanceInv(P, s)
    ensures ProvenanceInv(P, Step(P, s, a))
  {
    match a
    case ByConsumer(c, act) => ConsumerKeepsProvenance(P, s, c, act);
    case ByWorld(e) => WorldKeepsProvenance(P, s, e);
    case ByWorker(w, act) =>
      match act
      case Claim(name, limit, skip, order, reported) => ClaimKeepsProvenance(P, s, w, name, limit, skip, order, reported);
      case Send(outcome, clock, cause) => SendKeepsProvenance(P, s, w, outcome, clock, cause);
      case MarkRow(applied) => MarkRowKeepsProvenance(P, s, w, applied);
      case CrashWorker => CrashKeepsProvenance(P, s, w);
  }

  lemma {:induction false} ProvenanceAlways(P: Params, now: Time, actions: seq<Action>)
    ensures ProvenanceInv(P, Run(P, Initial(now), actions))
    decreases |actions|
  {
    if actions != [] {
      var init := actions[..|actions| - 1];
      ProvenanceAlways(P, now, init);
      StepKeepsProvenance(P, Run(P, Initial(now), init), actions[|actions| - 1]);
    }
  }
}
