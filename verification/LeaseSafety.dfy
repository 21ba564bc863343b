/**
 Leases. If every claimed batch is finished or abandoned within the lease, no two workers hold a row and every mark lands
 on the marker's own lease.
 */
module LeaseSafety {
  import opened Prelude
  import opened Outbox
  import opened Courier
  import OutboxSafety
  import Ledger

  /** Every batch in hand was claimed at most `bound` ago. */
  ghost predicate Timely(s: State, bound: Time) {
    forall w :: w in s.workers && s.workers[w].Busy? ==> s.now <= s.workers[w].claimedAt + bound
  }

  ghost predicate TimelyRun(P: Params, now: Time, bound: Time, actions: seq<Action>)
    decreases |actions|
  {
    && Timely(Run(P, Initial(now), actions), bound)
    && (actions != [] ==> TimelyRun(P, now, bound, actions[..|actions| - 1]))
  }

  /** The worker still has the row to publish or to mark. */
  predicate Holds(worker: Worker, id: Uuid) {
    worker.Busy? && exists j :: worker.next <= j < |worker.events| && worker.events[j].id == id
  }

  ghost predicate Exclusive(s: State) {
    forall v, w, id :: v in s.workers && w in s.workers && v != w && Holds(s.workers[v], id) ==> !Holds(s.workers[w], id)
  }

  /** The row is pending, under this worker's lease, and as the worker saw it. */
  predicate OwnLease(t: Table, worker: Worker, e: Claimed)
    requires worker.Busy?
  {
    && Pending(t, e.id)
    && t[e.id].lockedAt == Some(worker.claimedAt) && t[e.id].lockedBy == Some(worker.name)
    && t[e.id].attempts == e.row.attempts
    && t[e.id].nextAttemptAt == e.row.nextAttemptAt
  }

  ghost predicate LeaseSound(t: Table, now: Time, worker: Worker) {
    worker.Busy? ==>
      && worker.claimedAt <= now
      && worker.next < |worker.events|
      && (forall j :: worker.next <= j < |worker.events| ==> OwnLease(t, worker, worker.events[j]))
      && (forall i, j :: worker.next <= i < j < |worker.events| ==> worker.events[i].id != worker.events[j].id)
  }

  ghost predicate LeaseInv(s: State) {
    && Exclusive(s)
    && forall w :: w in s.workers ==> LeaseSound(s.table, s.now, s.workers[w])
  }

  /** A lease survives any change that leaves its rows alone. */
  lemma LeaseSoundStays(t: Table, now: Time, t': Table, now': Time, worker: Worker)
    requires LeaseSound(t, now, worker) && now <= now'
    requires forall id :: Holds(worker, id) && id in t ==> id in t' && t'[id] == t[id]
    ensures LeaseSound(t', now', worker)
  {
    if worker.Busy? {
      forall j | worker.next <= j < |worker.events| ensures OwnLease(t', worker, worker.events[j]) {
        assert Holds(worker, worker.events[j].id);
      }
    }
  }

  lemma ClaimLeases(s: State, w: nat, name: string, limit: nat, skip: set<Uuid>, order: seq<Uuid>, reported: bool)
    requires LeaseInv(s) && Timely(s, LEASE)
    ensures LeaseInv(ClaimStep(s, w, name, limit, skip, order, reported))
  {
    var s' := ClaimStep(s, w, name, limit, skip, order, reported);
    if s' != s {
      var claimed := Elements(order);
      forall v, id | v in s.workers && Holds(s.workers[v], id) ensures id !in claimed {
        var j :| s.workers[v].next <= j < |s.workers[v].events| && s.workers[v].events[j].id == id;
        assert OwnLease(s.table, s.workers[v], s.workers[v].events[j]);
      }
      forall v | v in s'.workers && v != w ensures LeaseSound(s'.table, s'.now, s'.workers[v]) {
        LeaseSoundStays(s.table, s.now, s'.table, s'.now, s.workers[v]);
      }
      assert forall i :: 0 <= i < |order| ==> order[i] in claimed;
      assert forall id :: Holds(s'.workers[w], id) ==> id in claimed;
      assert LeaseSound(s'.table, s'.now, s'.workers[w]);
    }
  }

  lemma AdvanceHolds(worker: Worker, id: Uuid)
    requires worker.Busy? && Holds(Advance(worker), id)
    ensures Holds(worker, id)
  {
    var j :| Advance(worker).next <= j < |worker.events| && worker.events[j].id == id;
    assert worker.next <= j;
  }

  /** Worker w gives up holds, and the rows that others hold do not change. */
  lemma LeasesReassemble(s: State, s': State, w: nat, worker: Worker)
    requires LeaseInv(s) && s'.workers == s.workers[w := worker] && s'.now == s.now
    requires LeaseSound(s'.table, s'.now, worker)
    requires forall id :: Holds(worker, id) ==> Holds(WorkerOf(s, w), id)
    requires forall v, id :: v in s.workers && v != w && Holds(s.workers[v], id) && id in s.table ==>
      id in s'.table && s'.table[id] == s.table[id]
    ensures LeaseInv(s')
  {
    forall v | v in s'.workers && v != w ensures LeaseSound(s'.table, s'.now, s'.workers[v]) {
      LeaseSoundStays(s.table, s.now, s'.table, s'.now, s.workers[v]);
    }
  }

  lemma MarkRowTouchesOne(s: State, w: nat, applied: bool, id: Uuid)
    requires HasEvent(WorkerOf(s, w)) && !WorkerOf(s, w).pc.Sending?
    requires id in s.table && id != Current(WorkerOf(s, w)).id
    ensures var s' := MarkRowStep(s, w, applied);
      id in s'.table && s'.table[id] == s.table[id]
  {
  }

  lemma MarkRowLeases(s: State, w: nat, applied: bool)
    requires LeaseInv(s)
    ensures LeaseInv(MarkRowStep(s, w, applied))
  {
    var s', worker := MarkRowStep(s, w, applied), WorkerOf(s, w);
    if HasEvent(worker) && !worker.pc.Sending? {
      var id := Current(worker).id;
      assert Holds(worker, id);
      forall x | x in s.table && x != id ensures x in s'.table && s'.table[x] == s.table[x] {
        MarkRowTouchesOne(s, w, applied, x);
      }
      Ledger.MarkRowMoves(s, w, applied);
      forall x | Holds(Advance(worker), x) ensures Holds(worker, x) && x != id {
        AdvanceHolds(worker, x);
      }
      if Advance(worker).Busy? {
        LeaseSoundStays(s.table, s.now, s'.table, s'.now, Advance(worker));
      }
      LeasesReassemble(s, s', w, Advance(worker));
    }
  }

  lemma SendLeases(P: Params, s: State, w: nat, outcome: Outcome, clock: Time, cause: string)
    requires LeaseInv(s)
    ensures LeaseInv(SendStep(P, s, w, outcome, clock, cause))
  {
    var s', worker := SendStep(P, s, w, outcome, clock, cause), WorkerOf(s, w);
    if HasEvent(worker) && worker.pc.Sending? {
      assert s'.workers == s.workers[w := worker.(pc := s'.workers[w].pc)];
      assert forall id :: Holds(s'.workers[w], id) ==> Holds(worker, id);
      assert forall j :: OwnLease(s'.table, s'.workers[w], worker.events[j]) <== 0 <= j < |worker.events| && OwnLease(s.table, worker, worker.events[j]);
    }
  }

  lemma WorldLeases(P: Params, s: State, e: Event)
    requires LeaseInv(s) && !P.releases
    ensures LeaseInv(WorldStep(P, s, e))
  {
    var s' := WorldStep(P, s, e);
    forall v | v in s'.workers ensures LeaseSound(s'.table, s'.now, s'.workers[v]) {
      forall id | Holds(s.workers[v], id) && id in s.table ensures id in s'.table && s'.table[id] == s.table[id] {
        var j :| s.workers[v].next <= j < |s.workers[v].events| && s.workers[v].events[j].id == id;
        assert OwnLease(s.table, s.workers[v], s.workers[v].events[j]);
      }
      LeaseSoundStays(s.table, s.now, s'.table, s'.now, s.workers[v]);
    }
  }

  lemma ConsumerLeases(P: Params, s: State, c: nat, act: ConsumerAct)
    requires LeaseInv(s)
    ensures LeaseInv(ConsumerStep(P, s, c, act))
  {
    var s' := ConsumerStep(P, s, c, act);
    OutboxSafety.ConsumerLeavesDelivery(P, s, c, act);
    forall v | v in s'.workers ensures LeaseSound(s'.table, s'.now, s'.workers[v]) {
      LeaseSoundStays(s.table, s.now, s'.table, s'.now, s.workers[v]);
    }
  }

  lemma CrashLeases(s: State, w: nat)
    requires LeaseInv(s)
    ensures LeaseInv(CrashWorkerStep(s, w))
  {
  }

  lemma StepLeases(P: Params, s: State, a: Action)
    requires LeaseInv(s) && Timely(s, LEASE) && !P.releases
    ensures LeaseInv(Step(P, s, a))
  {
    match a
    case ByConsumer(c, act) => ConsumerLeases(P, s, c, act);
    case ByWorld(e) => WorldLeases(P, s, e);
    case ByWorker(w, act) =>
      match act
      case Claim(name, limit, skip, order, reported) => ClaimLeases(s, w, name, limit, skip, order, reported);
      case Send(outcome, clock, cause) => SendLeases(P, s, w, outcome, clock, cause);
      case MarkRow(applied) => MarkRowLeases(s, w, applied);
      case CrashWorker => CrashLeases(s, w);
  }

  lemma {:induction false} LeasesAlways(P: Params, now: Time, bound: Time, actions: seq<Action>)
    requires !P.releases && bound <= LEASE && TimelyRun(P, now, bound, actions)
    ensures LeaseInv(Run(P, Initial(now), actions))
    decreases |actions|
  {
    if actions != [] {
      LeasesAlways(P, now, bound, actions[..|actions| - 1]);
      StepLeases(P, Run(P, Initial(now), actions[..|actions| - 1]), actions[|actions| - 1]);
    }
  }

  /** Whatever a worker is about to mark is pending and under that worker's own lease. */
  lemma MarksLandOnOwnLease(P: Params, now: Time, actions: seq<Action>, w: nat)
    requires !P.releases && TimelyRun(P, now, LEASE, actions)
    requires HasEvent(WorkerOf(Run(P, Initial(now), actions), w))
    ensures var s := Run(P, Initial(now), actions);
      OwnLease(s.table, WorkerOf(s, w), Current(WorkerOf(s, w)))
  {
    LeasesAlways(P, now, LEASE, actions);
  }
}
