/**
 Whether a published row's own content has been published. It has, unless retention removes a row, the row comes back with
 other content, and a worker that still holds the old one then marks the new: seven days is exactly the time that takes.
 */
module OwnCopies {
  import opened Prelude
  import opened Outbox
  import opened Kafka
  import opened Courier
  import opened OutboxSafety
  import Reach
  import IntakeSafety
  import LeaseBound
  import opened LeaseSafety

  /** The row that the worker claimed is still there, with its content; if published, then not before the claim. */
  predicate StillThere(t: Table, claimedAt: Time, e: Claimed) {
    && e.id in t && t[e.id].content == e.row.content
    && (t[e.id].publishedAt.Some? ==> claimedAt <= t[e.id].publishedAt.value)
  }

  ghost predicate WorkerOwn(P: Params, s: State, worker: Worker) {
    worker.Busy? ==>
      && worker.next < |worker.events| && worker.claimedAt <= s.now
      && (forall j :: worker.next <= j < |worker.events| ==> StillThere(s.table, worker.claimedAt, worker.events[j]))
      && (worker.pc.MarkingPublished? ==> P.render(Current(worker).id, Current(worker).row.content) in s.routed)
  }

  ghost predicate OwnInv(P: Params, s: State) {
    PublishedSound(P, s.table, s.routed) && forall w :: w in s.workers ==> WorkerOwn(P, s, s.workers[w])
  }

  /** What was claimed then and is still there stays. */
  ghost predicate KeepsHeld(s: State, s': State, claimedAt: Time) {
    && s.now <= s'.now && s.routed <= s'.routed
    && forall e :: StillThere(s.table, claimedAt, e) ==> StillThere(s'.table, claimedAt, e)
  }

  lemma OwnStays(P: Params, s: State, s': State, w: nat)
    requires OwnInv(P, s) && w in s.workers && (s.workers[w].Busy? ==> KeepsHeld(s, s', s.workers[w].claimedAt))
    ensures WorkerOwn(P, s', s.workers[w])
  {
  }

  lemma ConsumerOwn(P: Params, s: State, c: nat, act: ConsumerAct)
    requires OwnInv(P, s)
    ensures OwnInv(P, ConsumerStep(P, s, c, act))
  {
    ConsumerLeavesDelivery(P, s, c, act);
    forall w | w in s.workers {
      OwnStays(P, s, ConsumerStep(P, s, c, act), w);
    }
  }

  /** Rows claimed within seven days were not published long enough ago to be removed. */
  lemma HeldRowsStay(P: Params, s: State, e: Event, claimedAt: Time)
    requires P.retention ==> s.now <= claimedAt + RETENTION
    ensures KeepsHeld(s, WorldStep(P, s, e), claimedAt)
  {
  }

  lemma WorldOwn(P: Params, s: State, e: Event)
    requires OwnInv(P, s) && (P.retention ==> Timely(s, RETENTION))
    ensures OwnInv(P, WorldStep(P, s, e))
  {
    forall w | w in s.workers ensures WorkerOwn(P, WorldStep(P, s, e), s.workers[w]) {
      if s.workers[w].Busy? {
        HeldRowsStay(P, s, e, s.workers[w].claimedAt);
      }
      OwnStays(P, s, WorldStep(P, s, e), w);
    }
  }

  lemma ClaimOwn(P: Params, s: State, w: nat, name: string, limit: nat, skip: set<Uuid>, order: seq<Uuid>, reported: bool)
    requires OwnInv(P, s)
    ensures OwnInv(P, ClaimStep(s, w, name, limit, skip, order, reported))
  {
    var s' := ClaimStep(s, w, name, limit, skip, order, reported);
    if s' != s {
      assert forall i :: 0 <= i < |order| ==> order[i] in Elements(order);
      assert forall claimedAt :: KeepsHeld(s, s', claimedAt);
      forall v | v in s.workers {
        OwnStays(P, s, s', v);
      }
      assert WorkerOwn(P, s', s'.workers[w]);
    }
  }

  lemma SendOwn(P: Params, s: State, w: nat, outcome: Outcome, clock: Time, cause: string)
    requires OwnInv(P, s)
    ensures OwnInv(P, SendStep(P, s, w, outcome, clock, cause))
  {
    var s', worker := SendStep(P, s, w, outcome, clock, cause), WorkerOf(s, w);
    if HasEvent(worker) && worker.pc.Sending? {
      var e := Current(worker);
      assert outcome.Done? ==> s'.routed[|s.routed|] == P.render(e.id, e.row.content);
      forall v | v in s.workers {
        OwnStays(P, s, s', v);
      }
    }
  }

  lemma MarkRowMayPublish(s: State, w: nat, applied: bool, id: Uuid)
    requires id in s.table
    ensures var t' := MarkRowStep(s, w, applied).table;
      && id in t' && t'[id].content == s.table[id].content
      && (t'[id].publishedAt == s.table[id].publishedAt || t'[id].publishedAt == Some(s.now))
  {
  }

  lemma MarkKeepsHeld(s: State, w: nat, applied: bool, claimedAt: Time)
    requires claimedAt <= s.now
    ensures KeepsHeld(s, MarkRowStep(s, w, applied), claimedAt)
  {
    IntakeSafety.MarkRowLeavesIntake(s, w, applied);
    MarkRowOnlyAdvances(s, w, applied);
    forall id | id in s.table {
      MarkRowMayPublish(s, w, applied, id);
    }
  }

  /** What a mark publishes is the row the worker holds. */
  lemma MarkPublishesHeld(P: Params, s: State, w: nat, applied: bool)
    requires OwnInv(P, s) && HasEvent(WorkerOf(s, w)) && !WorkerOf(s, w).pc.Sending?
    ensures PublishedSound(P, MarkRowStep(s, w, applied).table, s.routed)
  {
    var worker, t' := WorkerOf(s, w), MarkRowStep(s, w, applied).table;
    assert worker == s.workers[w];
    assert StillThere(s.table, worker.claimedAt, Current(worker));
  }

  lemma MarkRowOwn(P: Params, s: State, w: nat, applied: bool)
    requires OwnInv(P, s)
    ensures OwnInv(P, MarkRowStep(s, w, applied))
  {
    var s', worker := MarkRowStep(s, w, applied), WorkerOf(s, w);
    if HasEvent(worker) && !worker.pc.Sending? {
      MarkPublishesHeld(P, s, w, applied);
      MarkRowOnlyAdvances(s, w, applied);
      forall v | v in s.workers ensures WorkerOwn(P, s', s.workers[v]) {
        if s.workers[v].Busy? {
          MarkKeepsHeld(s, w, applied, s.workers[v].claimedAt);
        }
        OwnStays(P, s, s', v);
      }
    }
  }

  lemma CrashOwn(P: Params, s: State, w: nat)
    requires OwnInv(P, s)
    ensures OwnInv(P, CrashWorkerStep(s, w))
  {
  }

  lemma StepOwn(P: Params, s: State, a: Action)
    requires OwnInv(P, s) && (P.retention ==> Timely(s, RETENTION))
    ensures OwnInv(P, Step(P, s, a))
  {
    match a
    case ByConsumer(c, act) => ConsumerOwn(P, s, c, act);
    case ByWorld(e) => WorldOwn(P, s, e);
    case ByWorker(w, act) =>
      match act
      case Claim(name, limit, skip, order, reported) => ClaimOwn(P, s, w, name, limit, skip, order, reported);
      case Send(outcome, clock, cause) => SendOwn(P, s, w, outcome, clock, cause);
      case MarkRow(applied) => MarkRowOwn(P, s, w, applied);
      case CrashWorker => CrashOwn(P, s, w);
  }

  lemma {:induction false} OwnAlways(P: Params, now: Time, actions: seq<Action>)
    requires P.retention ==> TimelyRun(P, now, RETENTION, actions)
    ensures OwnInv(P, Run(P, Initial(now), actions))
    decreases |actions|
  {
    if actions == [] {
    } else {
      var init := actions[..|actions| - 1];
      OwnAlways(P, now, init);
      assert P.retention ==> Timely(Run(P, Initial(now), init), RETENTION);
      StepOwn(P, Run(P, Initial(now), init), actions[|actions| - 1]);
    }
  }

  lemma {:induction false} TimelyWithin(P: Params, now: Time, bound: Time, longer: Time, actions: seq<Action>)
    requires TimelyRun(P, now, bound, actions) && bound <= longer
    ensures TimelyRun(P, now, longer, actions)
    decreases |actions|
  {
    if actions == [] {
    } else {
      TimelyWithin(P, now, bound, longer, actions[..|actions| - 1]);
    }
  }

  // A run in which a published row's content was never published.

  /** Two records of one event that are rendered differently: the first ones of partitions 0 and 1. */
  ghost predicate TwoVersions(P: Params) {
    var v, w := P.verdict(Place(0, 0)), P.verdict(Place(1, 0));
    v.Route? && w.Route? && v.id == w.id && P.render(v.id, v.content) != P.render(w.id, w.content)
  }

  /** The worker has sent the row and not yet marked it. */
  predicate AboutToPublish(worker: Worker, id: Uuid) {
    HasEvent(worker) && Current(worker).id == id && |worker.events| == 1 && worker.pc.MarkingPublished?
  }

  /** Nothing but the first version has been published. */
  ghost predicate FirstVersionRouted(P: Params, s: State) {
    var v := P.verdict(Place(0, 0));
    v.Route? && forall m :: m in s.routed ==> m == P.render(v.id, v.content)
  }

  /** And partition 1 is untouched. */
  ghost predicate FirstVersionOnly(P: Params, s: State) {
    && FirstVersionRouted(P, s)
    && s.redis == map[] && 1 !in s.committed && s.consumers.Keys == {0}
  }

  lemma SoleRowSent(P: Params, s: State, w: nat, id: Uuid)
    requires FirstVersionOnly(P, s) && id == P.verdict(Place(0, 0)).id
    requires HasEvent(WorkerOf(s, w)) && WorkerOf(s, w).pc.Sending? && |WorkerOf(s, w).events| == 1
    requires Current(WorkerOf(s, w)).id == id && Current(WorkerOf(s, w)).row.content == P.verdict(Place(0, 0)).content
    ensures var s' := Step(P, s, ByWorker(w, Send(Done, s.now, "")));
      && FirstVersionOnly(P, s') && s'.table == s.table && s'.now == s.now
      && s'.workers == s.workers[w := WorkerOf(s, w).(pc := MarkingPublished)] && AboutToPublish(s'.workers[w], id)
  {
  }

  /** The worker has claimed the first version and not yet sent it. */
  predicate AboutToSend(P: Params, worker: Worker) {
    var v := P.verdict(Place(0, 0));
    && v.Route? && HasEvent(worker) && worker.pc.Sending? && |worker.events| == 1
    && Current(worker).id == v.id && Current(worker).row.content == v.content
  }

  /** The first version's row, pending. */
  predicate SoleRow(P: Params, s: State) {
    var v := P.verdict(Place(0, 0));
    v.Route? && s.table.Keys == {v.id} && s.table[v.id].publishedAt.None? && s.table[v.id].content == v.content
  }

  lemma FirstClaim(P: Params, now: Time, bound: Time) returns (actions: seq<Action>)
    requires P.verdict(Place(0, 0)).Route? && bound > LEASE
    ensures TimelyRun(P, now, bound, actions)
    ensures var s := Run(P, Initial(now), actions);
      && FirstVersionOnly(P, s) && SoleRow(P, s) && Eligible(s.table[P.verdict(Place(0, 0)).id], s.now)
      && s.workers.Keys == {1} && AboutToSend(P, s.workers[1]) && s.workers[1].claimedAt + LEASE < s.now
  {
    var id := P.verdict(Place(0, 0)).id;
    actions := LeaseBound.RecordInserted(P, now, bound, [], 0, 0);
    LeaseBound.SoleRowClaimed(P, Run(P, Initial(now), actions), 1, "a", id);
    actions := LeaseBound.GoOn(P, now, bound, actions, ByWorker(1, Claim("a", 1, {}, [id], true)));
    actions := LeaseBound.GoOn(P, now, bound, actions, ByWorld(Tick(LEASE + 1)));
  }

  /** Worker 1 claims the row; after its lease worker 2 claims it too. */
  lemma BothClaim(P: Params, now: Time, bound: Time) returns (actions: seq<Action>)
    requires P.verdict(Place(0, 0)).Route? && bound > LEASE
    ensures TimelyRun(P, now, bound, actions)
    ensures var s := Run(P, Initial(now), actions);
      && FirstVersionOnly(P, s) && SoleRow(P, s)
      && s.workers.Keys == {1, 2} && AboutToSend(P, s.workers[1]) && AboutToSend(P, s.workers[2])
      && s.workers[2].claimedAt == s.now
  {
    var id := P.verdict(Place(0, 0)).id;
    actions := FirstClaim(P, now, bound);
    LeaseBound.SoleRowClaimed(P, Run(P, Initial(now), actions), 2, "b", id);
    actions := LeaseBound.GoOn(P, now, bound, actions, ByWorker(2, Claim("b", 1, {}, [id], true)));
  }

  /** Both publish it. */
  lemma BothSend(P: Params, now: Time, bound: Time) returns (actions: seq<Action>)
    requires P.verdict(Place(0, 0)).Route? && bound > LEASE
    ensures TimelyRun(P, now, bound, actions)
    ensures var s := Run(P, Initial(now), actions);
      var id := P.verdict(Place(0, 0)).id;
      && FirstVersionOnly(P, s) && SoleRow(P, s)
      && s.workers.Keys == {1, 2} && AboutToPublish(s.workers[1], id) && AboutToPublish(s.workers[2], id)
      && s.workers[2].claimedAt == s.now
  {
    var id := P.verdict(Place(0, 0)).id;
    actions := BothClaim(P, now, bound);
    var s := Run(P, Initial(now), actions);
    SoleRowSent(P, s, 2, id);
    actions := LeaseBound.GoOn(P, now, bound, actions, ByWorker(2, Send(Done, s.now, "")));
    SoleRowSent(P, Run(P, Initial(now), actions), 1, id);
    actions := LeaseBound.GoOn(P, now, bound, actions, ByWorker(1, Send(Done, s.now, "")));
  }

  lemma SoleRowPublished(P: Params, s: State, w: nat, id: Uuid)
    requires s.table.Keys == {id} && s.table[id].publishedAt.None? && AboutToPublish(WorkerOf(s, w), id)
    ensures var s' := Step(P, s, ByWorker(w, MarkRow(true)));
      && s' == s.(table := s'.table, workers := s.workers[w := Idle])
      && s'.table.Keys == {id} && s'.table[id].publishedAt == Some(s.now) && s'.table[id].content == s.table[id].content
  {
  }

  lemma SoleRowRemoved(P: Params, s: State, id: Uuid)
    requires P.retention && s.table.Keys == {id} && PastRetention(s.table[id], s.now)
    ensures var s' := Step(P, s, ByWorld(Retain)); s' == s.(table := map[], audit := s'.audit)
  {
    assert DeletePublished(s.table, s.now) == map[];
  }

  /** Worker 1 marks it as published. */
  lemma OneMarks(P: Params, now: Time, bound: Time) returns (actions: seq<Action>)
    requires P.verdict(Place(0, 0)).Route? && bound > LEASE
    ensures TimelyRun(P, now, bound, actions)
    ensures var s := Run(P, Initial(now), actions);
      var id := P.verdict(Place(0, 0)).id;
      && FirstVersionOnly(P, s) && s.table.Keys == {id} && s.table[id].publishedAt == Some(s.now)
      && s.workers.Keys == {1, 2} && s.workers[1].Idle? && AboutToPublish(s.workers[2], id) && s.workers[2].claimedAt == s.now
  {
    actions := BothSend(P, now, bound);
    SoleRowPublished(P, Run(P, Initial(now), actions), 1, P.verdict(Place(0, 0)).id);
    actions := LeaseBound.GoOn(P, now, bound, actions, ByWorker(1, MarkRow(true)));
  }

  /** Worker 2 does nothing for seven days. */
  lemma RowOutlived(P: Params, now: Time, bound: Time) returns (actions: seq<Action>)
    requires P.verdict(Place(0, 0)).Route? && bound > RETENTION
    ensures TimelyRun(P, now, bound, actions)
    ensures var s := Run(P, Initial(now), actions);
      var id := P.verdict(Place(0, 0)).id;
      && FirstVersionOnly(P, s) && s.table.Keys == {id} && PastRetention(s.table[id], s.now)
      && AboutToPublish(WorkerOf(s, 2), id) && Timely(s, bound)
  {
    actions := OneMarks(P, now, bound);
    actions := LeaseBound.GoOn(P, now, bound, actions, ByWorld(Tick(RETENTION + 1)));
  }

  /** The second version's row, pending. */
  predicate ComesBack(P: Params, s: State) {
    var v, w := P.verdict(Place(0, 0)), P.verdict(Place(1, 0));
    v.Route? && w.Route? && s.table.Keys == {v.id} && s.table[v.id].publishedAt.None? && s.table[v.id].content == w.content
  }

  /** Retention removes the row, and it comes back as the second version. */
  lemma RowReplaced(P: Params, now: Time, bound: Time) returns (outlived: seq<Action>, back: seq<Action>)
    requires P.retention && TwoVersions(P) && bound > RETENTION
    ensures TimelyRun(P, now, bound, outlived + [ByWorld(Retain)] + back)
    ensures var id := P.verdict(Place(0, 0)).id;
      var s, gone, s' := Run(P, Initial(now), outlived), Run(P, Initial(now), outlived + [ByWorld(Retain)]),
        Run(P, Initial(now), outlived + [ByWorld(Retain)] + back);
      && id in s.table && s.table[id].publishedAt.Some? && AboutToPublish(WorkerOf(s, 2), id)
      && id !in gone.table
      && ComesBack(P, s') && WorkerOf(s', 2) == WorkerOf(s, 2) && FirstVersionRouted(P, s')
  {
    outlived := RowOutlived(P, now, bound);
    SoleRowRemoved(P, Run(P, Initial(now), outlived), P.verdict(Place(0, 0)).id);
    var removed := LeaseBound.GoOn(P, now, bound, outlived, ByWorld(Retain));
    var whole := LeaseBound.RecordInserted(P, now, bound, removed, 1, 1);
    back := Reach.FirstActs(P, 1, 1, Run(P, Initial(now), removed).now);
  }

  /**
   A run beyond seven days: a row is published and removed, it comes back with other content, and a worker that still holds
   the old one marks the new as published, although what it says never was.
   */
  lemma StaleMarkPublishes(P: Params, now: Time, bound: Time) returns (outlived: seq<Action>, back: seq<Action>)
    requires P.retention && TwoVersions(P) && bound > RETENTION
    ensures TimelyRun(P, now, bound, outlived + [ByWorld(Retain)] + back + [ByWorker(2, MarkRow(true))])
    ensures var id := P.verdict(Place(0, 0)).id;
      var s, gone, s', marked := Run(P, Initial(now), outlived), Run(P, Initial(now), outlived + [ByWorld(Retain)]),
        Run(P, Initial(now), outlived + [ByWorld(Retain)] + back),
        Run(P, Initial(now), outlived + [ByWorld(Retain)] + back + [ByWorker(2, MarkRow(true))]);
      && id in s.table && s.table[id].publishedAt.Some? && AboutToPublish(WorkerOf(s, 2), id)
      && id !in gone.table
      && ComesBack(P, s') && WorkerOf(s', 2) == WorkerOf(s, 2)
      && id in marked.table && marked.table[id].publishedAt.Some? && P.render(id, marked.table[id].content) !in marked.routed
  {
    outlived, back := RowReplaced(P, now, bound);
    var actions := outlived + [ByWorld(Retain)] + back;
    SoleRowPublished(P, Run(P, Initial(now), actions), 2, P.verdict(Place(0, 0)).id);
    var marked := LeaseBound.GoOn(P, now, bound, actions, ByWorker(2, MarkRow(true)));
  }

  lemma StaleMarkIsUnsound(P: Params, now: Time, bound: Time) returns (actions: seq<Action>)
    requires P.retention && TwoVersions(P) && bound > RETENTION
    ensures TimelyRun(P, now, bound, actions)
    ensures !PublishedSound(P, Run(P, Initial(now), actions).table, Run(P, Initial(now), actions).routed)
  {
    var outlived, back := StaleMarkPublishes(P, now, bound);
    actions := outlived + [ByWorld(Retain)] + back + [ByWorker(2, MarkRow(true))];
    assert P.verdict(Place(0, 0)).id in Run(P, Initial(now), actions).table;
  }

  /** Where no row is removed, a published row's own content has been published, in every run. */
  lemma OwnContentPublished(P: Params, now: Time, actions: seq<Action>)
    requires !P.retention
    ensures var s := Run(P, Initial(now), actions); PublishedSound(P, s.table, s.routed)
  {
    OwnAlways(P, now, actions);
  }

  /** With retention that is so in every run exactly when workers keep their batches no longer than rows are retained. */
  lemma OwnContentIff(P: Params, now: Time, bound: Time)
    requires P.retention && TwoVersions(P)
    ensures bound <= RETENTION <==>
      forall actions :: TimelyRun(P, now, bound, actions) ==>
        PublishedSound(P, Run(P, Initial(now), actions).table, Run(P, Initial(now), actions).routed)
  {
    if bound <= RETENTION {
      forall actions | TimelyRun(P, now, bound, actions)
        ensures PublishedSound(P, Run(P, Initial(now), actions).table, Run(P, Initial(now), actions).routed)
      {
        TimelyWithin(P, now, bound, RETENTION, actions);
        OwnAlways(P, now, actions);
      }
    } else {
      var actions := StaleMarkIsUnsound(P, now, bound);
    }
  }
}
