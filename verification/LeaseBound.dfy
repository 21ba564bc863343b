/** Five minutes is exactly the time a worker has: one tick more and two workers publish the same row. */
module LeaseBound {
  import opened Prelude
  import opened Outbox
  import opened Kafka
  import opened Courier
  import opened LeaseSafety
  import OutboxSafety
  import Reach

  lemma TimelyStep(P: Params, now: Time, bound: Time, actions: seq<Action>, a: Action)
    requires TimelyRun(P, now, bound, actions)
    requires Timely(Step(P, Run(P, Initial(now), actions), a), bound)
    ensures TimelyRun(P, now, bound, actions + [a])
  {
    RunStep(P, Initial(now), actions, a);
    assert (actions + [a])[..|actions|] == actions;
  }

  /** A run that leaves one fresh row, and nobody working on it. */
  ghost predicate OneFreshRow(P: Params, now: Time, bound: Time, actions: seq<Action>, id: Uuid, content: Content) {
    var s := Run(P, Initial(now), actions);
    && TimelyRun(P, now, bound, actions)
    && s.now == now && s.workers == map[]
    && s.table == map[id := Row(content, now, None, 0, None, None, None, None)]
  }

  /** One more step of a timely run. */
  lemma GoOn(P: Params, now: Time, bound: Time, actions: seq<Action>, a: Action) returns (further: seq<Action>)
    requires TimelyRun(P, now, bound, actions)
    requires Timely(Step(P, Run(P, Initial(now), actions), a), bound)
    ensures further == actions + [a] && TimelyRun(P, now, bound, further)
    ensures Run(P, Initial(now), further) == Step(P, Run(P, Initial(now), actions), a)
  {
    RunStep(P, Initial(now), actions, a);
    TimelyStep(P, now, bound, actions, a);
    further := actions + [a];
  }

  /** Time and workers are as they were. */
  predicate SameShift(s: State, s': State) {
    s'.workers == s.workers && s'.now == s.now
  }

  lemma IntakeStepTimely(P: Params, now: Time, bound: Time, actions: seq<Action>, a: Action)
    requires TimelyRun(P, now, bound, actions) && a.ByConsumer?
    ensures TimelyRun(P, now, bound, actions + [a])
    ensures SameShift(Run(P, Initial(now), actions), Run(P, Initial(now), actions + [a]))
  {
    OutboxSafety.ConsumerLeavesDelivery(P, Run(P, Initial(now), actions), a.consumer, a.step);
    TimelyStep(P, now, bound, actions, a);
    RunStep(P, Initial(now), actions, a);
  }

  ghost predicate TimelyTo(P: Params, now: Time, bound: Time, actions: seq<Action>, s: State) {
    TimelyRun(P, now, bound, actions) && SameShift(s, Run(P, Initial(now), actions))
  }

  /** What consumers do keeps a run timely. */
  lemma {:induction false} IntakeStaysTimely(P: Params, now: Time, bound: Time, actions: seq<Action>, more: seq<Action>, s: State)
    requires TimelyTo(P, now, bound, actions, s) && forall a :: a in more ==> a.ByConsumer?
    ensures TimelyTo(P, now, bound, actions + more, s)
    decreases |more|
  {
    if more == [] {
      assert actions + more == actions;
    } else {
      IntakeStepTimely(P, now, bound, actions, more[0]);
      assert actions + more == actions + [more[0]] + more[1..];
      IntakeStaysTimely(P, now, bound, actions + [more[0]], more[1..], s);
    }
  }

  /** The first record of an untouched partition is taken up by a fresh consumer and inserted. */
  lemma RecordInserted(P: Params, now: Time, bound: Time, actions: seq<Action>, c: nat, p: nat) returns (further: seq<Action>)
    requires TimelyRun(P, now, bound, actions) && P.verdict(Place(p, 0)).Route?
    requires var s := Run(P, Initial(now), actions); p !in s.committed && s.redis == map[] && c !in s.consumers
    ensures TimelyRun(P, now, bound, further)
    ensures further == actions + Reach.FirstActs(P, c, p, Run(P, Initial(now), actions).now)
    ensures var s, s' := Run(P, Initial(now), actions), Run(P, Initial(now), further);
      var v := P.verdict(Place(p, 0));
      && s'.table == Outbox.Insert(s.table, v.id, v.content, s.now)
      && s'.now == s.now && s'.workers == s.workers && s'.routed == s.routed && s'.redis == s.redis
      && s'.committed == s.committed[p := 1] && s'.consumers.Keys == s.consumers.Keys + {c}
  {
    var s := Run(P, Initial(now), actions);
    further := actions + Reach.FirstActs(P, c, p, s.now);
    Reach.FirstRecordHandled(P, s, c, p);
    RunConcat(P, Initial(now), actions, Reach.FirstActs(P, c, p, s.now));
    IntakeStaysTimely(P, now, bound, actions, Reach.FirstActs(P, c, p, s.now), s);
  }

  /** The first record there is, inserted. */
  lemma FirstRecordInserted(P: Params, now: Time, bound: Time) returns (actions: seq<Action>)
    requires P.verdict(Place(0, 0)).Route?
    ensures OneFreshRow(P, now, bound, actions, P.verdict(Place(0, 0)).id, P.verdict(Place(0, 0)).content)
  {
    actions := RecordInserted(P, now, bound, [], 0, 0);
  }

  /** The only row there is gets claimed. */
  lemma SoleRowClaimed(P: Params, s: State, w: nat, name: string, id: Uuid)
    requires s.table.Keys == {id} && Eligible(s.table[id], s.now) && WorkerOf(s, w).Idle?
    ensures var row := Outbox.Locked(s.table[id], s.now, name);
      Step(P, s, ByWorker(w, Claim(name, 1, {}, [id], true))) ==
        s.(table := map[id := row], workers := s.workers[w := Busy(name, s.now, [Claimed(id, row)], 0, Sending)])
  {
    assert EligibleIds(s.table, s.now, {}) == {id};
    assert Elements([id]) == {id};
    assert IsClaim(s, 1, {}, [id]);
    var table := map[id := Outbox.Locked(s.table[id], s.now, name)];
    assert Outbox.Claim(s.table, {id}, s.now, name) == table;
    assert Snapshot(table, [id]) == [Claimed(id, table[id])];
  }

  /** Worker 1 claims the row, fails to publish it, and then stalls past its lease. */
  lemma OverdueBatch(P: Params, now: Time, bound: Time) returns (actions: seq<Action>)
    requires P.verdict(Place(0, 0)).Route? && bound > LEASE
    ensures TimelyRun(P, now, bound, actions)
    ensures var s := Run(P, Initial(now), actions);
      var id := P.verdict(Place(0, 0)).id;
      && s.now == now + LEASE + 1 && s.table.Keys == {id} && Eligible(s.table[id], s.now)
      && s.table[id].attempts == 0
      && s.workers.Keys == {1} && HasEvent(s.workers[1]) && Current(s.workers[1]).id == id
      && s.workers[1].pc.MarkingFailed? && s.workers[1].claimedAt == now
  {
    var id := P.verdict(Place(0, 0)).id;
    actions := FirstRecordInserted(P, now, bound);
    var s := Run(P, Initial(now), actions);

    SoleRowClaimed(P, s, 1, "a", id);
    actions := GoOn(P, now, bound, actions, ByWorker(1, Claim("a", 1, {}, [id], true)));
    actions := GoOn(P, now, bound, actions, ByWorker(1, Send(Failed, now, "unreachable")));
    actions := GoOn(P, now, bound, actions, ByWorld(Tick(LEASE + 1)));
  }

  /** A late failure mark clears the lease, whoever's it is. */
  lemma LateMarkClears(P: Params, s: State, w: nat, v: nat)
    requires HasEvent(WorkerOf(s, w)) && WorkerOf(s, w).pc.MarkingFailed? && CanFail(s.table, Current(WorkerOf(s, w)).id) && v != w
    ensures var s' := Step(P, s, ByWorker(w, MarkRow(true)));
      var id := Current(WorkerOf(s, w)).id;
      WorkerOf(s', v) == WorkerOf(s, v) && id in s'.table && s'.table[id].lockedAt.None?
  {
  }

  /** Worker 2 claims the overdue row; worker 1's late failure mark then clears worker 2's lease. */
  lemma OverrunLease(P: Params, now: Time, bound: Time) returns (before: seq<Action>, stale: Action)
    requires P.verdict(Place(0, 0)).Route? && bound > LEASE
    ensures var s, s' := Run(P, Initial(now), before), Run(P, Initial(now), before + [stale]);
      var id := P.verdict(Place(0, 0)).id;
      && TimelyRun(P, now, bound, before)
      && Holds(WorkerOf(s, 1), id) && Holds(WorkerOf(s, 2), id)
      && OwnLease(s.table, WorkerOf(s, 2), Current(WorkerOf(s, 2)))
      && stale.ByWorker? && stale.worker == 1
      && WorkerOf(s', 2) == WorkerOf(s, 2) && id in s'.table && s'.table[id].lockedAt.None?
  {
    var id := P.verdict(Place(0, 0)).id;
    before := OverdueBatch(P, now, bound);
    SoleRowClaimed(P, Run(P, Initial(now), before), 2, "b", id);
    before := GoOn(P, now, bound, before, ByWorker(2, Claim("b", 1, {}, [id], true)));
    var s := Run(P, Initial(now), before);
    assert s.workers[2].events[0].id == id;

    stale := ByWorker(1, MarkRow(true));
    LateMarkClears(P, s, 1, 2);
    RunStep(P, Initial(now), before, stale);
  }

  /** Workers exclude each other in every run exactly when they keep their batches no longer than the lease. */
  lemma LeaseSafetyIff(P: Params, now: Time, bound: Time)
    requires !P.releases && P.verdict(Place(0, 0)).Route?
    ensures bound <= LEASE <==>
      forall actions :: TimelyRun(P, now, bound, actions) ==> Exclusive(Run(P, Initial(now), actions))
  {
    if bound <= LEASE {
      forall actions | TimelyRun(P, now, bound, actions) ensures Exclusive(Run(P, Initial(now), actions)) {
        LeasesAlways(P, now, bound, actions);
      }
    } else {
      var before, stale := OverrunLease(P, now, bound);
      var s := Run(P, Initial(now), before);
      assert !Exclusive(s) by {
        assert Holds(s.workers[1], P.verdict(Place(0, 0)).id);
      }
    }
  }
}
