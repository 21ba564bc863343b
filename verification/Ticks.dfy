/**
 One worker's tick (internal/app/worker.go): claim up to a hundred rows, publish and mark each,
 all at one instant. A tick is what the protocol's own claim, send and mark steps add up to.
 */
module Ticks {
  import opened Prelude
  import opened Outbox
  import Kafka
  import opened Courier

  const BATCH: nat := 100
  const PUBLISH_INTERVAL: Time := SECOND

  /** How a claimed row fares: published and marked, refused and marked, or left without a mark. */
  datatype Fate = Published | Refused | Unmarked

  /** One tick: which rows it claimed and how they fared; a failed claim takes none. */
  datatype WorkerTick = WorkerTick(claimed: set<Uuid>, fate: Uuid -> Fate, failed: bool)

  function Settle(row: Row, fate: Fate, now: Time): Row {
    match fate
    case Published => row.(publishedAt := Some(now), lockedAt := None, lockedBy := None, lastError := None)
    case Refused =>
      if row.attempts >= MAX_INT32 then row
      else row.(attempts := row.attempts + 1, nextAttemptAt := Some(now + Backoff(row.attempts)),
                lastError := Some("refused"), lockedAt := None, lockedBy := None)
    case Unmarked => row
  }

  /** The table after the first rows of a claim have been seen to. */
  function SettledSoFar(t: Table, claimed: set<Uuid>, done: set<Uuid>, fate: Uuid -> Fate, now: Time, worker: string): Table {
    map id | id in t ::
      if id in done then Settle(Locked(t[id], now, worker), fate(id), now)
      else if id in claimed then Locked(t[id], now, worker)
      else t[id]
  }

  function AfterTick(t: Table, tick: WorkerTick, now: Time, worker: string): Table {
    SettledSoFar(t, tick.claimed, tick.claimed, tick.fate, now, worker)
  }

  predicate IsTick(t: Table, tick: WorkerTick, now: Time) {
    if tick.failed then tick.claimed == {} else IsSortedPrefix(t, now, BATCH, {}, tick.claimed)
  }

  // The same tick as steps of the protocol.

  /** How a worker goes about a tick: the order in which it got its rows, and how each fares. */
  datatype Plan = Plan(w: nat, name: string, order: seq<Uuid>, fate: Uuid -> Fate)

  function FateActions(w: nat, fate: Fate, now: Time): seq<Action> {
    match fate
    case Published => [ByWorker(w, Send(Done, now, "")), ByWorker(w, MarkRow(true))]
    case Refused => [ByWorker(w, Send(Failed, now, "refused")), ByWorker(w, MarkRow(true))]
    case Unmarked => [ByWorker(w, Send(Done, now, "")), ByWorker(w, MarkRow(false))]
  }

  function PlanClaim(plan: Plan): Action {
    ByWorker(plan.w, Claim(plan.name, BATCH, {}, plan.order, true))
  }

  /** The claim and the first n events. */
  function TickActions(plan: Plan, n: nat, now: Time): seq<Action>
    requires n <= |plan.order|
  {
    if n == 0 then [PlanClaim(plan)]
    else TickActions(plan, n - 1, now) + FateActions(plan.w, plan.fate(plan.order[n - 1]), now)
  }

  function FateCopies(P: Params, id: Uuid, content: Content, fate: Fate): seq<Kafka.Message> {
    if fate.Refused? then [] else [P.render(id, content)]
  }

  predicate Claimable(t: Table, order: seq<Uuid>) {
    forall i :: 0 <= i < |order| ==> order[i] in t && t[order[i]].publishedAt.None?
  }

  /** What the first n events put into the routed topics. */
  function TickCopies(P: Params, t: Table, plan: Plan, n: nat): seq<Kafka.Message>
    requires n <= |plan.order| && Claimable(t, plan.order)
  {
    if n == 0 then []
    else
      var id := plan.order[n - 1];
      TickCopies(P, t, plan, n - 1) + FateCopies(P, id, t[id].content, plan.fate(id))
  }

  /** A worker that has dealt with the first n of its events. */
  function AfterEvents(name: string, now: Time, events: seq<Claimed>, n: nat): Worker {
    if n >= |events| then Idle else Busy(name, now, events, n, Sending)
  }

  lemma FateSends(P: Params, s: State, w: nat, fate: Fate)
    requires HasEvent(WorkerOf(s, w)) && WorkerOf(s, w).pc.Sending?
    ensures var s' := Step(P, s, FateActions(w, fate, s.now)[0]);
      var worker := WorkerOf(s, w);
      var e := Current(worker);
      && s'.table == s.table && s'.now == s.now
      && s'.routed == s.routed + FateCopies(P, e.id, e.row.content, fate)
      && WorkerOf(s', w) == worker.(pc := if fate.Refused? then MarkingFailed(s.now + Backoff(e.row.attempts), "refused") else MarkingPublished)
  {
  }

  lemma FateMarks(P: Params, s: State, w: nat, fate: Fate)
    requires HasEvent(WorkerOf(s, w)) && Pending(s.table, Current(WorkerOf(s, w)).id)
    requires WorkerOf(s, w).pc ==
      if fate.Refused? then MarkingFailed(s.now + Backoff(s.table[Current(WorkerOf(s, w)).id].attempts), "refused") else MarkingPublished
    ensures var s' := Step(P, s, FateActions(w, fate, s.now)[1]);
      var id := Current(WorkerOf(s, w)).id;
      && s'.table == s.table[id := Settle(s.table[id], fate, s.now)]
      && s'.routed == s.routed && WorkerOf(s', w) == Advance(WorkerOf(s, w)) && s'.now == s.now
  {
    var id := Current(WorkerOf(s, w)).id;
    assert s.table[id := s.table[id]] == s.table;
  }

  /** Sending and marking one event settles its row, publishes it unless refused, and does nothing else. */
  lemma OneEventSettles(P: Params, s: State, w: nat, fate: Fate)
    requires HasEvent(WorkerOf(s, w)) && WorkerOf(s, w).pc.Sending?
    requires var e := Current(WorkerOf(s, w)); e.id in s.table && e.row == s.table[e.id] && e.row.publishedAt.None?
    ensures var s' := Run(P, s, FateActions(w, fate, s.now));
      var e := Current(WorkerOf(s, w));
      && s'.table == s.table[e.id := Settle(s.table[e.id], fate, s.now)]
      && s'.routed == s.routed + FateCopies(P, e.id, e.row.content, fate)
      && WorkerOf(s', w) == Advance(WorkerOf(s, w)) && s'.now == s.now
  {
    var acts := FateActions(w, fate, s.now);
    TwoSteps(P, s, acts[0], acts[1]);
    assert acts == [acts[0], acts[1]];
    FateSends(P, s, w, fate);
    FateMarks(P, Step(P, s, acts[0]), w, fate);
  }

  lemma SettleOneMore(t: Table, order: seq<Uuid>, n: nat, fate: Uuid -> Fate, now: Time, worker: string)
    requires Distinct(order) && 0 < n <= |order| && order[n - 1] in t
    ensures var before := SettledSoFar(t, Elements(order), Elements(order[..n - 1]), fate, now, worker);
      && before[order[n - 1]] == Locked(t[order[n - 1]], now, worker)
      && SettledSoFar(t, Elements(order), Elements(order[..n]), fate, now, worker)
           == before[order[n - 1] := Settle(before[order[n - 1]], fate(order[n - 1]), now)]
  {
    var id := order[n - 1];
    assert id !in order[..n - 1] && id in Elements(order);
    assert Elements(order[..n]) == Elements(order[..n - 1]) + {id} by {
      assert order[..n] == order[..n - 1] + [id];
    }
  }

  /** The protocol after the claim and the first n events. */
  ghost predicate Reached(P: Params, s0: State, s: State, plan: Plan, n: nat)
    requires n <= |plan.order| && Claimable(s0.table, plan.order)
  {
    && s.table == TableAfter(s0.table, plan, s0.now, n)
    && s.routed == s0.routed + TickCopies(P, s0.table, plan, n)
    && ClaimedWorker(s0, s, plan, n)
    && s.now == s0.now
  }

  ghost predicate ClaimedWorker(s0: State, s: State, plan: Plan, n: nat)
    requires Claimable(s0.table, plan.order)
  {
    var table := Outbox.Claim(s0.table, Elements(plan.order), s0.now, plan.name);
    WorkerOf(s, plan.w) == AfterEvents(plan.name, s0.now, Snapshot(table, plan.order), n)
  }

  lemma ClaimedArePending(s: State, order: seq<Uuid>)
    requires IsClaim(s, BATCH, {}, order)
    ensures Claimable(s.table, order)
  {
    forall i | 0 <= i < |order| ensures order[i] in s.table && s.table[order[i]].publishedAt.None? {
      assert order[i] in Elements(order);
    }
  }

  lemma NothingSettledYet(t: Table, plan: Plan, now: Time)
    ensures TableAfter(t, plan, now, 0) == Outbox.Claim(t, Elements(plan.order), now, plan.name)
  {
  }

  lemma ClaimLocks(P: Params, s: State, plan: Plan)
    requires WorkerOf(s, plan.w).Idle? && IsClaim(s, BATCH, {}, plan.order) && Claimable(s.table, plan.order)
    ensures var s' := Step(P, s, PlanClaim(plan));
      && s'.table == Outbox.Claim(s.table, Elements(plan.order), s.now, plan.name)
      && s'.routed == s.routed && s'.now == s.now
  {
  }

  lemma ClaimHandsOver(P: Params, s: State, plan: Plan)
    requires WorkerOf(s, plan.w).Idle? && IsClaim(s, BATCH, {}, plan.order) && Claimable(s.table, plan.order)
    ensures ClaimedWorker(s, Step(P, s, PlanClaim(plan)), plan, 0)
  {
  }

  lemma ClaimStarts(P: Params, s: State, plan: Plan)
    requires WorkerOf(s, plan.w).Idle? && IsClaim(s, BATCH, {}, plan.order) && Claimable(s.table, plan.order)
    ensures Reached(P, s, Step(P, s, PlanClaim(plan)), plan, 0)
  {
    ClaimLocks(P, s, plan);
    ClaimHandsOver(P, s, plan);
    NothingSettledYet(s.table, plan, s.now);
    assert s.routed + TickCopies(P, s.table, plan, 0) == s.routed;
  }

  /** What the worker has in hand at event n is the row as the table has it. */
  lemma EventInHand(s0: State, s: State, plan: Plan, n: nat)
    requires n < |plan.order| && Distinct(plan.order) && Claimable(s0.table, plan.order) && ClaimedWorker(s0, s, plan, n)
    ensures var worker := WorkerOf(s, plan.w);
      && HasEvent(worker) && worker.pc.Sending?
      && Current(worker) == Claimed(plan.order[n], Locked(s0.table[plan.order[n]], s0.now, plan.name))
    ensures Advance(WorkerOf(s, plan.w)) ==
      AfterEvents(plan.name, s0.now, Snapshot(Outbox.Claim(s0.table, Elements(plan.order), s0.now, plan.name), plan.order), n + 1)
  {
    assert plan.order[n] in Elements(plan.order);
  }

  /** The table after the first n events. */
  function TableAfter(t: Table, plan: Plan, now: Time, n: nat): Table
    requires n <= |plan.order|
  {
    SettledSoFar(t, Elements(plan.order), Elements(plan.order[..n]), plan.fate, now, plan.name)
  }

  lemma TableAdvances(t: Table, plan: Plan, now: Time, n: nat)
    requires n < |plan.order| && Distinct(plan.order) && Claimable(t, plan.order)
    ensures var id := plan.order[n];
      var before := TableAfter(t, plan, now, n);
      && id in before && before[id] == Locked(t[id], now, plan.name)
      && TableAfter(t, plan, now, n + 1) == before[id := Settle(before[id], plan.fate(id), now)]
  {
    SettleOneMore(t, plan.order, n + 1, plan.fate, now, plan.name);
  }

  lemma TickAdvances(P: Params, s0: State, s: State, plan: Plan, n: nat)
    requires n < |plan.order| && Distinct(plan.order) && Claimable(s0.table, plan.order) && Reached(P, s0, s, plan, n)
    ensures Reached(P, s0, Run(P, s, FateActions(plan.w, plan.fate(plan.order[n]), s0.now)), plan, n + 1)
  {
    TableAdvances(s0.table, plan, s0.now, n);
    EventInHand(s0, s, plan, n);
    OneEventSettles(P, s, plan.w, plan.fate(plan.order[n]));
  }

  /** The claim and the first n events lead where they should. */
  ghost predicate RunsTo(P: Params, s: State, plan: Plan, n: nat)
    requires n <= |plan.order| && Claimable(s.table, plan.order)
  {
    Reached(P, s, Run(P, s, TickActions(plan, n, s.now)), plan, n)
  }

  lemma ClaimRunsTo(P: Params, s: State, plan: Plan)
    requires WorkerOf(s, plan.w).Idle? && IsClaim(s, BATCH, {}, plan.order) && Claimable(s.table, plan.order)
    ensures RunsTo(P, s, plan, 0)
  {
    ClaimStarts(P, s, plan);
    SingleStep(P, s, PlanClaim(plan));
  }

  lemma OneMoreEvent(P: Params, s: State, plan: Plan, n: nat)
    requires n < |plan.order| && Distinct(plan.order) && Claimable(s.table, plan.order) && RunsTo(P, s, plan, n)
    ensures RunsTo(P, s, plan, n + 1)
  {
    var acts := TickActions(plan, n, s.now);
    TickAdvances(P, s, Run(P, s, acts), plan, n);
    RunConcat(P, s, acts, FateActions(plan.w, plan.fate(plan.order[n]), s.now));
  }

  /** The tick is a run: claim the rows in some order, then publish and mark them one by one. */
  lemma {:induction false} TickIsARun(P: Params, s: State, plan: Plan, n: nat)
    requires WorkerOf(s, plan.w).Idle? && IsClaim(s, BATCH, {}, plan.order) && Claimable(s.table, plan.order) && n <= |plan.order|
    ensures RunsTo(P, s, plan, n)
    decreases n
  {
    if n == 0 {
      ClaimRunsTo(P, s, plan);
    } else {
      TickIsARun(P, s, plan, n - 1);
      OneMoreEvent(P, s, plan, n - 1);
    }
  }

  /**
   A whole tick leaves the table that AfterTick says, adds to the routed topics one record for each claimed row that was
   not refused, and leaves the worker ready for the next.
   */
  lemma WholeTick(P: Params, s: State, plan: Plan)
    requires WorkerOf(s, plan.w).Idle? && IsClaim(s, BATCH, {}, plan.order)
    ensures Claimable(s.table, plan.order)
    ensures var s' := Run(P, s, TickActions(plan, |plan.order|, s.now));
      && s'.table == AfterTick(s.table, WorkerTick(Elements(plan.order), plan.fate, false), s.now, plan.name)
      && s'.routed == s.routed + TickCopies(P, s.table, plan, |plan.order|)
      && WorkerOf(s', plan.w).Idle? && s'.now == s.now
  {
    ClaimedArePending(s, plan.order);
    TickIsARun(P, s, plan, |plan.order|);
    assert plan.order[..|plan.order|] == plan.order;
  }

  /** The worker's own steps at one instant, by its clock. */
  predicate OwnStep(w: nat, now: Time, a: Action) {
    a.ByWorker? && a.worker == w && !a.move.CrashWorker? && (a.move.Send? ==> a.move.clock == now)
  }

  lemma {:induction false} TickStepsAreOwn(plan: Plan, n: nat, now: Time)
    requires n <= |plan.order|
    ensures forall a :: a in TickActions(plan, n, now) ==> OwnStep(plan.w, now, a)
  {
    if n > 0 {
      TickStepsAreOwn(plan, n - 1, now);
    }
  }
}
