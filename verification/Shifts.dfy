/**
 One worker ticking once a second while others do what they like, as a run: the outbox drains from every reachable state,
 if the shifts outlast those that were disturbed.
 */
module Shifts {
  import opened Prelude
  import opened Outbox
  import opened Courier
  import opened Draining
  import Environment
  import IntakeSafety
  import Ledger
  import OutboxSafety
  import Spacing
  import opened Ticks
  import opened Waits

  /** What others do before the worker's tick, and how the tick goes; no plan if its claim fails. */
  datatype Shift = Shift(others: seq<Action>, plan: Option<Plan>)

  function PlanActions(plan: Option<Plan>, now: Time): seq<Action> {
    if plan.Some? then TickActions(plan.value, |plan.value.order|, now) else []
  }

  function ShiftActions(shift: Shift, now: Time): seq<Action> {
    shift.others + (PlanActions(shift.plan, now) + [ByWorld(Tick(PUBLISH_INTERVAL))])
  }

  /** Shift after shift, the first at `now`. */
  function AllActions(shifts: seq<Shift>, now: Time): seq<Action>
    decreases |shifts|
  {
    if shifts == [] then [] else ShiftActions(shifts[0], now) + AllActions(shifts[1..], now + PUBLISH_INTERVAL)
  }

  /** What others may do at an instant: anything but bring in rows. */
  predicate Bystander(w: nat, now: Time, a: Action) {
    match a
    case ByConsumer(_, act) => !act.Insert?
    case ByWorker(v, act) => v != w && (act.Send? ==> act.clock == now)
    case ByWorld(e) => !e.Tick?
  }

  /** The shift can be done: the others are bystanders, and the tick claims what there is to claim. */
  predicate CanDo(P: Params, s: State, w: nat, name: string, shift: Shift) {
    && (forall a :: a in shift.others ==> Bystander(w, s.now, a))
    && (shift.plan.Some? ==>
          var plan := shift.plan.value;
          plan.w == w && plan.name == name && IsClaim(Run(P, s, shift.others), BATCH, {}, plan.order))
  }

  predicate CanWork(P: Params, s: State, w: nat, name: string, shifts: seq<Shift>)
    decreases |shifts|
  {
    shifts == [] ||
    (CanDo(P, s, w, name, shifts[0]) && CanWork(P, Run(P, s, ShiftActions(shifts[0], s.now)), w, name, shifts[1..]))
  }

  /** Nobody else does anything, the claim works, and every claimed row is published and marked. */
  predicate Undisturbed(shift: Shift) {
    && shift.others == [] && shift.plan.Some?
    && forall i :: 0 <= i < |shift.plan.value.order| ==> shift.plan.value.fate(shift.plan.value.order[i]) == Published
  }

  function Disturbances(shifts: seq<Shift>): nat {
    if shifts == [] then 0 else (if Undisturbed(shifts[0]) then 0 else 1) + Disturbances(shifts[1..])
  }

  // The others.

  lemma FetchingKeepsTable(P: Params, s: State, c: nat, act: ConsumerAct)
    requires act.CrashConsumer? || act.Assign? || act.Poll? || act.Begin?
    ensures ConsumerStep(P, s, c, act).table == s.table
  {
  }

  lemma EndingKeepsTable(P: Params, s: State, c: nat, act: ConsumerAct)
    requires act.Check? || act.Mark? || act.BuryRecord? || act.Cancel? || act.Commit? || act.Flush?
    ensures ConsumerStep(P, s, c, act).table == s.table
  {
    match act
    case Check(answered) =>
    case Mark(written) =>
    case _ =>
  }

  lemma WorkerKeepsPending(P: Params, s: State, v: nat, act: WorkerAct)
    ensures PendingIds(WorkerStep(P, s, v, act).table) <= PendingIds(s.table)
  {
    var t' := WorkerStep(P, s, v, act).table;
    OutboxSafety.WorkerContents(P, s, v, act);
    Ledger.StepAges(P, s, ByWorker(v, act));
    forall id | id in PendingIds(t') ensures id in PendingIds(s.table) {
      assert id in Contents(t');
      assert id in Contents(s.table);
      assert Ledger.RowAges(s.table[id], t'[id]);
    }
  }

  /** What a bystander leaves: the same time, the worker as it was, no more pending rows, no wait too long. */
  ghost predicate LeavesBe(s: State, s': State, w: nat) {
    && s'.now == s.now && WorkerOf(s', w) == WorkerOf(s, w)
    && PendingIds(s'.table) <= PendingIds(s.table) && WaitInv(s')
  }

  lemma BystanderTime(P: Params, s: State, w: nat, a: Action)
    requires Bystander(w, s.now, a)
    ensures Step(P, s, a).now == s.now
  {
    match a
    case ByConsumer(c, act) => OutboxSafety.ConsumerLeavesDelivery(P, s, c, act);
    case ByWorker(v, act) => IntakeSafety.WorkerLeavesIntake(P, s, v, act);
    case ByWorld(e) =>
  }

  lemma BystandingConsumer(P: Params, s: State, c: nat, act: ConsumerAct)
    requires !act.Insert?
    ensures ConsumerStep(P, s, c, act).table == s.table
  {
    if act.CrashConsumer? || act.Assign? || act.Poll? || act.Begin? {
      FetchingKeepsTable(P, s, c, act);
    } else {
      EndingKeepsTable(P, s, c, act);
    }
  }

  lemma BystandingWorld(P: Params, s: State, e: Event)
    ensures PendingIds(WorldStep(P, s, e).table) <= PendingIds(s.table)
  {
  }

  lemma BystanderPending(P: Params, s: State, w: nat, a: Action)
    requires Bystander(w, s.now, a)
    ensures PendingIds(Step(P, s, a).table) <= PendingIds(s.table)
  {
    match a
    case ByConsumer(c, act) => BystandingConsumer(P, s, c, act);
    case ByWorker(v, act) => WorkerKeepsPending(P, s, v, act);
    case ByWorld(e) => BystandingWorld(P, s, e);
  }

  lemma BystanderLeavesBe(P: Params, s: State, w: nat, a: Action)
    requires WaitInv(s) && Bystander(w, s.now, a)
    ensures LeavesBe(s, Step(P, s, a), w)
  {
    BystanderTime(P, s, w, a);
    BystanderPending(P, s, w, a);
    Environment.OtherLeavesTask(P, Environment.Publishing(w), s, a);
    StepWaits(P, s, a);
  }

  lemma {:induction false} BystandersLeaveBe(P: Params, s: State, w: nat, others: seq<Action>)
    requires WaitInv(s) && forall a :: a in others ==> Bystander(w, s.now, a)
    ensures LeavesBe(s, Run(P, s, others), w)
    decreases |others|
  {
    if others != [] {
      var n := |others| - 1;
      BystandersLeaveBe(P, s, w, others[..n]);
      BystanderLeavesBe(P, Run(P, s, others[..n]), w, others[n]);
    }
  }

  // The tick.

  /** What happens at one instant keeps every wait short. */
  lemma {:induction false} InstantWaits(P: Params, s: State, w: nat, acts: seq<Action>)
    requires WaitInv(s) && forall a :: a in acts ==> OwnStep(w, s.now, a)
    ensures WaitInv(Run(P, s, acts)) && Run(P, s, acts).now == s.now
    decreases |acts|
  {
    if acts != [] {
      var n := |acts| - 1;
      InstantWaits(P, s, w, acts[..n]);
      var mid := Run(P, s, acts[..n]);
      assert OwnStep(w, s.now, acts[n]);
      StepWaits(P, mid, acts[n]);
      IntakeSafety.WorkerLeavesIntake(P, mid, w, acts[n].move);
    }
  }

  /** The tick as the table sees it. */
  function TickOf(plan: Option<Plan>): WorkerTick {
    if plan.Some? then WorkerTick(Elements(plan.value.order), plan.value.fate, false)
    else WorkerTick({}, (id: Uuid) => Unmarked, true)
  }

  lemma PlanRuns(P: Params, s: State, w: nat, name: string, plan: Option<Plan>)
    requires WaitInv(s) && WorkerOf(s, w).Idle?
    requires plan.Some? ==> plan.value.w == w && plan.value.name == name && IsClaim(s, BATCH, {}, plan.value.order)
    ensures IsTick(s.table, TickOf(plan), s.now)
    ensures var s' := Run(P, s, PlanActions(plan, s.now));
      && s'.table == AfterTick(s.table, TickOf(plan), s.now, name)
      && WorkerOf(s', w).Idle? && s'.now == s.now && WaitInv(s')
  {
    if plan.Some? {
      WholeTick(P, s, plan.value);
      TickStepsAreOwn(plan.value, |plan.value.order|, s.now);
      InstantWaits(P, s, w, PlanActions(plan, s.now));
    } else {
      assert AfterTick(s.table, TickOf(plan), s.now, name) == s.table;
    }
  }

  // The shift.

  /** The shift as the table sees it. */
  function TurnOf(P: Params, s: State, shift: Shift): Turn {
    Turn(if shift.others == [] then None else Some(Run(P, s, shift.others).table), TickOf(shift.plan))
  }

  /** Others, the tick, the wait: where a shift leads. */
  lemma ShiftLeads(P: Params, s: State, shift: Shift)
    ensures var mid := Run(P, s, shift.others);
      Run(P, s, ShiftActions(shift, s.now)) == Step(P, Run(P, mid, PlanActions(shift.plan, s.now)), ByWorld(Tick(PUBLISH_INTERVAL)))
  {
    var mid, acts := Run(P, s, shift.others), PlanActions(shift.plan, s.now);
    RunConcat(P, s, shift.others, acts + [ByWorld(Tick(PUBLISH_INTERVAL))]);
    RunStep(P, mid, acts, ByWorld(Tick(PUBLISH_INTERVAL)));
  }

  ghost predicate Idling(s: State, w: nat) {
    WaitInv(s) && WorkerOf(s, w).Idle?
  }

  lemma ShiftRuns(P: Params, s: State, w: nat, name: string, shift: Shift)
    requires Idling(s, w) && CanDo(P, s, w, name, shift)
    ensures var turn, s' := TurnOf(P, s, shift), Run(P, s, ShiftActions(shift, s.now));
      && Meanwhile(s.table, turn, s.now) && IsTick(Found(s.table, turn), turn.tick, s.now)
      && s'.table == AfterTurn(s.table, turn, s.now, name) && s'.now == s.now + PUBLISH_INTERVAL && Idling(s', w)
  {
    var mid := Run(P, s, shift.others);
    BystandersLeaveBe(P, s, w, shift.others);
    PlanRuns(P, mid, w, name, shift.plan);
    ShiftLeads(P, s, shift);
    WorldWaits(P, Run(P, mid, PlanActions(shift.plan, s.now)), Tick(PUBLISH_INTERVAL));
  }

  function Turns(P: Params, s: State, shifts: seq<Shift>): seq<Turn>
    decreases |shifts|
  {
    if shifts == [] then [] else [TurnOf(P, s, shifts[0])] + Turns(P, Run(P, s, ShiftActions(shifts[0], s.now)), shifts[1..])
  }

  lemma DisturbedIsFaulty(P: Params, s: State, shift: Shift)
    ensures Faultless(TurnOf(P, s, shift)) <==> Undisturbed(shift)
  {
    if shift.plan.Some? {
      var plan := shift.plan.value;
      assert forall i :: 0 <= i < |plan.order| ==> plan.order[i] in Elements(plan.order);
    }
  }

  /** The turns are work on the table, one for each shift and faulty where it is disturbed. */
  ghost predicate TurnsFit(t: Table, now: Time, name: string, shifts: seq<Shift>, turns: seq<Turn>) {
    |turns| == |shifts| && IsWork(t, now, turns, name) && Faults(turns) == Disturbances(shifts)
  }

  lemma TurnsJoin(t: Table, now: Time, name: string, shifts: seq<Shift>, turn: Turn, rest: seq<Turn>)
    requires shifts != [] && Meanwhile(t, turn, now) && IsTick(Found(t, turn), turn.tick, now)
    requires Faultless(turn) <==> Undisturbed(shifts[0])
    requires TurnsFit(AfterTurn(t, turn, now, name), now + PUBLISH_INTERVAL, name, shifts[1..], rest)
    ensures TurnsFit(t, now, name, shifts, [turn] + rest)
    ensures Final(t, now, [turn] + rest, name) == Final(AfterTurn(t, turn, now, name), now + PUBLISH_INTERVAL, rest, name)
  {
    TurnBefore(t, now, turn, rest, name);
  }

  /** The actions lead to a state with this table. */
  ghost predicate LeadsTo(P: Params, s: State, acts: seq<Action>, t: Table) {
    Run(P, s, acts).table == t
  }

  lemma RunsJoin(P: Params, s: State, shifts: seq<Shift>, t: Table)
    requires shifts != []
    requires var mid := Run(P, s, ShiftActions(shifts[0], s.now));
      mid.now == s.now + PUBLISH_INTERVAL && LeadsTo(P, mid, AllActions(shifts[1..], mid.now), t)
    ensures LeadsTo(P, s, AllActions(shifts, s.now), t)
  {
    RunConcat(P, s, ShiftActions(shifts[0], s.now), AllActions(shifts[1..], s.now + PUBLISH_INTERVAL));
  }

  /** The shifts are a run, and what they do to the table is what their turns do. */
  lemma {:induction false} ShiftsRun(P: Params, s: State, w: nat, name: string, shifts: seq<Shift>)
    requires Idling(s, w) && CanWork(P, s, w, name, shifts)
    ensures TurnsFit(s.table, s.now, name, shifts, Turns(P, s, shifts))
    ensures LeadsTo(P, s, AllActions(shifts, s.now), Final(s.table, s.now, Turns(P, s, shifts), name))
    decreases |shifts|
  {
    if shifts != [] {
      var mid, turn := Run(P, s, ShiftActions(shifts[0], s.now)), TurnOf(P, s, shifts[0]);
      var rest := Turns(P, mid, shifts[1..]);
      ShiftRuns(P, s, w, name, shifts[0]);
      DisturbedIsFaulty(P, s, shifts[0]);
      ShiftsRun(P, mid, w, name, shifts[1..]);
      TurnsJoin(s.table, s.now, name, shifts, turn, rest);
      RunsJoin(P, s, shifts, Final(mid.table, mid.now, rest, name));
    }
  }

  /**
   From whatever state a run has led to: every run that goes on with shifts of one worker a second apart, others doing what
   they like in between but bring in rows, ends with nothing pending, if the shifts are enough for the disturbed ones.
   */
  lemma EveryOutboxDrains(P: Params, start: Time, actions: seq<Action>, w: nat, name: string, shifts: seq<Shift>)
    requires Spacing.OneClock(P, start, actions) && WorkerOf(Run(P, Initial(start), actions), w).Idle?
    requires var s := Run(P, Initial(start), actions);
      && CanWork(P, s, w, name, shifts)
      && |shifts| >= Enough(Disturbances(shifts), |PendingIds(s.table)|)
    ensures var s := Run(P, Initial(start), actions);
      PendingIds(Run(P, Initial(start), actions + AllActions(shifts, s.now)).table) == {}
  {
    WaitsAlways(P, start, actions);
    var s := Run(P, Initial(start), actions);
    ShiftsRun(P, s, w, name, shifts);
    DrainsDespiteFaults(s.table, s.now, Turns(P, s, shifts), name, Disturbances(shifts));
    RunConcat(P, Initial(start), actions, AllActions(shifts, s.now));
  }

  // There is always a way to go on.

  lemma {:induction false} Listed(ids: set<Uuid>) returns (order: seq<Uuid>)
    ensures Distinct(order) && Elements(order) == ids
  {
    if ids == {} {
      order := [];
    } else {
      var x :| x in ids;
      var rest := Listed(ids - {x});
      order := rest + [x];
    }
  }

  lemma ShiftExists(P: Params, s: State, w: nat, name: string) returns (shift: Shift)
    ensures CanDo(P, s, w, name, shift) && Undisturbed(shift)
  {
    var claimed := PrefixExists(s.table, s.now, BATCH, {});
    var order := Listed(claimed);
    shift := Shift([], Some(Plan(w, name, order, (id: Uuid) => Published)));
    assert Run(P, s, shift.others) == s;
  }

  lemma {:induction false} WorkExists(P: Params, s: State, w: nat, name: string, n: nat) returns (shifts: seq<Shift>)
    ensures |shifts| == n && CanWork(P, s, w, name, shifts) && Disturbances(shifts) == 0
    ensures forall shift :: shift in shifts ==> Undisturbed(shift) && shift.plan.value.w == w
    decreases n
  {
    if n == 0 {
      shifts := [];
    } else {
      var first := ShiftExists(P, s, w, name);
      var rest := WorkExists(P, Run(P, s, ShiftActions(first, s.now)), w, name, n - 1);
      shifts := [first] + rest;
      assert shifts[1..] == rest;
    }
  }

  /** Time passes, and one worker works. */
  predicate OnlyWorks(w: nat, a: Action) {
    (a.ByWorker? && a.worker == w && !a.move.CrashWorker?) || (a.ByWorld? && a.event.Tick?)
  }

  lemma {:induction false} AloneAtWork(w: nat, shifts: seq<Shift>, now: Time)
    requires forall shift :: shift in shifts ==> Undisturbed(shift) && shift.plan.value.w == w
    ensures forall a :: a in AllActions(shifts, now) ==> OnlyWorks(w, a)
    decreases |shifts|
  {
    if shifts != [] {
      var plan := shifts[0].plan.value;
      TickStepsAreOwn(plan, |plan.order|, now);
      AloneAtWork(w, shifts[1..], now + PUBLISH_INTERVAL);
    }
  }

  /** However badly a run has gone, one idle worker by itself, ticking long enough, can empty the outbox. */
  lemma CanAlwaysDrain(P: Params, start: Time, actions: seq<Action>, w: nat, name: string) returns (more: seq<Action>)
    requires Spacing.OneClock(P, start, actions) && WorkerOf(Run(P, Initial(start), actions), w).Idle?
    ensures forall a :: a in more ==> OnlyWorks(w, a)
    ensures PendingIds(Run(P, Initial(start), actions + more).table) == {}
  {
    var s := Run(P, Initial(start), actions);
    var shifts := WorkExists(P, s, w, name, Enough(0, |PendingIds(s.table)|));
    EveryOutboxDrains(P, start, actions, w, name, shifts);
    more := AllActions(shifts, s.now);
    AloneAtWork(w, shifts, s.now);
  }
}
