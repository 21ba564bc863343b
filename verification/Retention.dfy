/** The seven-day delete, run at any moment: it takes only rows published long ago, so a second row for an id comes late. */
module Retention {
  import opened Prelude
  import Outbox
  import opened Courier
  import IntakeSafety
  import OutboxSafety

  lemma ClockAdvances(P: Params, s: State, a: Action)
    ensures s.now <= Step(P, s, a).now
  {
    match a
    case ByConsumer(c, act) => OutboxSafety.ConsumerLeavesDelivery(P, s, c, act);
    case ByWorld(e) =>
    case ByWorker(w, act) => IntakeSafety.WorkerLeavesIntake(P, s, w, act);
  }

  lemma {:induction false} ClockNeverGoesBack(P: Params, s: State, actions: seq<Action>)
    ensures s.now <= Run(P, s, actions).now
    decreases |actions|
  {
    if actions != [] {
      ClockNeverGoesBack(P, s, actions[..|actions| - 1]);
      ClockAdvances(P, Run(P, s, actions[..|actions| - 1]), actions[|actions| - 1]);
    }
  }

  lemma WorldTakesOldRows(P: Params, s: State, e: Event, id: Uuid)
    requires id in s.table && id !in WorldStep(P, s, e).table
    ensures Outbox.PastRetention(s.table[id], s.now)
  {
  }

  lemma WorkerKeepsRow(P: Params, s: State, w: nat, act: WorkerAct, id: Uuid)
    requires id in s.table
    ensures id in WorkerStep(P, s, w, act).table
  {
    OutboxSafety.WorkerContents(P, s, w, act);
    assert id in Outbox.Contents(s.table);
  }

  /** The only step that removes a row is the retention delete, and it finds the row published and old. */
  lemma OnlyOldRowsVanish(P: Params, s: State, a: Action, id: Uuid)
    requires id in s.table && id !in Step(P, s, a).table
    ensures Outbox.PastRetention(s.table[id], s.now)
  {
    match a
    case ByConsumer(c, act) => OutboxSafety.ConsumerLeavesDelivery(P, s, c, act);
    case ByWorld(e) => WorldTakesOldRows(P, s, e, id);
    case ByWorker(w, act) => WorkerKeepsRow(P, s, w, act, id);
  }

  lemma {:induction false} GoneWasPublished(P: Params, s: State, actions: seq<Action>, id: Uuid) returns (m: nat)
    requires id in s.table && id !in Run(P, s, actions).table
    ensures m < |actions|
    ensures var then_ := Run(P, s, actions[..m]);
      id in then_.table && Outbox.PastRetention(then_.table[id], then_.now)
    ensures Run(P, s, actions[..m]).now <= Run(P, s, actions).now
    decreases |actions|
  {
    var n := |actions| - 1;
    var init := actions[..n];
    ClockAdvances(P, Run(P, s, init), actions[n]);
    if id in Run(P, s, init).table {
      OnlyOldRowsVanish(P, Run(P, s, init), actions[n], id);
      m := n;
    } else {
      m := GoneWasPublished(P, s, init, id);
      assert init[..m] == actions[..m];
    }
  }

  /** Step i of the run creates a row for id. */
  predicate Creates(P: Params, now: Time, actions: seq<Action>, i: nat, id: Uuid)
    requires i < |actions|
  {
    id !in Run(P, Initial(now), actions[..i]).table && id in Run(P, Initial(now), actions[..i + 1]).table
  }

  /** Between two rows for one id lie the publication of the first and more than seven days. */
  lemma SecondRowComesLate(P: Params, now: Time, actions: seq<Action>, i: nat, j: nat, id: Uuid) returns (m: nat)
    requires i < j < |actions| && Creates(P, now, actions, i, id) && Creates(P, now, actions, j, id)
    ensures i < m < j
    ensures var then_ := Run(P, Initial(now), actions[..m]);
      && id in then_.table && then_.table[id].publishedAt.Some?
      && then_.table[id].publishedAt.value + Outbox.RETENTION < Run(P, Initial(now), actions[..j]).now
  {
    var s := Run(P, Initial(now), actions[..i + 1]);
    var rest := actions[i + 1..j];
    assert actions[..j] == actions[..i + 1] + rest;
    RunConcat(P, Initial(now), actions[..i + 1], rest);
    var k := GoneWasPublished(P, s, rest, id);
    m := i + 1 + k;
    assert actions[..m] == actions[..i + 1] + rest[..k];
    RunConcat(P, Initial(now), actions[..i + 1], rest[..k]);
  }
}
