/**
 What the outbox and the routed topics keep over every run in which old rows are not deleted: the table is the one
 insert-if-absent builds, and every routed record is the one its row determines.
 */
module OutboxSafety {
  import opened Prelude
  import opened Outbox
  import Kafka
  import opened Courier
  import opened IntakeSafety

  // The simple specification: the first delivery of an id fixes its row.

  function FirstWins(ds: seq<Delivery>): map<Uuid, Content>
    decreases |ds|
  {
    if ds == [] then map[]
    else
      var book := FirstWins(ds[..|ds| - 1]);
      var d := ds[|ds| - 1];
      if d.id in book then book else book[d.id := d.content]
  }

  lemma {:induction false} FirstWinsIsFirst(ds: seq<Delivery>, id: Uuid)
    ensures id in FirstWins(ds) <==> exists i :: 0 <= i < |ds| && ds[i].id == id
    ensures id in FirstWins(ds) ==>
      exists i :: 0 <= i < |ds| && ds[i].id == id && ds[i].content == FirstWins(ds)[id]
               && forall j :: 0 <= j < i ==> ds[j].id != id
    decreases |ds|
  {
    if ds != [] {
      var n := |ds| - 1;
      var init := ds[..n];
      FirstWinsIsFirst(init, id);
      assert forall i :: 0 <= i < n ==> init[i] == ds[i];
      if id in FirstWins(init) {
        var i :| 0 <= i < n && init[i].id == id && init[i].content == FirstWins(init)[id] && forall j :: 0 <= j < i ==> init[j].id != id;
        assert ds[i].id == id && ds[i].content == FirstWins(ds)[id];
      } else if ds[n].id == id {
        assert ds[n].content == FirstWins(ds)[id] && forall j :: 0 <= j < n ==> ds[j].id != id;
      }
    }
  }

  lemma FirstWinsAppend(ds: seq<Delivery>, d: Delivery)
    ensures var book := FirstWins(ds);
      FirstWins(ds + [d]) == if d.id in book then book else book[d.id := d.content]
  {
    assert (ds + [d])[..|ds|] == ds;
  }

  /** The table holds exactly what insert-if-absent makes of the deliveries. */
  ghost predicate MatchesSimpleForm(s: State) {
    s.audit.deleted == map[] && Contents(s.table) == FirstWins(s.audit.deliveries)
  }

  lemma InsertContents(t: Table, id: Uuid, content: Content, createdAt: Time)
    ensures var book := Contents(t);
      Contents(Outbox.Insert(t, id, content, createdAt)) == if id in book then book else book[id := content]
  {
  }

  lemma CheckMatches(P: Params, s: State, c: nat, con: Consumer, answered: bool)
    requires IntakeInv(P, s) && MatchesSimpleForm(s)
    ensures MatchesSimpleForm(CheckStep(P, s, c, con, answered))
  {
    if HasRecord(con) {
      var place := con.batch[con.next];
      var v := P.verdict(place);
      if v.Route? && Live(s.redis, v.mark, s.now) {
        FirstWinsAppend(s.audit.deliveries, Delivery(place, v.id, v.content));
        assert v.id in Contents(s.table);
      }
    }
  }

  lemma InsertMatches(P: Params, s: State, c: nat, con: Consumer, outcome: Outcome, createdAt: Time)
    requires MatchesSimpleForm(s)
    ensures MatchesSimpleForm(InsertStep(P, s, c, con, outcome, createdAt))
  {
    if HasRecord(con) {
      var place := con.batch[con.next];
      var v := P.verdict(place);
      if v.Route? {
        FirstWinsAppend(s.audit.deliveries, Delivery(place, v.id, v.content));
        InsertContents(s.table, v.id, v.content, createdAt);
      }
    }
  }

  lemma FetchingMatches(P: Params, s: State, c: nat, act: ConsumerAct)
    requires MatchesSimpleForm(s) && (act.CrashConsumer? || act.Assign? || act.Poll? || act.Begin?)
    ensures MatchesSimpleForm(ConsumerStep(P, s, c, act))
  {
    match act
    case CrashConsumer =>
    case Assign(p) =>
    case Poll(batch) =>
    case Begin =>
  }

  lemma EndingMatches(P: Params, s: State, c: nat, act: ConsumerAct)
    requires MatchesSimpleForm(s) && (act.Mark? || act.BuryRecord? || act.Cancel? || act.Commit? || act.Flush?)
    ensures MatchesSimpleForm(ConsumerStep(P, s, c, act))
  {
    match act
    case Mark(written) =>
    case BuryRecord(outcome) =>
    case Cancel =>
    case Commit(outcome) =>
    case Flush(p, offset) =>
  }

  lemma ConsumerMatches(P: Params, s: State, c: nat, act: ConsumerAct)
    requires IntakeInv(P, s) && MatchesSimpleForm(s)
    ensures MatchesSimpleForm(ConsumerStep(P, s, c, act))
  {
    match act
    case Check(answered) => CheckMatches(P, s, c, ConsumerOf(s, c), answered);
    case Insert(outcome, createdAt) => InsertMatches(P, s, c, ConsumerOf(s, c), outcome, createdAt);
    case CrashConsumer => FetchingMatches(P, s, c, act);
    case Assign(p) => FetchingMatches(P, s, c, act);
    case Poll(batch) => FetchingMatches(P, s, c, act);
    case Begin => FetchingMatches(P, s, c, act);
    case _ => EndingMatches(P, s, c, act);
  }

  /** A worker step changes no insert-time column and no row set. */
  lemma WorkerContents(P: Params, s: State, w: nat, act: WorkerAct)
    ensures Contents(WorkerStep(P, s, w, act).table) == Contents(s.table)
  {
    match act
    case Claim(name, limit, skip, order, reported) =>
    case Send(outcome, clock, cause) =>
    case MarkRow(applied) => MarkRowContents(s, w, applied);
    case CrashWorker =>
  }

  lemma MarkRowContents(s: State, w: nat, applied: bool)
    ensures Contents(MarkRowStep(s, w, applied).table) == Contents(s.table)
  {
  }

  lemma WorldContents(P: Params, s: State, e: Event)
    requires !P.retention
    ensures Contents(WorldStep(P, s, e).table) == Contents(s.table)
  {
  }

  lemma WorkerMatches(P: Params, s: State, w: nat, act: WorkerAct)
    requires MatchesSimpleForm(s)
    ensures MatchesSimpleForm(WorkerStep(P, s, w, act))
  {
    WorkerContents(P, s, w, act);
    WorkerLeavesIntake(P, s, w, act);
  }

  lemma WorldMatches(P: Params, s: State, e: Event)
    requires MatchesSimpleForm(s) && !P.retention
    ensures MatchesSimpleForm(WorldStep(P, s, e))
  {
    WorldContents(P, s, e);
  }

  lemma StepMatches(P: Params, s: State, a: Action)
    requires IntakeInv(P, s) && MatchesSimpleForm(s) && !P.retention
    ensures MatchesSimpleForm(Step(P, s, a))
  {
    match a
    case ByConsumer(c, act) => ConsumerMatches(P, s, c, act);
    case ByWorker(w, act) => WorkerMatches(P, s, w, act);
    case ByWorld(e) => WorldMatches(P, s, e);
  }

  // Exactly-once effect.

  ghost predicate Extends(book: map<Uuid, Content>, book': map<Uuid, Content>) {
    forall id :: id in book ==> id in book' && book'[id] == book[id]
  }

  /** A routed record that its row determines. */
  ghost predicate Genuine(P: Params, book: map<Uuid, Content>, m: Kafka.Message) {
    exists id :: id in book && m == P.render(id, book[id])
  }

  /** A worker holds true copies of rows, and has published what it is about to mark as published. */
  ghost predicate WorkerGenuine(P: Params, book: map<Uuid, Content>, routed: seq<Kafka.Message>, worker: Worker) {
    worker.Busy? ==>
      && worker.next < |worker.events|
      && (forall j :: 0 <= j < |worker.events| ==>
            worker.events[j].id in book && book[worker.events[j].id] == worker.events[j].row.content)
      && (worker.pc.MarkingPublished? ==> P.render(Current(worker).id, Current(worker).row.content) in routed)
  }

  ghost predicate PublishedSound(P: Params, t: Table, routed: seq<Kafka.Message>) {
    forall id :: id in t && t[id].publishedAt.Some? ==> P.render(id, t[id].content) in routed
  }

  ghost predicate DeliveryInv(P: Params, s: State) {
    && (forall m :: m in s.routed ==> Genuine(P, Contents(s.table), m))
    && (forall w :: w in s.workers ==> WorkerGenuine(P, Contents(s.table), s.routed, s.workers[w]))
    && PublishedSound(P, s.table, s.routed)
  }

  lemma GenuineStays(P: Params, s: State, s': State)
    requires DeliveryInv(P, s) && Extends(Contents(s.table), Contents(s'.table)) && s.routed <= s'.routed
    ensures forall m :: m in s.routed ==> Genuine(P, Contents(s'.table), m)
    ensures forall w :: w in s.workers ==> WorkerGenuine(P, Contents(s'.table), s'.routed, s.workers[w])
  {
    forall m | m in s.routed ensures Genuine(P, Contents(s'.table), m) {
      var id :| id in Contents(s.table) && m == P.render(id, Contents(s.table)[id]);
      assert id in Contents(s'.table);
    }
  }

  /** A consumer may add an unpublished row and a delivery; the delivery half is otherwise as it was. */
  ghost predicate DeliveryUntouched(s: State, s': State) {
    && s' == s.(redis := s'.redis, table := s'.table, committed := s'.committed, consumers := s'.consumers,
                dlq := s'.dlq, audit := s.audit.(deliveries := s'.audit.deliveries))
    && TableGained(s.table, s'.table)
  }

  /** At most new unpublished rows. */
  ghost predicate TableGained(t: Table, t': Table) {
    && (forall id :: id in t ==> id in t' && t'[id] == t[id])
    && (forall id :: id in t' && id !in t ==>
          t'[id].publishedAt.None? && t'[id].attempts == 0 && t'[id].nextAttemptAt.None?
          && t'[id].lockedAt.None? && t'[id].lockedBy.None?)
  }

  lemma InsertLeavesDelivery(P: Params, s: State, c: nat, con: Consumer, outcome: Outcome, createdAt: Time)
    ensures DeliveryUntouched(s, InsertStep(P, s, c, con, outcome, createdAt))
  {
  }

  lemma CheckLeavesDelivery(P: Params, s: State, c: nat, con: Consumer, answered: bool)
    ensures DeliveryUntouched(s, CheckStep(P, s, c, con, answered))
  {
  }

  lemma MarkLeavesDelivery(P: Params, s: State, c: nat, con: Consumer, written: bool)
    ensures DeliveryUntouched(s, MarkStep(P, s, c, con, written))
  {
  }

  lemma FetchingLeavesDelivery(P: Params, s: State, c: nat, act: ConsumerAct)
    requires act.CrashConsumer? || act.Assign? || act.Poll? || act.Begin?
    ensures DeliveryUntouched(s, ConsumerStep(P, s, c, act))
  {
    match act
    case CrashConsumer =>
    case Assign(p) =>
    case Poll(batch) =>
    case Begin =>
  }

  lemma BuryLeavesDelivery(P: Params, s: State, c: nat, outcome: Outcome)
    ensures DeliveryUntouched(s, ConsumerStep(P, s, c, BuryRecord(outcome)))
  {
  }

  lemma CommitLeavesDelivery(P: Params, s: State, c: nat, outcome: Outcome)
    ensures DeliveryUntouched(s, ConsumerStep(P, s, c, Commit(outcome)))
  {
  }

  lemma EndingLeavesDelivery(P: Params, s: State, c: nat, act: ConsumerAct)
    requires act.BuryRecord? || act.Cancel? || act.Commit? || act.Flush?
    ensures DeliveryUntouched(s, ConsumerStep(P, s, c, act))
  {
    match act
    case BuryRecord(outcome) => BuryLeavesDelivery(P, s, c, outcome);
    case Cancel =>
    case Commit(outcome) => CommitLeavesDelivery(P, s, c, outcome);
    case Flush(p, offset) =>
  }

  lemma ConsumerLeavesDelivery(P: Params, s: State, c: nat, act: ConsumerAct)
    ensures DeliveryUntouched(s, ConsumerStep(P, s, c, act))
  {
    var con := ConsumerOf(s, c);
    match act
    case Check(answered) => CheckLeavesDelivery(P, s, c, con, answered);
    case Insert(outcome, createdAt) => InsertLeavesDelivery(P, s, c, con, outcome, createdAt);
    case Mark(written) => MarkLeavesDelivery(P, s, c, con, written);
    case CrashConsumer => FetchingLeavesDelivery(P, s, c, act);
    case Assign(p) => FetchingLeavesDelivery(P, s, c, act);
    case Poll(batch) => FetchingLeavesDelivery(P, s, c, act);
    case Begin => FetchingLeavesDelivery(P, s, c, act);
    case _ => EndingLeavesDelivery(P, s, c, act);
  }

  lemma ConsumerDelivers(P: Params, s: State, c: nat, act: ConsumerAct)
    requires DeliveryInv(P, s)
    ensures DeliveryInv(P, ConsumerStep(P, s, c, act))
  {
    ConsumerLeavesDelivery(P, s, c, act);
    GenuineStays(P, s, ConsumerStep(P, s, c, act));
  }

  lemma WorldDelivers(P: Params, s: State, e: Event)
    requires DeliveryInv(P, s) && !P.retention
    ensures DeliveryInv(P, WorldStep(P, s, e))
  {
    WorldContents(P, s, e);
    GenuineStays(P, s, WorldStep(P, s, e));
  }

  lemma SnapshotIsGenuine(P: Params, t: Table, routed: seq<Kafka.Message>, order: seq<Uuid>, name: string, now: Time)
    requires order != [] && forall i :: 0 <= i < |order| ==> order[i] in t
    ensures WorkerGenuine(P, Contents(t), routed, Busy(name, now, Snapshot(t, order), 0, Sending))
  {
  }

  lemma ClaimDelivers(P: Params, s: State, w: nat, name: string, limit: nat, skip: set<Uuid>, order: seq<Uuid>, reported: bool)
    requires DeliveryInv(P, s)
    ensures DeliveryInv(P, ClaimStep(s, w, name, limit, skip, order, reported))
  {
    var s' := ClaimStep(s, w, name, limit, skip, order, reported);
    if s' != s {
      ClaimTouchesOnlyLocks(s.table, Elements(order), s.now, name);
      GenuineStays(P, s, s');
      assert forall i :: 0 <= i < |order| ==> order[i] in Elements(order);
      if order != [] {
        SnapshotIsGenuine(P, s'.table, s'.routed, order, name, s.now);
      }
    }
  }

  lemma SendDelivers(P: Params, s: State, w: nat, outcome: Outcome, clock: Time, cause: string)
    requires DeliveryInv(P, s)
    ensures DeliveryInv(P, SendStep(P, s, w, outcome, clock, cause))
  {
    var s', worker := SendStep(P, s, w, outcome, clock, cause), WorkerOf(s, w);
    if HasEvent(worker) && worker.pc.Sending? {
      GenuineStays(P, s, s');
      var e := Current(worker);
      assert Genuine(P, Contents(s.table), P.render(e.id, e.row.content));
      assert !outcome.Failed? ==> s'.routed[|s.routed|] == P.render(e.id, e.row.content);
    }
  }

  lemma MarkRowOnlyAdvances(s: State, w: nat, applied: bool)
    ensures var s' := MarkRowStep(s, w, applied);
      && s'.routed == s.routed && s'.audit.deliveries == s.audit.deliveries
      && (s'.workers == s.workers || (HasEvent(WorkerOf(s, w)) && s'.workers == s.workers[w := Advance(WorkerOf(s, w))]))
  {
  }

  lemma MarkRowPublishesCurrent(s: State, w: nat, applied: bool, id: Uuid)
    requires HasEvent(WorkerOf(s, w)) && !WorkerOf(s, w).pc.Sending?
    requires var s' := MarkRowStep(s, w, applied); id in s'.table && s'.table[id].publishedAt.Some?
    ensures id in s.table
    ensures s.table[id].publishedAt.Some? || (id == Current(WorkerOf(s, w)).id && WorkerOf(s, w).pc.MarkingPublished?)
  {
  }

  lemma MarkRowDelivers(P: Params, s: State, w: nat, applied: bool)
    requires DeliveryInv(P, s)
    ensures DeliveryInv(P, MarkRowStep(s, w, applied))
  {
    var s', worker := MarkRowStep(s, w, applied), WorkerOf(s, w);
    if HasEvent(worker) && !worker.pc.Sending? {
      MarkRowContents(s, w, applied);
      MarkRowOnlyAdvances(s, w, applied);
      GenuineStays(P, s, s');
      assert worker == s.workers[w];
      forall id | id in s'.table && s'.table[id].publishedAt.Some? ensures P.render(id, s'.table[id].content) in s'.routed {
        MarkRowPublishesCurrent(s, w, applied, id);
        assert s'.table[id].content == Contents(s'.table)[id] == Contents(s.table)[id] == s.table[id].content;
      }
    }
  }

  lemma CrashDelivers(P: Params, s: State, w: nat)
    requires DeliveryInv(P, s)
    ensures DeliveryInv(P, CrashWorkerStep(s, w))
  {
  }

  lemma StepDelivers(P: Params, s: State, a: Action)
    requires DeliveryInv(P, s) && !P.retention
    ensures DeliveryInv(P, Step(P, s, a))
  {
    match a
    case ByConsumer(c, act) => ConsumerDelivers(P, s, c, act);
    case ByWorld(e) => WorldDelivers(P, s, e);
    case ByWorker(w, act) =>
      match act
      case Claim(name, limit, skip, order, reported) => ClaimDelivers(P, s, w, name, limit, skip, order, reported);
      case Send(outcome, clock, cause) => SendDelivers(P, s, w, outcome, clock, cause);
      case MarkRow(applied) => MarkRowDelivers(P, s, w, applied);
      case CrashWorker => CrashDelivers(P, s, w);
  }

  lemma {:induction false} OutboxAlways(P: Params, now: Time, actions: seq<Action>)
    requires MarkNamesRow(P) && !P.retention
    ensures MatchesSimpleForm(Run(P, Initial(now), actions))
    ensures DeliveryInv(P, Run(P, Initial(now), actions))
    decreases |actions|
  {
    if actions == [] {
      assert Contents(Initial(now).table) == map[];
    } else {
      var init, last := actions[..|actions| - 1], actions[|actions| - 1];
      OutboxAlways(P, now, init);
      IntakeAlways(P, now, init);
      StepMatches(P, Run(P, Initial(now), init), last);
      StepDelivers(P, Run(P, Initial(now), init), last);
    }
  }

  /** The table is the insert-if-absent one, whatever Redis forgot and however deliveries raced. */
  lemma FastPathAgrees(P: Params, now: Time, actions: seq<Action>)
    requires MarkNamesRow(P) && !P.retention
    ensures var s := Run(P, Initial(now), actions);
      && Contents(s.table) == FirstWins(s.audit.deliveries)
      && forall pl :: P.verdict(pl).Route? && P.verdict(pl).mark in s.redis ==> P.verdict(pl).id in s.table
  {
    OutboxAlways(P, now, actions);
    IntakeAlways(P, now, actions);
  }

  ghost predicate AllPublished(t: Table) {
    forall id :: id in t ==> t[id].publishedAt.Some?
  }

  /** Every row has its record. */
  ghost predicate Covers(P: Params, book: map<Uuid, Content>, routed: seq<Kafka.Message>) {
    forall id :: id in book ==> P.render(id, book[id]) in routed
  }

  /** Routed records never leave the simple specification; once nothing is pending they cover it. */
  lemma ExactlyOnceEffect(P: Params, now: Time, actions: seq<Action>)
    requires MarkNamesRow(P) && !P.retention
    ensures var s := Run(P, Initial(now), actions);
      var spec := FirstWins(s.audit.deliveries);
      && (forall m :: m in s.routed ==> Genuine(P, spec, m))
      && (AllPublished(s.table) ==> Covers(P, spec, s.routed))
  {
    OutboxAlways(P, now, actions);
    var s := Run(P, Initial(now), actions);
    var spec := FirstWins(s.audit.deliveries);
    assert forall id :: id in spec ==> id in s.table && spec[id] == s.table[id].content;
  }
}
