/**
 The courier as a protocol: any number of consumers move records from the source topic
 into the outbox, any number of workers move outbox rows to the routed topics, and
 between any two atomic steps anything else may happen - another process moves, one
 crashes, Redis forgets, the clock advances.

 Every choice the environment makes is part of the action, so Step is a function and a
 run is a list of actions. An action that is not enabled changes nothing.
 */
module Courier {
  import opened Prelude
  import opened Outbox
  import opened Kafka

  /** What the consumer's checks make of a record; a routable one names its outbox row and its Redis mark. */
  datatype Verdict =
    | DeadLetter
    | Route(source: Uuid, id: Uuid, mark: string, content: Content)

  /**
   What the client library's CommitUncommitted may commit of a partition: an offset, given the first that is polled and not
   processed and the first that is not polled.
   */
  type FlushPolicy = (nat, nat, nat) -> bool

  /** What stays fixed during a run. The log is everything each partition will ever hold. */
  datatype Params = Params(
    verdict: Place -> Verdict,
    render: (Uuid, Content) -> Message,
    markTtl: Time,
    flush: FlushPolicy,
    retention: bool,   // whether the delete of old published rows is ever run
    releases: bool)    // whether the manual lock release is ever run

  datatype ConsumerPc =
    | Ready | Checking | Inserting | Marking | DeadLettering
    | Committing(done: Place)
    | Stopping

  datatype Consumer = Consumer(position: map<nat, nat>, batch: seq<Place>, next: nat, pc: ConsumerPc)

  const FRESH := Consumer(map[], [], 0, Ready)

  datatype WorkerPc = Sending | MarkingPublished | MarkingFailed(retryAt: Time, cause: string)

  datatype Worker =
    | Idle
    | Busy(name: string, claimedAt: Time, events: seq<Claimed>, next: nat, pc: WorkerPc)

  /** One delivery of a routable record that reached the outbox, or was recognised as having done so. */
  datatype Delivery = Delivery(place: Place, id: Uuid, content: Content)

  /** History that no process reads. */
  datatype Audit = Audit(
    deliveries: seq<Delivery>,
    deleted: map<Uuid, Time>,        // published_at of every row the retention delete removed
    sends: map<Uuid, nat>,           // publish attempts per row
    wasted: map<Uuid, nat>,          // attempts whose mark never changed the row
    firstFailure: map<Uuid, Time>)   // clock reading at the first counted failure

  datatype State = State(
    now: Time,
    redis: map<string, Time>,        // dedupe marks and when they expire
    table: Table,
    committed: map<nat, nat>,        // per partition, the next offset to consume
    consumers: map<nat, Consumer>,
    dlq: seq<Place>,
    workers: map<nat, Worker>,
    routed: seq<Message>,
    audit: Audit)

  /** How an external call ends: done, not done, or done although the caller sees an error. */
  datatype Outcome = Done | Failed | Unreported

  datatype ConsumerAct =
    | Assign(partition: nat)
    | Poll(batch: seq<Place>)
    | Begin
    | Check(answered: bool)
    | Insert(outcome: Outcome, createdAt: Time)
    | Mark(written: bool)
    | BuryRecord(outcome: Outcome)
    | Cancel
    | Commit(outcome: Outcome)
    | Flush(partition: nat, offset: nat)
    | CrashConsumer

  datatype WorkerAct =
    | Claim(name: string, limit: nat, skip: set<Uuid>, order: seq<Uuid>, reported: bool)
    | Send(outcome: Outcome, clock: Time, cause: string)
    | MarkRow(applied: bool)
    | CrashWorker

  datatype Event =
    | Tick(elapsed: nat)
    | LoseMarks(keys: set<string>)
    | Retain
    | ReleaseLock(id: Uuid)

  datatype Action =
    | ByConsumer(consumer: nat, step: ConsumerAct)
    | ByWorker(worker: nat, move: WorkerAct)
    | ByWorld(event: Event)

  function Initial(now: Time): State {
    State(now, map[], map[], map[], map[], [], map[], [], Audit([], map[], map[], map[], map[]))
  }

  function Count<K>(m: map<K, nat>, k: K): nat {
    if k in m then m[k] else 0
  }

  function ConsumerOf(s: State, c: nat): Consumer {
    if c in s.consumers then s.consumers[c] else FRESH
  }

  function WorkerOf(s: State, w: nat): Worker {
    if w in s.workers then s.workers[w] else Idle
  }

  function WithConsumer(s: State, c: nat, con: Consumer): State {
    s.(consumers := s.consumers[c := con])
  }

  function WithWorker(s: State, w: nat, worker: Worker): State {
    s.(workers := s.workers[w := worker])
  }

  predicate Live(redis: map<string, Time>, key: string, now: Time) {
    key in redis && now < redis[key]
  }

  /** A batch that the client could return: every partition continues where the position says. */
  predicate Fetchable(position: map<nat, nat>, batch: seq<Place>) {
    batch == [] ||
    (var at := batch[0];
     at.partition in position && position[at.partition] == at.offset &&
     Fetchable(position[at.partition := at.offset + 1], batch[1..]))
  }

  function Advanced(position: map<nat, nat>, batch: seq<Place>): map<nat, nat>
    decreases |batch|
  {
    if batch == [] then position
    else Advanced(position[batch[0].partition := batch[0].offset + 1], batch[1..])
  }

  /** The first offset of the partition that is not processed: the lowest still waiting, or the position. */
  function Processed(position: nat, waiting: seq<Place>, partition: nat): nat {
    if waiting == [] then position
    else
      var later := Processed(position, waiting[1..], partition);
      if waiting[0].partition == partition && waiting[0].offset < later then waiting[0].offset else later
  }

  /** The offsets the flush may commit. */
  predicate MayFlush(policy: FlushPolicy, con: Consumer, partition: nat, offset: nat) {
    && partition in con.position && con.next <= |con.batch|
    && policy(Processed(con.position[partition], con.batch[con.next..], partition), con.position[partition], offset)
  }

  /** The record is dealt with; only its offset commit remains. */
  function Finished(con: Consumer): Consumer
    requires con.next < |con.batch|
  {
    con.(next := con.next + 1, pc := Committing(con.batch[con.next]))
  }

  predicate HasRecord(con: Consumer) {
    con.next < |con.batch|
  }

  function Delivered(s: State, place: Place, v: Verdict): State
    requires v.Route?
  {
    s.(audit := s.audit.(deliveries := s.audit.deliveries + [Delivery(place, v.id, v.content)]))
  }

  function ConsumerStep(P: Params, s: State, c: nat, act: ConsumerAct): State {
    var con := ConsumerOf(s, c);
    match act
    case CrashConsumer => WithConsumer(s, c, FRESH)
    case Assign(p) =>
      WithConsumer(s, c, con.(position := con.position[p := Count(s.committed, p)]))
    case Poll(batch) =>
      if !(con.pc.Ready? && con.next == |con.batch| && Fetchable(con.position, batch)) then s
      else WithConsumer(s, c, Consumer(Advanced(con.position, batch), batch, 0, Ready))
    case Begin =>
      if !(con.pc.Ready? && HasRecord(con)) then s
      else WithConsumer(s, c, con.(pc := if P.verdict(con.batch[con.next]).Route? then Checking else DeadLettering))
    case Check(answered) => CheckStep(P, s, c, con, answered)
    case Insert(outcome, createdAt) => InsertStep(P, s, c, con, outcome, createdAt)
    case Mark(written) => MarkStep(P, s, c, con, written)
    case BuryRecord(outcome) =>
      if !(con.pc.DeadLettering? && HasRecord(con)) then s
      else
        var s' := if outcome.Failed? then s else s.(dlq := s.dlq + [con.batch[con.next]]);
        WithConsumer(s', c, if outcome.Done? then Finished(con) else con.(pc := Stopping))
    case Cancel =>
      if con.pc.Committing? || con.pc.Marking? then s else WithConsumer(s, c, con.(pc := Stopping))
    case Commit(outcome) =>
      if !con.pc.Committing? then s
      else
        var at := con.pc.done;
        var s' := if outcome.Failed? then s else s.(committed := s.committed[at.partition := at.offset + 1]);
        WithConsumer(s', c, con.(pc := if outcome.Done? then Ready else Stopping))
    case Flush(p, offset) =>
      if !(con.pc.Stopping? && MayFlush(P.flush, con, p, offset)) then s
      else s.(committed := s.committed[p := offset])
  }

  /** EXISTS: an error stops the consumer, a mark means the record is already dealt with. */
  function CheckStep(P: Params, s: State, c: nat, con: Consumer, answered: bool): State {
    if !(con.pc.Checking? && HasRecord(con)) then s
    else
      var place := con.batch[con.next];
      var v := P.verdict(place);
      if v.DeadLetter? then s
      else if !answered then WithConsumer(s, c, con.(pc := Stopping))
      else if Live(s.redis, v.mark, s.now) then WithConsumer(Delivered(s, place, v), c, Finished(con))
      else WithConsumer(s, c, con.(pc := Inserting))
  }

  /** The transaction that inserts the routed row; created_at is its start time. */
  function InsertStep(P: Params, s: State, c: nat, con: Consumer, outcome: Outcome, createdAt: Time): State {
    if !(con.pc.Inserting? && HasRecord(con) && createdAt <= s.now) then s
    else
      var place := con.batch[con.next];
      var v := P.verdict(place);
      if v.DeadLetter? then s
      else
        var s' := if outcome.Failed? then s
                  else Delivered(s.(table := Outbox.Insert(s.table, v.id, v.content, createdAt)), place, v);
        WithConsumer(s', c, con.(pc := if outcome.Done? then Marking else Stopping))
  }

  /** SETNX: whether or not the mark gets written, the record is dealt with. */
  function MarkStep(P: Params, s: State, c: nat, con: Consumer, written: bool): State {
    if !(con.pc.Marking? && HasRecord(con)) then s
    else
      var v := P.verdict(con.batch[con.next]);
      if v.DeadLetter? then s
      else
        var s' := if !written || Live(s.redis, v.mark, s.now) then s
                  else s.(redis := s.redis[v.mark := s.now + P.markTtl]);
        WithConsumer(s', c, Finished(con))
  }

  function Snapshot(t: Table, order: seq<Uuid>): seq<Claimed>
    requires forall i :: 0 <= i < |order| ==> order[i] in t
  {
    seq(|order|, i requires 0 <= i < |order| => Claimed(order[i], t[order[i]]))
  }

  predicate IsClaim(s: State, limit: nat, skip: set<Uuid>, order: seq<Uuid>) {
    Distinct(order) && IsSortedPrefix(s.table, s.now, limit, skip, Elements(order))
  }

  function ClaimStep(s: State, w: nat, name: string, limit: nat, skip: set<Uuid>, order: seq<Uuid>, reported: bool): State {
    if !(WorkerOf(s, w).Idle? && IsClaim(s, limit, skip, order)) then s
    else
      assert forall i :: 0 <= i < |order| ==> order[i] in Elements(order);
      var table := Outbox.Claim(s.table, Elements(order), s.now, name);
      WithWorker(s.(table := table), w,
                 if !reported || order == [] then Idle else Busy(name, s.now, Snapshot(table, order), 0, Sending))
  }

  /** A busy worker that has an event in hand. */
  predicate HasEvent(worker: Worker) {
    worker.Busy? && worker.next < |worker.events|
  }

  function Current(worker: Worker): Claimed
    requires HasEvent(worker)
  {
    worker.events[worker.next]
  }

  function Advance(worker: Worker): Worker
    requires worker.Busy?
  {
    if worker.next + 1 >= |worker.events| then Idle else worker.(next := worker.next + 1, pc := Sending)
  }

  function SendStep(P: Params, s: State, w: nat, outcome: Outcome, clock: Time, cause: string): State {
    var worker := WorkerOf(s, w);
    if !(HasEvent(worker) && worker.pc.Sending?) then s
    else
      var e := Current(worker);
      var routed := if outcome.Failed? then s.routed else s.routed + [P.render(e.id, e.row.content)];
      var audit := s.audit.(sends := s.audit.sends[e.id := Count(s.audit.sends, e.id) + 1]);
      var pc := if outcome.Done? then MarkingPublished else MarkingFailed(clock + Backoff(e.row.attempts), cause);
      WithWorker(s.(routed := routed, audit := audit), w, worker.(pc := pc))
  }

  function Waste(audit: Audit, id: Uuid): Audit {
    audit.(wasted := audit.wasted[id := Count(audit.wasted, id) + 1])
  }

  /** Whether the mark the worker is about to make would change the row. */
  predicate MarkTakesEffect(t: Table, worker: Worker)
    requires HasEvent(worker)
  {
    var id := Current(worker).id;
    match worker.pc
    case Sending => false
    case MarkingPublished => Pending(t, id)
    case MarkingFailed(_, _) => CanFail(t, id)
  }

  function Marked(s: State, worker: Worker): State
    requires HasEvent(worker) && MarkTakesEffect(s.table, worker)
  {
    var id := Current(worker).id;
    match worker.pc
    case MarkingPublished => s.(table := MarkPublished(s.table, id, s.now))
    case MarkingFailed(retryAt, cause) =>
      var first := s.table[id].attempts == 0;
      s.(table := MarkFailed(s.table, id, retryAt, cause),
         audit := if first then s.audit.(firstFailure := s.audit.firstFailure[id := retryAt - RETRY_DELAY]) else s.audit)
  }

  /** Either mark; a mark that errs is only logged, so the worker moves on regardless. */
  function MarkRowStep(s: State, w: nat, applied: bool): State {
    var worker := WorkerOf(s, w);
    if !(HasEvent(worker) && !worker.pc.Sending?) then s
    else
      var s' := if applied && MarkTakesEffect(s.table, worker) then Marked(s, worker)
                else s.(audit := Waste(s.audit, Current(worker).id));
      WithWorker(s', w, Advance(worker))
  }

  function CrashWorkerStep(s: State, w: nat): State {
    var worker := WorkerOf(s, w);
    var s' := if HasEvent(worker) && !worker.pc.Sending? then s.(audit := Waste(s.audit, Current(worker).id)) else s;
    WithWorker(s', w, Idle)
  }

  function WorkerStep(P: Params, s: State, w: nat, act: WorkerAct): State {
    match act
    case Claim(name, limit, skip, order, reported) => ClaimStep(s, w, name, limit, skip, order, reported)
    case Send(outcome, clock, cause) => SendStep(P, s, w, outcome, clock, cause)
    case MarkRow(applied) => MarkRowStep(s, w, applied)
    case CrashWorker => CrashWorkerStep(s, w)
  }

  function RetentionStep(s: State): State {
    var gone := map id | id in s.table && PastRetention(s.table[id], s.now) :: s.table[id].publishedAt.value;
    s.(table := DeletePublished(s.table, s.now), audit := s.audit.(deleted := s.audit.deleted + gone))
  }

  function WorldStep(P: Params, s: State, e: Event): State {
    match e
    case Tick(elapsed) => s.(now := s.now + elapsed)
    case LoseMarks(keys) => s.(redis := s.redis - keys)
    case Retain => if P.retention then RetentionStep(s) else s
    case ReleaseLock(id) => if P.releases then s.(table := Release(s.table, id)) else s
  }

  function Step(P: Params, s: State, a: Action): State {
    match a
    case ByConsumer(c, act) => ConsumerStep(P, s, c, act)
    case ByWorker(w, act) => WorkerStep(P, s, w, act)
    case ByWorld(e) => WorldStep(P, s, e)
  }

  /** Where a list of actions leads. */
  function Run(P: Params, s: State, actions: seq<Action>): State
    decreases |actions|
  {
    if actions == [] then s
    else Step(P, Run(P, s, actions[..|actions| - 1]), actions[|actions| - 1])
  }

  lemma {:induction false} RunConcat(P: Params, s: State, a: seq<Action>, b: seq<Action>)
    ensures Run(P, s, a + b) == Run(P, Run(P, s, a), b)
  {
    if b == [] {
      assert a + b == a;
    } else {
      var init := b[..|b| - 1];
      assert (a + b)[..|a + b| - 1] == a + init;
      RunConcat(P, s, a, init);
    }
  }

  lemma RunStep(P: Params, s: State, actions: seq<Action>, a: Action)
    ensures Run(P, s, actions + [a]) == Step(P, Run(P, s, actions), a)
  {
    assert (actions + [a])[..|actions|] == actions;
  }

  lemma SingleStep(P: Params, s: State, a: Action)
    ensures Run(P, s, [a]) == Step(P, s, a)
  {
    RunStep(P, s, [], a);
    assert [] + [a] == [a];
  }

  lemma TwoSteps(P: Params, s: State, a: Action, b: Action)
    ensures Run(P, s, [a, b]) == Step(P, Step(P, s, a), b)
  {
    SingleStep(P, s, a);
    RunStep(P, s, [a], b);
    assert [a] + [b] == [a, b];
  }
}
