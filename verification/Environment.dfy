/**
 What a consumer or a worker process runs in: the shared Redis, database and Kafka, which other processes and the
 passage of time change between any two of its calls. Beside them goes the protocol's own state; a process says which
 protocol step each of its calls is, and `Record` accepts that only if the call was made, came to what the step says, and
 had the effect that the step has. So no process can report a failure that no call has had.
 */
module Environment {
  import opened Prelude
  import Outbox
  import opened Kafka
  import opened Courier
  import IntakeSafety
  import OutboxSafety
  import Retention
  import Queries

  /** The shared state outside the database. */
  datatype Outside = Outside(now: Time, redis: map<string, Time>, committed: map<nat, nat>, dlq: seq<Place>, routed: seq<Message>)

  function OutsideOf(s: State): Outside {
    Outside(s.now, s.redis, s.committed, s.dlq, s.routed)
  }

  /** One process of the protocol. */
  datatype Process = Consuming(c: nat) | Publishing(w: nat)

  /** A step a process takes itself; partitions are assigned to it by the broker, at any time. */
  predicate IsOwn(me: Process, a: Action) {
    match me
    case Consuming(c) => a.ByConsumer? && a.consumer == c && !a.step.Assign?
    case Publishing(w) => a.ByWorker? && a.worker == w
  }

  /** What the process itself has done. */
  function Own(me: Process, trace: seq<Action>): seq<Action> {
    if trace == [] then []
    else
      var n := |trace| - 1;
      Own(me, trace[..n]) + (if IsOwn(me, trace[n]) then [trace[n]] else [])
  }

  /** Nobody else changes what a process has in hand; the broker may move a consumer's positions. */
  predicate SameTask(me: Process, s: State, s': State) {
    match me
    case Consuming(c) => ConsumerOf(s', c).(position := map[]) == ConsumerOf(s, c).(position := map[])
    case Publishing(w) => WorkerOf(s', w) == WorkerOf(s, w)
  }

  lemma OtherLeavesTask(P: Params, me: Process, s: State, a: Action)
    requires !IsOwn(me, a)
    ensures SameTask(me, s, Step(P, s, a))
  {
    match a
    case ByConsumer(c, act) => OtherConsumerLeavesTask(P, me, s, c, act);
    case ByWorker(w, act) => OtherWorkerLeavesTask(P, me, s, w, act);
    case ByWorld(e) =>
  }

  /** A consumer's step changes no other consumer. */
  predicate OthersKept(s: State, s': State, c: nat) {
    s'.consumers - {c} == s.consumers - {c}
  }

  lemma CheckKeepsOthers(P: Params, s: State, c: nat, con: Consumer, answered: bool)
    ensures OthersKept(s, CheckStep(P, s, c, con, answered), c)
  {
  }

  lemma InsertKeepsOthers(P: Params, s: State, c: nat, con: Consumer, outcome: Outcome, createdAt: Time)
    ensures OthersKept(s, InsertStep(P, s, c, con, outcome, createdAt), c)
  {
  }

  lemma MarkKeepsOthers(P: Params, s: State, c: nat, con: Consumer, written: bool)
    ensures OthersKept(s, MarkStep(P, s, c, con, written), c)
  {
  }

  lemma ConsumerKeepsOthers(P: Params, s: State, c: nat, act: ConsumerAct)
    ensures OthersKept(s, ConsumerStep(P, s, c, act), c)
  {
    var con := ConsumerOf(s, c);
    match act
    case Check(answered) => CheckKeepsOthers(P, s, c, con, answered);
    case Insert(outcome, createdAt) => InsertKeepsOthers(P, s, c, con, outcome, createdAt);
    case Mark(written) => MarkKeepsOthers(P, s, c, con, written);
    case CrashConsumer => FetchingKeepsOthers(P, s, c, act);
    case Assign(p) => FetchingKeepsOthers(P, s, c, act);
    case Poll(batch) => FetchingKeepsOthers(P, s, c, act);
    case Begin => FetchingKeepsOthers(P, s, c, act);
    case _ => EndingKeepsOthers(P, s, c, act);
  }

  lemma FetchingKeepsOthers(P: Params, s: State, c: nat, act: ConsumerAct)
    requires act.CrashConsumer? || act.Assign? || act.Poll? || act.Begin?
    ensures OthersKept(s, ConsumerStep(P, s, c, act), c)
  {
    match act
    case CrashConsumer =>
    case Assign(p) =>
    case Poll(batch) =>
    case Begin =>
  }

  lemma EndingKeepsOthers(P: Params, s: State, c: nat, act: ConsumerAct)
    requires act.BuryRecord? || act.Cancel? || act.Commit? || act.Flush?
    ensures OthersKept(s, ConsumerStep(P, s, c, act), c)
  {
    match act
    case BuryRecord(outcome) =>
    case Cancel =>
    case Commit(outcome) =>
    case Flush(p, offset) =>
  }

  lemma KeptMeansSame(s: State, s': State, c: nat, k: nat)
    requires OthersKept(s, s', c) && k != c
    ensures ConsumerOf(s', k) == ConsumerOf(s, k)
  {
    assert k in s.consumers <==> k in s.consumers - {c};
    assert k in s'.consumers <==> k in s'.consumers - {c};
    if k in s.consumers {
      assert (s.consumers - {c})[k] == s.consumers[k] && (s'.consumers - {c})[k] == s'.consumers[k];
    }
  }

  lemma OtherConsumerLeavesTask(P: Params, me: Process, s: State, c: nat, act: ConsumerAct)
    requires !IsOwn(me, ByConsumer(c, act))
    ensures SameTask(me, s, ConsumerStep(P, s, c, act))
  {
    if me.Publishing? {
      OutboxSafety.ConsumerLeavesDelivery(P, s, c, act);
    } else if me.c != c {
      ConsumerKeepsOthers(P, s, c, act);
      KeptMeansSame(s, ConsumerStep(P, s, c, act), c, me.c);
    }
  }

  lemma ClaimKeepsOthers(s: State, w: nat, name: string, limit: nat, skip: set<Uuid>, order: seq<Uuid>, reported: bool, v: nat)
    requires v != w
    ensures WorkerOf(ClaimStep(s, w, name, limit, skip, order, reported), v) == WorkerOf(s, v)
  {
  }

  lemma SendKeepsOthers(P: Params, s: State, w: nat, outcome: Outcome, clock: Time, cause: string, v: nat)
    requires v != w
    ensures WorkerOf(SendStep(P, s, w, outcome, clock, cause), v) == WorkerOf(s, v)
  {
  }

  lemma MarkRowKeepsOthers(s: State, w: nat, applied: bool, v: nat)
    requires v != w
    ensures WorkerOf(MarkRowStep(s, w, applied), v) == WorkerOf(s, v)
  {
  }

  lemma OtherWorkerLeavesTask(P: Params, me: Process, s: State, w: nat, act: WorkerAct)
    requires !IsOwn(me, ByWorker(w, act))
    ensures SameTask(me, s, WorkerStep(P, s, w, act))
  {
    if me.Consuming? {
      IntakeSafety.WorkerLeavesIntake(P, s, w, act);
    } else {
      match act
      case Claim(name, limit, skip, order, reported) => ClaimKeepsOthers(s, w, name, limit, skip, order, reported, me.w);
      case Send(outcome, clock, cause) => SendKeepsOthers(P, s, w, outcome, clock, cause, me.w);
      case MarkRow(applied) => MarkRowKeepsOthers(s, w, applied, me.w);
      case CrashWorker =>
    }
  }

  lemma {:induction false} OthersLeaveTask(P: Params, me: Process, s: State, others: seq<Action>)
    requires Own(me, others) == []
    ensures SameTask(me, s, Run(P, s, others))
    decreases |others|
  {
    if others != [] {
      var n := |others| - 1;
      OthersLeaveTask(P, me, s, others[..n]);
      OtherLeavesTask(P, me, Run(P, s, others[..n]), others[n]);
    }
  }

  lemma {:induction false} OwnConcat(me: Process, a: seq<Action>, b: seq<Action>)
    ensures Own(me, a + b) == Own(me, a) + Own(me, b)
    decreases |b|
  {
    if b == [] {
      assert a + b == a;
    } else {
      var n := |b| - 1;
      assert (a + b)[..|a + b| - 1] == a + b[..n];
      OwnConcat(me, a, b[..n]);
    }
  }

  // What a process knows of its calls.

  /** The calls that can fail. */
  datatype Call =
    | PollCall | ExistsCall | SetCall | InsertCall | DlqCall | CommitCall
    | ClaimCall | PublishCall | UpdateCall

  /** What a call has come to. The clock is read only after a publish that failed. */
  datatype Answer =
    | PollEnded(batch: seq<Place>)
    | CheckEnded(answered: bool)
    | InsertEnded(outcome: Outcome)
    | MarkEnded(written: bool)
    | DlqEnded(outcome: Outcome)
    | CommitEnded(outcome: Outcome)
    | FlushEnded(partition: nat, offset: nat)
    | ClaimEnded(reported: bool)
    | SendEnded(outcome: Outcome, cause: string, clock: Option<Time>)
    | UpdateEnded(applied: bool)

  /**
   The record of a process's calls: those that have failed, one that is still to be noted, whether the process has seen
   that it is cancelled, and how many partitions are left of a flush it has begun.
   */
  datatype Book = Book(failed: multiset<Call>, answer: Option<Answer>, cancelled: bool, unflushed: Option<nat>)

  function Failing(book: Book, failed: bool, call: Call): Book {
    if failed then book.(failed := book.failed + multiset{call}) else book
  }

  /** A call that is to be noted as a step. */
  function Answering(book: Book, failed: bool, call: Call, answer: Answer): Book {
    Failing(book, failed, call).(answer := Some(answer))
  }

  /** Whether the step says what the call has come to; only some steps need no call. */
  predicate Notes(a: Action, answer: Option<Answer>) {
    match a
    case ByConsumer(_, step) => NotesStep(step, answer)
    case ByWorker(_, move) => NotesMove(move, answer)
    case ByWorld(_) => false
  }

  predicate NotesStep(step: ConsumerAct, answer: Option<Answer>) {
    match step
    case Poll(batch) => answer == Some(PollEnded(batch))
    case Check(answered) => answer == Some(CheckEnded(answered))
    case Insert(outcome, _) => answer == Some(InsertEnded(outcome))
    case Mark(written) => answer == Some(MarkEnded(written))
    case BuryRecord(outcome) => answer == Some(DlqEnded(outcome))
    case Commit(outcome) => answer == Some(CommitEnded(outcome))
    case Flush(partition, offset) => answer == Some(FlushEnded(partition, offset))
    case _ => answer.None?
  }

  predicate NotesMove(move: WorkerAct, answer: Option<Answer>) {
    match move
    case Claim(_, _, _, _, reported) => answer == Some(ClaimEnded(reported))
    case Send(outcome, clock, cause) =>
      && answer.Some? && answer.value.SendEnded? && answer.value.outcome == outcome
      && (!outcome.Done? ==> answer.value.cause == cause && answer.value.clock == Some(clock))
    case MarkRow(applied) => answer == Some(UpdateEnded(applied))
    case CrashWorker => answer.None?
  }

  class World {
    const P: Params
    const start: Time
    const db: Queries.Store
    var out: Outside
    var model: State
    ghost var trace: seq<Action>
    ghost var book: Book

    /** The protocol's state is the one that the steps taken so far lead to. */
    ghost predicate Faithful()
      reads this
    {
      model == Run(P, Initial(start), trace)
    }

    /** And it agrees with everything there really is. */
    ghost predicate Agrees()
      reads this, db
    {
      Faithful() && out == OutsideOf(model) && db.rows == model.table
    }

    /** And no call is still to be noted. */
    ghost predicate Valid()
      reads this, db
    {
      Agrees() && book.answer.None?
    }

    /** Others may have had a turn. */
    twostate predicate Undisturbed(me: Process)
      reads this
    {
      SameTask(me, old(model), model) && Own(me, trace) == old(Own(me, trace))
    }

    constructor (P: Params, start: Time)
      ensures Valid() && this.P == P && this.start == start && trace == [] && fresh(db)
      ensures book == Book(multiset{}, None, false, None)
    {
      this.P := P;
      this.start := start;
      db := new Queries.Store();
      model := Initial(start);
      out := OutsideOf(Initial(start));
      trace := [];
      book := Book(multiset{}, None, false, None);
    }

    /** Any others do anything they can, as long as they like. */
    method Others(me: Process)
      requires Valid()
      modifies this, db
      ensures Valid() && Undisturbed(me) && old(out.now) <= out.now && book == old(book)
    {
      assert Own(me, []) == [];
      var others: seq<Action> :| Own(me, others) == [];
      OthersLeaveTask(P, me, model, others);
      OwnConcat(me, trace, others);
      RunConcat(P, Initial(start), trace, others);
      Retention.ClockNeverGoesBack(P, model, others);
      model := Run(P, model, others);
      trace := trace + others;
      out := OutsideOf(model);
      db.rows := model.table;
    }

    /** Takes note of the step of the protocol that the latest call amounts to: it has had this effect and come to this. */
    method Record(me: Process, a: Action)
      requires Faithful() && IsOwn(me, a) && Notes(a, book.answer)
      requires var s := Step(P, model, a); OutsideOf(s) == out && s.table == db.rows
      modifies this`model, this`trace, this`book
      ensures Valid() && book == old(book).(answer := None)
      ensures model == Step(P, old(model), a) && Own(me, trace) == old(Own(me, trace)) + [a]
    {
      model := Step(P, model, a);
      assert (trace + [a])[..|trace|] == trace;
      trace := trace + [a];
      book := book.(answer := None);
    }

    // What a process can call. Before each call has its effect, others may act; each call may fail, and some may fail
    // although they have had their effect. The calls know nothing of the protocol. What a call returns besides its
    // answer - whether an unanswered one arrived, when a transaction began - goes into the record only.

    /** Whether the process has been told to stop. */
    method Cancelled() returns (yes: bool)
      requires Valid()
      modifies this`book
      ensures Valid() && book == old(book).(cancelled := old(book.cancelled) || yes)
    {
      yes := *;
      book := book.(cancelled := book.cancelled || yes);
    }

    /** The process's own clock, which may be wrong; here it matters only after a publish that failed. */
    method ReadClock() returns (clock: Time)
      requires Faithful() && book.answer.Some? && book.answer.value.SendEnded?
      modifies this`book
      ensures Faithful() && book == old(book).(answer := Some(old(book.answer.value).(clock := Some(clock))))
    {
      clock := *;
      book := book.(answer := Some(book.answer.value.(clock := Some(clock))));
    }

    /** The client's next batch, continuing where the assigned partitions' positions say. */
    method Poll(c: nat) returns (batch: Option<seq<Place>>)
      requires Valid()
      modifies this, db
      ensures Agrees() && Undisturbed(Consuming(c))
      ensures batch.None? ==> book == Failing(old(book), true, PollCall)
      ensures batch.Some? ==>
        Fetchable(ConsumerOf(model, c).position, batch.value) && book == Answering(old(book), false, PollCall, PollEnded(batch.value))
    {
      Others(Consuming(c));
      var fails: bool := *;
      if fails {
        book := Failing(book, true, PollCall);
        return None;
      }
      assert Fetchable(ConsumerOf(model, c).position, []);
      var records :| Fetchable(ConsumerOf(model, c).position, records);
      book := Answering(book, false, PollCall, PollEnded(records));
      return Some(records);
    }

    /** EXISTS. */
    method Exists(me: Process, key: string) returns (answered: bool, found: bool)
      requires Valid()
      modifies this, db
      ensures Agrees() && Undisturbed(me) && book == Answering(old(book), !answered, ExistsCall, CheckEnded(answered))
      ensures answered ==> (found <==> Live(out.redis, key, out.now))
    {
      Others(me);
      answered := *;
      found := Live(out.redis, key, out.now);
      book := Answering(book, !answered, ExistsCall, CheckEnded(answered));
    }

    /** SET with NX and a TTL. */
    method SetNX(me: Process, key: string, ttl: Time) returns (failed: bool, written: bool)
      requires Valid()
      modifies this, db
      ensures Faithful() && Undisturbed(me) && db.rows == model.table
      ensures out == OutsideOf(model).(redis :=
        if written && !Live(model.redis, key, model.now) then model.redis[key := model.now + ttl] else model.redis)
      ensures !failed ==> written
      ensures book == Answering(old(book), failed, SetCall, MarkEnded(written))
    {
      Others(me);
      var arrives: bool := *;
      if arrives && !Live(out.redis, key, out.now) {
        out := out.(redis := out.redis[key := out.now + ttl]);
      }
      failed := *;
      failed := failed || !arrives;
      written := arrives;
      book := Answering(book, failed, SetCall, MarkEnded(written));
    }

    method Publish(me: Process, m: Message) returns (o: Outcome, cause: string)
      requires Valid()
      modifies this, db
      ensures Faithful() && Undisturbed(me) && db.rows == model.table
      ensures out == OutsideOf(model).(routed := if o.Failed? then model.routed else model.routed + [m])
      ensures book == Answering(old(book), !o.Done?, PublishCall, SendEnded(o, cause, None))
    {
      Others(me);
      o, cause := *, *;
      if !o.Failed? {
        out := out.(routed := out.routed + [m]);
      }
      book := Answering(book, !o.Done?, PublishCall, SendEnded(o, cause, None));
    }

    method PublishToDlq(me: Process, place: Place) returns (o: Outcome)
      requires Valid()
      modifies this, db
      ensures Faithful() && Undisturbed(me) && db.rows == model.table
      ensures out == OutsideOf(model).(dlq := if o.Failed? then model.dlq else model.dlq + [place])
      ensures book == Answering(old(book), !o.Done?, DlqCall, DlqEnded(o))
    {
      Others(me);
      o := *;
      if !o.Failed? {
        out := out.(dlq := out.dlq + [place]);
      }
      book := Answering(book, !o.Done?, DlqCall, DlqEnded(o));
    }

    method CommitRecord(me: Process, place: Place) returns (o: Outcome)
      requires Valid()
      modifies this, db
      ensures Faithful() && Undisturbed(me) && db.rows == model.table
      ensures out == OutsideOf(model).(committed :=
        if o.Failed? then model.committed else model.committed[place.partition := place.offset + 1])
      ensures book == Answering(old(book), !o.Done?, CommitCall, CommitEnded(o))
    {
      Others(me);
      o := *;
      if !o.Failed? {
        out := out.(committed := out.committed[place.partition := place.offset + 1]);
      }
      book := Answering(book, !o.Done?, CommitCall, CommitEnded(o));
    }

    /** The library's flush of uncommitted offsets begins; it goes through some number of partitions. */
    method BeginFlush() returns (partitions: nat)
      requires Valid() && book.unflushed.None?
      modifies this`book
      ensures Valid() && book == old(book).(unflushed := Some(partitions))
    {
      partitions :| partitions >= 0;
      book := book.(unflushed := Some(partitions));
    }

    /** One offset of it, if the library's policy allows it. */
    method FlushOffset(c: nat) returns (p: nat, offset: nat)
      requires Valid() && book.unflushed.Some? && book.unflushed.value > 0
      modifies this, db
      ensures Faithful() && Undisturbed(Consuming(c)) && db.rows == model.table
      ensures var allowed := MayFlush(P.flush, ConsumerOf(model, c), p, offset);
        && out == OutsideOf(model).(committed := if allowed then model.committed[p := offset] else model.committed)
        && book == old(book).(unflushed := Some(old(book.unflushed.value) - 1),
                              answer := if allowed then Some(FlushEnded(p, offset)) else None)
    {
      Others(Consuming(c));
      p, offset := *, *;
      book := book.(unflushed := Some(book.unflushed.value - 1));
      if MayFlush(P.flush, ConsumerOf(model, c), p, offset) {
        out := out.(committed := out.committed[p := offset]);
        book := book.(answer := Some(FlushEnded(p, offset)));
      }
    }

    /** ExecTx around CreateOutboxEvent; created_at is when the transaction began. */
    method InsertInTx(me: Process, id: Uuid, content: Outbox.Content) returns (o: Outcome, createdAt: Time)
      requires Valid()
      modifies this, db
      ensures Faithful() && Undisturbed(me) && out == OutsideOf(model) && createdAt <= model.now
      ensures db.rows == if o.Failed? then model.table else Outbox.Insert(model.table, id, content, createdAt)
      ensures book == Answering(old(book), !o.Done?, InsertCall, InsertEnded(o))
    {
      Others(me);
      var begun := out.now;
      Others(me);
      var begins: bool, inserts: bool, commit: Outcome := *, *, *;
      o := db.ExecTx(id, content, begun, begins, inserts, commit);
      createdAt := begun;
      book := Answering(book, !o.Done?, InsertCall, InsertEnded(o));
    }

    method ClaimRows(me: Process, limit: int, name: string)
      returns (r: Result<seq<Outbox.Claimed>, string>, executed: bool, skip: set<Uuid>, order: seq<Uuid>)
      requires Valid()
      modifies this, db
      ensures Faithful() && Undisturbed(me) && out == OutsideOf(model)
      ensures r.Ok? ==> executed
      ensures book == Failing(old(book), r.Err?, ClaimCall).(answer := if executed then Some(ClaimEnded(r.Ok?)) else None)
      ensures !executed ==> db.rows == model.table
      ensures executed ==>
        && limit >= 0 && IsClaim(model, limit, skip, order)
        && db.rows == Outbox.Claim(model.table, Elements(order), model.now, name)
        && (r.Ok? ==> (forall i :: 0 <= i < |order| ==> order[i] in db.rows) && r.value == Snapshot(db.rows, order))
    {
      Others(me);
      skip := *;
      var reaches: bool, heard: bool := *, *;
      if !reaches {
        book := Failing(book, true, ClaimCall);
        return Err("claim failed"), false, skip, [];
      }
      var answer, chosen := db.ClaimPendingOutboxEvents(limit, name, out.now, skip);
      r := if heard then answer else Err("claim failed");
      book := Failing(book, r.Err?, ClaimCall).(answer := if answer.Ok? then Some(ClaimEnded(r.Ok?)) else None);
      return r, answer.Ok?, skip, chosen;
    }

    method MarkFailed(me: Process, id: Uuid, nextAttemptAt: Time, lastError: string) returns (failed: bool, applied: bool)
      requires Valid()
      modifies this, db
      ensures Faithful() && Undisturbed(me) && out == OutsideOf(model)
      ensures db.rows == if applied then Outbox.MarkFailed(model.table, id, nextAttemptAt, lastError) else model.table
      ensures book == Answering(old(book), failed, UpdateCall, UpdateEnded(applied)) && (!failed ==> applied)
    {
      Others(me);
      var reaches: bool, heard: bool := *, *;
      failed := !reaches;
      if reaches {
        failed := db.MarkOutboxEventFailed(id, nextAttemptAt, lastError);
      }
      failed := failed || !heard;
      applied := reaches;
      book := Answering(book, failed, UpdateCall, UpdateEnded(applied));
    }

    method MarkPublished(me: Process, id: Uuid) returns (failed: bool, applied: bool)
      requires Valid()
      modifies this, db
      ensures Faithful() && Undisturbed(me) && out == OutsideOf(model)
      ensures db.rows == if applied then Outbox.MarkPublished(model.table, id, model.now) else model.table
      ensures book == Answering(old(book), failed, UpdateCall, UpdateEnded(applied)) && (!failed ==> applied)
    {
      Others(me);
      var reaches: bool, heard: bool := *, *;
      if reaches {
        db.MarkOutboxEventPublished(id, out.now);
      }
      failed := !reaches || !heard;
      applied := reaches;
      book := Answering(book, failed, UpdateCall, UpdateEnded(applied));
    }
  }
}
