/**
 The consumer process (internal/app/consumer.go) and the router it calls (internal/service/router/service.go). Each
 call into Redis, the database or Kafka is noted as the protocol step it is; that the step has the very effect of the
 call is what `Record` asks to be proved.
 */
module Consumer {
  import opened Prelude
  import Envelopes
  import opened Outbox
  import opened Kafka
  import opened Courier
  import opened Routing
  import Deployment
  import opened Environment

  /** How Handle ends: nil, a permanent error, or any other error. */
  datatype Handling = Accomplished | Permanent | Transient

  /** A record in hand, not yet looked at. */
  predicate InHand(s: State, c: nat, place: Place) {
    var con := ConsumerOf(s, c);
    con.pc.Ready? && HasRecord(con) && con.batch[con.next] == place
  }

  /** The consumer is at a step of its record. */
  predicate Doing(s: State, c: nat, batch: seq<Place>, n: nat, pc: ConsumerPc) {
    var con := ConsumerOf(s, c);
    con.batch == batch && con.next == n && con.pc == pc
  }

  /** Which step may come next after which: the control flow of the process, seen from outside. */
  predicate Follows(before: ConsumerAct, after: ConsumerAct) {
    match before
    case Poll(_) => after.Poll? || after.Begin? || after.Cancel?
    case Begin => after.Check? || after.BuryRecord? || after.Cancel?
    case Check(answered) => if answered then after.Insert? || after.Commit? else after.Flush?
    case Insert(outcome, _) => if outcome.Done? then after.Mark? else after.Flush?
    case Mark(_) => after.Commit?
    case BuryRecord(outcome) => if outcome.Done? then after.Commit? else after.Flush?
    case Commit(outcome) => if outcome.Done? then after.Begin? || after.Poll? || after.Cancel? else after.Flush?
    case Cancel => after.Flush?
    case Flush(_, _) => after.Flush?
    case Assign(_) => false
    case CrashConsumer => false
  }

  /** After this step the record is dealt with and its offset is committed next. */
  predicate Ends(step: ConsumerAct) {
    step == Check(true) || step.Mark? || (step.BuryRecord? && step.outcome.Done?)
  }

  /** After this step the process flushes and stops. */
  predicate Fails(step: ConsumerAct) {
    step == Check(false) || step.Cancel? || step.Flush?
    || (step.Insert? && !step.outcome.Done?) || (step.BuryRecord? && !step.outcome.Done?) || (step.Commit? && !step.outcome.Done?)
  }

  /** The steps of one consumer process, from its first on. */
  predicate InOrder(acts: seq<Action>) {
    && (forall i :: 0 <= i < |acts| ==> acts[i].ByConsumer?)
    && (acts != [] ==> acts[0].step.Poll? || acts[0].step.Cancel?)
    && forall i :: 0 < i < |acts| ==> Follows(acts[i - 1].step, acts[i].step)
  }

  /** The process's latest step. */
  function Latest(acts: seq<Action>): Option<ConsumerAct>
    requires InOrder(acts)
  {
    if acts == [] then None else Some(acts[|acts| - 1].step)
  }

  predicate MayFollow(before: Option<ConsumerAct>, after: ConsumerAct) {
    match before
    case None => after.Poll? || after.Cancel?
    case Some(step) => Follows(step, after)
  }

  /** Where the next record or batch can be taken up. */
  predicate Resting(before: Option<ConsumerAct>) {
    before.Some? ==> before.value.Poll? || (before.value.Commit? && before.value.outcome.Done?)
  }

  /** How often the process has polled. */
  function Polls(acts: seq<Action>): nat {
    if acts == [] then 0
    else
      var last := acts[|acts| - 1];
      Polls(acts[..|acts| - 1]) + (if last.ByConsumer? && last.step.Poll? then 1 else 0)
  }

  twostate predicate NoPoll(w: World, c: nat)
    reads w
  {
    Polls(Own(Consuming(c), w.trace)) == old(Polls(Own(Consuming(c), w.trace)))
  }

  /** The world agrees with the protocol, and the process has kept to its order; `latest` is its latest step. */
  ghost predicate Orderly(w: World, c: nat, latest: Option<ConsumerAct>)
    reads w, w.db
  {
    w.Valid() && InOrder(Own(Consuming(c), w.trace)) && Latest(Own(Consuming(c), w.trace)) == latest
  }

  /** A call has had its effect and is still to be noted. */
  ghost predicate Unnoted(w: World, c: nat, latest: Option<ConsumerAct>)
    reads w
  {
    w.Faithful() && InOrder(Own(Consuming(c), w.trace)) && Latest(Own(Consuming(c), w.trace)) == latest
  }

  lemma OneMoreStep(acts: seq<Action>, a: Action, latest: Option<ConsumerAct>)
    requires InOrder(acts) && Latest(acts) == latest && a.ByConsumer? && MayFollow(latest, a.step)
    ensures InOrder(acts + [a]) && Latest(acts + [a]) == Some(a.step)
    ensures Polls(acts + [a]) == Polls(acts) + (if a.step.Poll? then 1 else 0)
  {
    assert (acts + [a])[..|acts|] == acts;
  }

  /** Notes the call that has just been made, or a step that takes none. */
  method Note(w: World, c: nat, step: ConsumerAct, ghost latest: Option<ConsumerAct>)
    requires Unnoted(w, c, latest) && MayFollow(latest, step) && !step.Assign? && NotesStep(step, w.book.answer)
    requires var s := Step(w.P, w.model, ByConsumer(c, step)); OutsideOf(s) == w.out && s.table == w.db.rows
    modifies w
    ensures Orderly(w, c, Some(step)) && w.model == Step(w.P, old(w.model), ByConsumer(c, step))
    ensures w.book == old(w.book).(answer := None)
    ensures Polls(Own(Consuming(c), w.trace)) == old(Polls(Own(Consuming(c), w.trace))) + (if step.Poll? then 1 else 0)
  {
    ghost var before := Own(Consuming(c), w.trace);
    w.Record(Consuming(c), ByConsumer(c, step));
    OneMoreStep(before, ByConsumer(c, step), latest);
  }

  /** Failed calls that stop the process; a failed SET is only logged. */
  function Serious(book: Book): nat {
    book.failed[PollCall] + book.failed[ExistsCall] + book.failed[InsertCall] + book.failed[DlqCall] + book.failed[CommitCall]
  }

  /** Since then so many calls have failed that stop the process, and it has not begun to flush. */
  predicate Troubles(before: Book, after: Book, n: nat) {
    after == before.(failed := after.failed) && Serious(after) == Serious(before) + n
  }

  method TakeUp(w: World, c: nat, place: Place, ghost latest: Option<ConsumerAct>)
    requires Orderly(w, c, latest) && Resting(latest) && latest.Some? && InHand(w.model, c, place)
    modifies w
    ensures NoPoll(w, c)
    ensures Orderly(w, c, Some(Begin))
    ensures var con := old(ConsumerOf(w.model, c));
      Doing(w.model, c, con.batch, con.next, if w.P.verdict(place).Route? then Checking else DeadLettering)
    ensures w.book == old(w.book)
  {
    Note(w, c, Begin, latest);
  }

  /** The fast path: has the event been marked? */
  method Deduplicate(w: World, c: nat, batch: seq<Place>, n: nat, key: string) returns (answered: bool, found: bool)
    requires Orderly(w, c, Some(Begin)) && n < |batch| && Doing(w.model, c, batch, n, Checking)
    requires w.P.verdict(batch[n]).Route? && w.P.verdict(batch[n]).mark == key
    modifies w, w.db
    ensures NoPoll(w, c)
    ensures Orderly(w, c, Some(Check(answered))) && w.book == Failing(old(w.book), !answered, ExistsCall)
    ensures if !answered then Doing(w.model, c, batch, n, Stopping)
      else if found then Doing(w.model, c, batch, n + 1, Committing(batch[n]))
      else Doing(w.model, c, batch, n, Inserting)
  {
    answered, found := w.Exists(Consuming(c), key);
    Note(w, c, Check(answered), Some(Begin));
  }

  /** The transaction that makes the routed event durable. */
  method MakeDurable(w: World, c: nat, batch: seq<Place>, n: nat, id: Uuid, content: Content) returns (o: Outcome, createdAt: Time)
    requires Orderly(w, c, Some(Check(true))) && n < |batch| && Doing(w.model, c, batch, n, Inserting)
    requires var v := w.P.verdict(batch[n]); v.Route? && v.id == id && v.content == content
    modifies w, w.db
    ensures NoPoll(w, c)
    ensures Orderly(w, c, Some(Insert(o, createdAt))) && w.book == Failing(old(w.book), !o.Done?, InsertCall)
    ensures Doing(w.model, c, batch, n, if o.Done? then Marking else Stopping)
  {
    o, createdAt := w.InsertInTx(Consuming(c), id, content);
    Note(w, c, Insert(o, createdAt), Some(Check(true)));
  }

  /** SETNX; whether it worked is only logged. */
  method Remember(w: World, c: nat, batch: seq<Place>, n: nat, key: string, ttl: Time, ghost createdAt: Time)
    returns (failed: bool, written: bool)
    requires Orderly(w, c, Some(Insert(Done, createdAt))) && n < |batch| && Doing(w.model, c, batch, n, Marking)
    requires w.P.verdict(batch[n]).Route? && w.P.verdict(batch[n]).mark == key && w.P.markTtl == ttl
    modifies w, w.db
    ensures NoPoll(w, c)
    ensures Orderly(w, c, Some(Mark(written))) && Doing(w.model, c, batch, n + 1, Committing(batch[n]))
    ensures w.book == Failing(old(w.book), failed, SetCall) && (!failed ==> written)
  {
    failed, written := w.SetNX(Consuming(c), key, ttl);
    Note(w, c, Mark(written), Some(Insert(Done, createdAt)));
  }

  /** Nothing can be done for now: the process is about to stop. */
  method GiveUp(w: World, c: nat, batch: seq<Place>, n: nat, pc: ConsumerPc, ghost latest: Option<ConsumerAct>)
    requires Orderly(w, c, latest) && MayFollow(latest, Cancel) && Doing(w.model, c, batch, n, pc) && (pc.Ready? || pc.Checking?)
    modifies w
    ensures NoPoll(w, c)
    ensures Orderly(w, c, Some(Cancel)) && Doing(w.model, c, batch, n, Stopping) && w.book == old(w.book)
  {
    Note(w, c, Cancel, latest);
  }

  method Bury(w: World, c: nat, batch: seq<Place>, n: nat) returns (o: Outcome)
    requires Orderly(w, c, Some(Begin)) && n < |batch| && Doing(w.model, c, batch, n, DeadLettering)
    modifies w, w.db
    ensures NoPoll(w, c)
    ensures Orderly(w, c, Some(BuryRecord(o))) && w.book == Failing(old(w.book), !o.Done?, DlqCall)
    ensures if o.Done? then Doing(w.model, c, batch, n + 1, Committing(batch[n])) else Doing(w.model, c, batch, n, Stopping)
  {
    o := w.PublishToDlq(Consuming(c), batch[n]);
    Note(w, c, BuryRecord(o), Some(Begin));
  }

  /** The record at n is dealt with, or the process stops with the record still its next. */
  ghost predicate DealtWith(w: World, c: nat, batch: seq<Place>, n: nat, ok: bool)
    requires n < |batch|
    reads w, w.db
  {
    exists step :: Orderly(w, c, Some(step)) &&
      if ok then Ends(step) && Doing(w.model, c, batch, n + 1, Committing(batch[n]))
      else Fails(step) && Doing(w.model, c, batch, n, Stopping)
  }

  /** What made the router give up: a failed call if there is a Redis, and otherwise nothing but that there is none. */
  ghost predicate GaveUp(w: World, c: nat, redis: bool)
    reads w, w.db
  {
    exists step :: Orderly(w, c, Some(step)) &&
      if redis then step == Check(false) || (step.Insert? && !step.outcome.Done?) else step == Cancel
  }

  method DeadLetter(w: World, c: nat, batch: seq<Place>, n: nat, ghost latest: Option<ConsumerAct>) returns (ok: bool)
    requires Orderly(w, c, latest) && Resting(latest) && latest.Some?
    requires n < |batch| && Doing(w.model, c, batch, n, Ready) && w.P.verdict(batch[n]).DeadLetter?
    modifies w, w.db
    ensures NoPoll(w, c)
    ensures DealtWith(w, c, batch, n, ok) && w.book == Failing(old(w.book), !ok, DlqCall)
  {
    TakeUp(w, c, batch[n], latest);
    var o := Bury(w, c, batch, n);
    ok := o.Done?;
  }

  /** First the row, then the mark. */
  method Deliver(w: World, c: nat, batch: seq<Place>, n: nat, key: string, id: Uuid, content: Content) returns (ok: bool)
    requires Orderly(w, c, Some(Check(true))) && n < |batch| && Doing(w.model, c, batch, n, Inserting)
    requires var v := w.P.verdict(batch[n]); v.Route? && v.id == id && v.content == content && v.mark == key
    modifies w, w.db
    ensures NoPoll(w, c)
    ensures DealtWith(w, c, batch, n, ok) && (!ok ==> GaveUp(w, c, true))
    ensures Troubles(old(w.book), w.book, if ok then 0 else 1)
  {
    var o, createdAt := MakeDurable(w, c, batch, n, id, content);
    if !o.Done? {
      return false;
    }
    var _, _ := Remember(w, c, batch, n, key, w.P.markTtl, createdAt);
    return true;
  }

  /** The row of the routed event: a copy of the envelope with three fields overwritten. */
  method Compose(cfg: Settings, env: Envelopes.Envelope, documentId: Uuid, routedId: Uuid, traceId: string) returns (content: Content)
    ensures content == RoutedContent(cfg, env, documentId, routedId, traceId)
  {
    var routed := env;
    routed := routed.(eventType := EVENT_TYPE_ROUTED);
    routed := routed.(producer := PRODUCER_NAME);
    routed := routed.(eventId := cfg.lib.uuidText(routedId));
    content := Content(AGGREGATE_TYPE, documentId, EVENT_TYPE_ROUTED, EVENT_VERSION, RoutedTopic(cfg.template, env.callerId),
                       Envelopes.Marshal(routed), if traceId == "" then None else Some(traceId));
  }

  /** The part of Handle that touches Redis and the database. */
  method RouteEvent(w: World, c: nat, batch: seq<Place>, n: nat, cfg: Settings, env: Envelopes.Envelope, documentId: Uuid, routedId: Uuid, traceId: string)
    returns (ok: bool)
    requires Orderly(w, c, Some(Begin)) && n < |batch| && Doing(w.model, c, batch, n, Checking)
    requires w.P.verdict(batch[n]) == RouteEnvelope(cfg, env, traceId) && w.P.verdict(batch[n]).Route?
    requires cfg.lib.parseUuid(env.documentId) == Some(documentId) && w.P.verdict(batch[n]).id == routedId
    modifies w, w.db
    ensures NoPoll(w, c)
    ensures DealtWith(w, c, batch, n, ok) && (!ok ==> GaveUp(w, c, true))
    ensures Troubles(old(w.book), w.book, if ok then 0 else 1)
  {
    var key := DEDUPE_KEY_PREFIX + env.eventId;
    var answered, found := Deduplicate(w, c, batch, n, key);
    if !answered {
      return false;
    }
    if found {
      return true;
    }
    var content := Compose(cfg, env, documentId, routedId, traceId);
    ok := Deliver(w, c, batch, n, key, routedId, content);
  }

  /**
   Routes one event: permanent trouble is found before anything is touched; otherwise the event is recognised as done,
   or its row is made durable and then marked, unless there is no Redis or just now a call has failed.
   */
  method Handle(w: World, c: nat, batch: seq<Place>, n: nat, cfg: Settings, redis: bool, env: Envelopes.Envelope, traceId: string,
                ghost latest: Option<ConsumerAct>)
    returns (r: Handling)
    requires Orderly(w, c, latest) && Resting(latest) && latest.Some?
    requires n < |batch| && Doing(w.model, c, batch, n, Ready) && w.P.verdict(batch[n]) == RouteEnvelope(cfg, env, traceId)
    modifies w, w.db
    ensures NoPoll(w, c)
    ensures r.Permanent? <==> w.P.verdict(batch[n]).DeadLetter?
    ensures r.Permanent? ==> Orderly(w, c, latest) && Doing(w.model, c, batch, n, Ready) && w.book == old(w.book)
    ensures !r.Permanent? ==> DealtWith(w, c, batch, n, r.Accomplished?)
    ensures r.Transient? ==> GaveUp(w, c, redis)
    ensures r.Accomplished? ==> redis
    ensures Troubles(old(w.book), w.book, if r.Transient? && redis then 1 else 0) && (!redis ==> w.book == old(w.book))
  {
    if !cfg.known(env.callerId) {
      return Permanent;
    }
    var documentId := cfg.lib.parseUuid(env.documentId);
    if documentId.None? {
      return Permanent;
    }
    var source := cfg.lib.parseUuid(env.eventId);
    if source.None? {
      return Permanent;
    }
    var routedId := cfg.lib.routedId(source.value);
    TakeUp(w, c, batch[n], latest);
    if !redis {
      GiveUp(w, c, batch, n, Checking, Some(Begin));
      return Transient;
    }
    var ok := RouteEvent(w, c, batch, n, cfg, env, documentId.value, routedId, traceId);
    return if ok then Accomplished else Transient;
  }

  /** The checks that need only the record: its envelope and trace id, or nothing if it breaks the contract. */
  method Inspect(cfg: Settings, rec: Record) returns (found: Option<(Envelopes.Envelope, string)>)
    ensures found.None? ==> Classify(cfg, rec).DeadLetter?
    ensures found.Some? ==> Classify(cfg, rec) == RouteEnvelope(cfg, found.value.0, found.value.1)
  {
    var parsed := Envelopes.Parse(rec.value, cfg.lib.isTimestamp);
    if parsed.Err? {
      return None;
    }
    var env := parsed.value;
    var header := RecordHeader(rec.headers, HEADER_EVENT_ID);
    if header != "" && header != env.eventId {
      return None;
    }
    var traceId := RecordHeader(rec.headers, HEADER_TRACE_ID);
    return Some((env, traceId));
  }

  /**
   A record is not finished only because a call failed or, if it is to be routed, there is no Redis, or, if it is to be
   dead-lettered, the process is cancelled.
   */
  predicate Excused(before: Book, after: Book, v: Verdict, redis: bool, ok: bool) {
    || Troubles(before, after, if ok then 0 else 1)
    || (!ok && v.Route? && !redis && after == before)
    || (!ok && v.DeadLetter? && after == before.(cancelled := true))
  }

  /** Deals with one record: dead-letters what can never succeed, routes the rest. */
  method HandleProcessedRecord(w: World, c: nat, batch: seq<Place>, n: nat, cfg: Settings, redis: bool, rec: Record,
                               ghost latest: Option<ConsumerAct>)
    returns (ok: bool)
    requires Orderly(w, c, latest) && Resting(latest) && latest.Some?
    requires n < |batch| && Doing(w.model, c, batch, n, Ready) && w.P.verdict(batch[n]) == Classify(cfg, rec)
    modifies w, w.db
    ensures NoPoll(w, c)
    ensures DealtWith(w, c, batch, n, ok)
    ensures Excused(old(w.book), w.book, w.P.verdict(batch[n]), redis, ok)
  {
    var found := Inspect(cfg, rec);
    if found.Some? {
      ok := RouteOrReject(w, c, batch, n, cfg, redis, found.value.0, found.value.1, latest);
    } else {
      ok := DeadLetter(w, c, batch, n, latest);
    }
  }

  /** What the router will never accept is dead-lettered, unless the process is cancelled. */
  method RouteOrReject(w: World, c: nat, batch: seq<Place>, n: nat, cfg: Settings, redis: bool, env: Envelopes.Envelope,
                       traceId: string, ghost latest: Option<ConsumerAct>)
    returns (ok: bool)
    requires Orderly(w, c, latest) && Resting(latest) && latest.Some?
    requires n < |batch| && Doing(w.model, c, batch, n, Ready) && w.P.verdict(batch[n]) == RouteEnvelope(cfg, env, traceId)
    modifies w, w.db
    ensures NoPoll(w, c)
    ensures DealtWith(w, c, batch, n, ok)
    ensures Excused(old(w.book), w.book, w.P.verdict(batch[n]), redis, ok)
  {
    var r := Handle(w, c, batch, n, cfg, redis, env, traceId, latest);
    if r.Permanent? {
      ok := Reject(w, c, batch, n, latest);
    } else {
      ok := r.Accomplished?;
    }
  }

  method Reject(w: World, c: nat, batch: seq<Place>, n: nat, ghost latest: Option<ConsumerAct>) returns (ok: bool)
    requires Orderly(w, c, latest) && Resting(latest) && latest.Some?
    requires n < |batch| && Doing(w.model, c, batch, n, Ready) && w.P.verdict(batch[n]).DeadLetter?
    modifies w, w.db
    ensures NoPoll(w, c)
    ensures DealtWith(w, c, batch, n, ok)
    ensures Excused(old(w.book), w.book, w.P.verdict(batch[n]), true, ok)
  {
    var cancelled := w.Cancelled();
    if cancelled {
      GiveUp(w, c, batch, n, Ready, latest);
      return false;
    }
    ok := DeadLetter(w, c, batch, n, latest);
  }

  /** Commits the offset of a record that has been dealt with. */
  method Confirm(w: World, c: nat, batch: seq<Place>, n: nat) returns (o: Outcome)
    requires n < |batch| && DealtWith(w, c, batch, n, true)
    modifies w, w.db
    ensures NoPoll(w, c)
    ensures Orderly(w, c, Some(Commit(o))) && Doing(w.model, c, batch, n + 1, if o.Done? then Ready else Stopping)
    ensures w.book == Failing(old(w.book), !o.Done?, CommitCall)
  {
    ghost var step :| Orderly(w, c, Some(step)) && Ends(step);
    o := w.CommitRecord(Consuming(c), batch[n]);
    Note(w, c, Commit(o), Some(step));
  }

  /** The process has flushed what it could and is done. */
  ghost predicate Stopped(w: World, c: nat)
    reads w, w.db
  {
    exists step :: Orderly(w, c, Some(step)) && Fails(step) && ConsumerOf(w.model, c).pc.Stopping?
  }

  /** commitPending: the library's flush of uncommitted offsets, of any partitions and as far as its policy allows. */
  method CommitPending(w: World, c: nat)
    requires Stopped(w, c) && w.book.unflushed.None?
    modifies w, w.db
    ensures NoPoll(w, c)
    ensures Stopped(w, c) && w.book == old(w.book).(unflushed := Some(0))
  {
    var partitions := w.BeginFlush();
    for i := 0 to partitions
      invariant Stopped(w, c) && NoPoll(w, c)
      invariant w.book == old(w.book).(unflushed := Some(partitions - i))
    {
      ghost var step :| Orderly(w, c, Some(step)) && Fails(step) && ConsumerOf(w.model, c).pc.Stopping?;
      var p, offset := w.FlushOffset(c);
      if MayFlush(w.P.flush, ConsumerOf(w.model, c), p, offset) {
        Note(w, c, Flush(p, offset), Some(step));
      }
    }
  }

  /** It is done, and it has flushed all there was to flush. */
  ghost predicate Flushed(w: World, c: nat)
    reads w, w.db
  {
    Stopped(w, c) && w.book.unflushed == Some(0)
  }

  /** One call has failed that stops the process, or it has been cancelled. */
  predicate Stops(before: Book, after: Book) {
    Serious(after) == Serious(before) + 1 || (Serious(after) == Serious(before) && after.cancelled)
  }

  /** One record of a batch: deal with it, then commit its offset. */
  method WorkOffRecord(w: World, c: nat, sys: Deployment.System, redis: bool, batch: seq<Place>, n: nat, ghost latest: ConsumerAct)
    returns (ok: bool)
    requires w.P == Deployment.Protocol(sys) && Orderly(w, c, Some(latest)) && Resting(Some(latest)) && w.book.unflushed.None?
    requires n < |batch| && Doing(w.model, c, batch, n, Ready)
    modifies w, w.db
    ensures NoPoll(w, c)
    ensures ok ==> Orderly(w, c, Some(Commit(Done))) && Doing(w.model, c, batch, n + 1, Ready) && Troubles(old(w.book), w.book, 0)
    ensures !ok ==> Flushed(w, c) && (redis ==> Stops(old(w.book), w.book))
  {
    ok := HandleProcessedRecord(w, c, batch, n, sys.cfg, redis, sys.log(batch[n]), Some(latest));
    if ok {
      var o := Confirm(w, c, batch, n);
      ok := o.Done?;
    }
    if !ok {
      CommitPending(w, c);
    }
  }

  /** The records of one batch, in order, until one cannot be finished. */
  method WorkOffBatch(w: World, c: nat, sys: Deployment.System, redis: bool, batch: seq<Place>) returns (ok: bool)
    requires w.P == Deployment.Protocol(sys) && Orderly(w, c, Some(Courier.Poll(batch))) && Doing(w.model, c, batch, 0, Ready)
    requires w.book.unflushed.None?
    modifies w, w.db
    ensures NoPoll(w, c)
    ensures ok ==> AtRest(w, c) && Troubles(old(w.book), w.book, 0)
    ensures !ok ==> Flushed(w, c) && (redis ==> Stops(old(w.book), w.book))
  {
    ghost var latest: ConsumerAct := Courier.Poll(batch);
    for n := 0 to |batch|
      invariant Orderly(w, c, Some(latest)) && Resting(Some(latest)) && Doing(w.model, c, batch, n, Ready) && NoPoll(w, c)
      invariant Troubles(old(w.book), w.book, 0)
    {
      ok := WorkOffRecord(w, c, sys, redis, batch, n, latest);
      if !ok {
        return;
      }
      latest := Commit(Done);
    }
    ok := true;
  }

  /** Ready for the next batch. */
  ghost predicate AtRest(w: World, c: nat)
    reads w, w.db
  {
    var con := ConsumerOf(w.model, c);
    con.pc.Ready? && con.next == |con.batch| && exists latest :: Orderly(w, c, latest) && Resting(latest)
  }

  /**
   The process has ended: after a poll that failed, without more ado if it is not cancelled; else it has flushed. It
   reports no error (`ok`) only if it is cancelled.
   */
  ghost predicate Ended(w: World, c: nat, before: Book, ok: bool)
    reads w, w.db
  {
    && Stops(before, w.book) && (ok ==> w.book.cancelled)
    && if AtRest(w, c) then w.book.cancelled == before.cancelled else Flushed(w, c)
  }

  /** One poll, and its batch. */
  method Round(w: World, c: nat, sys: Deployment.System) returns (goesOn: bool, ok: bool)
    requires w.P == Deployment.Protocol(sys) && AtRest(w, c) && w.book.unflushed.None?
    modifies w, w.db
    ensures goesOn ==> AtRest(w, c) && Troubles(old(w.book), w.book, 0)
    ensures goesOn ==> Polls(Own(Consuming(c), w.trace)) == old(Polls(Own(Consuming(c), w.trace))) + 1
    ensures !goesOn ==> Ended(w, c, old(w.book), ok)
    ensures !goesOn ==> Polls(Own(Consuming(c), w.trace)) <= old(Polls(Own(Consuming(c), w.trace))) + 1
  {
    ghost var latest :| Orderly(w, c, latest) && Resting(latest);
    var batch := Fetch(w, c, latest);
    if batch.None? {
      ok := StopPolling(w, c, latest);
      return false, ok;
    }
    goesOn := WorkOffBatch(w, c, sys, true, batch.value);
    return goesOn, false;
  }

  /**
   The consumer's life, up to some number of polls. Its own steps follow the control flow of `Follows`, and every one
   of them had the effect the protocol says; in particular no offset is committed but after its record is dealt with.
   It goes on until a call fails or it is cancelled.
   */
  method RunConsumer(w: World, c: nat, sys: Deployment.System, group: string, redis: bool, polls: nat) returns (ok: bool)
    requires w.Valid() && w.P == Deployment.Protocol(sys) && ConsumerOf(w.model, c) == FRESH && Own(Consuming(c), w.trace) == []
    requires w.book.unflushed.None?
    modifies w, w.db
    ensures w.Valid() && InOrder(Own(Consuming(c), w.trace))
    ensures group == "" || !redis ==> !ok && w.trace == old(w.trace)
    ensures AtRest(w, c) || Stopped(w, c)
    ensures Polls(Own(Consuming(c), w.trace)) <= polls
    ensures group != "" && redis ==>
      || (ok && AtRest(w, c) && Polls(Own(Consuming(c), w.trace)) == polls && Troubles(old(w.book), w.book, 0))
      || Ended(w, c, old(w.book), ok)
  {
    assert Orderly(w, c, None);
    if group == "" || !redis {
      return false;
    }
    for i := 0 to polls
      invariant AtRest(w, c) && Polls(Own(Consuming(c), w.trace)) == i && Troubles(old(w.book), w.book, 0)
    {
      var goesOn;
      goesOn, ok := Round(w, c, sys);
      if !goesOn {
        return;
      }
    }
    ok := true;
  }

  /** A poll has failed: is it because the process is to stop? */
  method StopPolling(w: World, c: nat, ghost latest: Option<ConsumerAct>) returns (ok: bool)
    requires AtRest(w, c) && Orderly(w, c, latest) && Resting(latest) && w.book.unflushed.None?
    modifies w, w.db
    ensures NoPoll(w, c)
    ensures ok ==> Flushed(w, c) && w.book.cancelled && w.book.failed == old(w.book.failed)
    ensures !ok ==> AtRest(w, c) && w.book == old(w.book)
  {
    var cancelled := w.Cancelled();
    if !cancelled {
      return false;
    }
    GiveUp(w, c, ConsumerOf(w.model, c).batch, ConsumerOf(w.model, c).next, Ready, latest);
    CommitPending(w, c);
    return true;
  }

  /** Polls for the next batch. */
  method Fetch(w: World, c: nat, ghost latest: Option<ConsumerAct>) returns (batch: Option<seq<Place>>)
    requires AtRest(w, c) && Orderly(w, c, latest) && Resting(latest)
    modifies w, w.db
    ensures batch.None? ==> AtRest(w, c) && NoPoll(w, c) && Orderly(w, c, latest) && w.book == Failing(old(w.book), true, PollCall)
    ensures batch.Some? ==>
      && Orderly(w, c, Some(Courier.Poll(batch.value))) && Doing(w.model, c, batch.value, 0, Ready) && w.book == old(w.book)
      && Polls(Own(Consuming(c), w.trace)) == old(Polls(Own(Consuming(c), w.trace))) + 1
  {
    batch := w.Poll(c);
    if batch.Some? {
      Note(w, c, Courier.Poll(batch.value), latest);
    }
  }
}
