/**
 The worker process (internal/app/worker.go) and the outbox service it ticks (internal/service/outbox/service.go): claim
 a batch, publish each event, mark each row. Its calls are noted as protocol steps, as the consumer's are.
 */
module Publisher {
  import opened Prelude
  import Envelopes
  import opened Outbox
  import opened Kafka
  import opened Courier
  import opened Routing
  import Deployment
  import opened Environment
  import Ticks

  const DEFAULT_BATCH_SIZE: int := 100
  const WORKER_ID_PREFIX := "outbox-worker-"

  /** The protocol of a deployment publishes what its library makes of a row. */
  lemma RendersBy(sys: Deployment.System, id: Uuid, content: Content)
    ensures Deployment.Protocol(sys).render(id, content) == Render(sys.cfg.lib, id, content)
  {
  }

  /** The worker holds a batch and is about to do something with its n-th event. */
  ghost predicate At(w: World, me: nat, name: string, claimedAt: Time, events: seq<Claimed>, n: nat, pc: WorkerPc)
    reads w, w.db
  {
    w.Valid() && n < |events| && WorkerOf(w.model, me) == Busy(name, claimedAt, events, n, pc)
  }

  /** The first n events are dealt with; after the last the worker is idle. */
  ghost predicate Past(w: World, me: nat, name: string, claimedAt: Time, events: seq<Claimed>, n: nat)
    reads w, w.db
  {
    w.Valid() && WorkerOf(w.model, me) == Ticks.AfterEvents(name, claimedAt, events, n)
  }

  /** The record that a row is published as, put together field by field. */
  method Assemble(lib: Library, event: Claimed) returns (m: Message)
    ensures m == Render(lib, event.id, event.row.content)
    ensures m.topic == event.row.content.topic && m.value == event.row.content.payload
    ensures var env := Envelopes.Unmarshal(event.row.content.payload);
      m.key == if env.Some? && env.value.externalRef != "" then env.value.externalRef else lib.uuidText(event.row.content.aggregateId)
  {
    var content := event.row.content;
    var env := Envelopes.Unmarshal(content.payload);
    var key := lib.uuidText(content.aggregateId);
    if env.Some? && env.value.externalRef != "" {
      key := env.value.externalRef;
    }
    var headers: seq<Header> := [];
    headers := headers + [
      Header(HEADER_EVENT_ID, lib.uuidText(event.id)),
      Header(HEADER_EVENT_TYPE, content.eventType),
      Header(HEADER_EVENT_VERSION, Decimal(content.eventVersion)),
      Header(HEADER_SOURCE, SOURCE_SERVICE),
      Header(HEADER_AGG_TYPE, content.aggregateType),
      Header(HEADER_AGG_ID, lib.uuidText(content.aggregateId))];
    if content.traceId.Some? {
      headers := headers + [Header(HEADER_TRACE_ID, content.traceId.value)];
    }
    m := Message(content.topic, key, content.payload, headers);
  }

  /** What an attempt is to the protocol. */
  lemma SendHasItsEffect(P: Params, s: State, me: nat, outcome: Outcome, clock: Time, cause: string)
    requires HasEvent(WorkerOf(s, me)) && WorkerOf(s, me).pc.Sending?
    ensures var s' := Step(P, s, ByWorker(me, Send(outcome, clock, cause)));
      var worker := WorkerOf(s, me);
      var e := Current(worker);
      && s'.table == s.table
      && OutsideOf(s') == OutsideOf(s).(routed := if outcome.Failed? then s.routed else s.routed + [P.render(e.id, e.row.content)])
      && WorkerOf(s', me) ==
           worker.(pc := if outcome.Done? then MarkingPublished else MarkingFailed(clock + Backoff(e.row.attempts), cause))
  {
  }

  /** Publishes a record; if that fails, there is a cause and the clock is read. */
  method TryPublish(w: World, me: nat, m: Message) returns (o: Outcome, clock: Time, cause: string)
    requires w.Valid()
    modifies w, w.db
    ensures w.Faithful() && w.Undisturbed(Publishing(me)) && w.db.rows == w.model.table
    ensures w.out == OutsideOf(w.model).(routed := if o.Failed? then w.model.routed else w.model.routed + [m])
    ensures NotesMove(Send(o, clock, cause), w.book.answer)
    ensures w.book == Failing(old(w.book), !o.Done?, PublishCall).(answer := w.book.answer)
  {
    o, cause := w.Publish(Publishing(me), m);
    clock := *;
    if !o.Done? {
      clock := w.ReadClock();
    }
  }

  /** The attempt itself. */
  method Attempt(w: World, me: nat, sys: Deployment.System, name: string, claimedAt: Time, events: seq<Claimed>, n: nat)
    returns (o: Outcome, clock: Time, cause: string)
    requires w.P == Deployment.Protocol(sys) && At(w, me, name, claimedAt, events, n, Sending)
    modifies w, w.db
    ensures At(w, me, name, claimedAt, events, n,
               if o.Done? then MarkingPublished else MarkingFailed(clock + Backoff(events[n].row.attempts), cause))
    ensures Own(Publishing(me), w.trace) == old(Own(Publishing(me), w.trace)) + [ByWorker(me, Send(o, clock, cause))]
    ensures w.book == Failing(old(w.book), !o.Done?, PublishCall)
  {
    var m := Assemble(sys.cfg.lib, events[n]);
    o, clock, cause := TryPublish(w, me, m);
    RendersBy(sys, events[n].id, events[n].row.content);
    SendHasItsEffect(w.P, w.model, me, o, clock, cause);
    w.Record(Publishing(me), ByWorker(me, Send(o, clock, cause)));
  }

  lemma PublishedMarkHasItsEffect(P: Params, s: State, me: nat, applied: bool)
    requires HasEvent(WorkerOf(s, me)) && WorkerOf(s, me).pc.MarkingPublished?
    ensures var s' := Step(P, s, ByWorker(me, MarkRow(applied)));
      && s'.table == (if applied then MarkPublished(s.table, Current(WorkerOf(s, me)).id, s.now) else s.table)
      && OutsideOf(s') == OutsideOf(s) && WorkerOf(s', me) == Advance(WorkerOf(s, me))
  {
  }

  lemma FailedMarkHasItsEffect(P: Params, s: State, me: nat, applied: bool)
    requires HasEvent(WorkerOf(s, me)) && WorkerOf(s, me).pc.MarkingFailed?
    ensures var s', pc := Step(P, s, ByWorker(me, MarkRow(applied))), WorkerOf(s, me).pc;
      && s'.table == (if applied then MarkFailed(s.table, Current(WorkerOf(s, me)).id, pc.retryAt, pc.cause) else s.table)
      && OutsideOf(s') == OutsideOf(s) && WorkerOf(s', me) == Advance(WorkerOf(s, me))
  {
  }

  method NotePublished(w: World, me: nat, name: string, claimedAt: Time, events: seq<Claimed>, n: nat) returns (failed: bool, applied: bool)
    requires At(w, me, name, claimedAt, events, n, MarkingPublished)
    modifies w, w.db
    ensures Past(w, me, name, claimedAt, events, n + 1)
    ensures Own(Publishing(me), w.trace) == old(Own(Publishing(me), w.trace)) + [ByWorker(me, MarkRow(applied))]
    ensures w.book == Failing(old(w.book), failed, UpdateCall) && (!failed ==> applied)
  {
    failed, applied := w.MarkPublished(Publishing(me), events[n].id);
    PublishedMarkHasItsEffect(w.P, w.model, me, applied);
    w.Record(Publishing(me), ByWorker(me, MarkRow(applied)));
  }

  method NoteFailed(w: World, me: nat, name: string, claimedAt: Time, events: seq<Claimed>, n: nat, retryAt: Time, cause: string)
    returns (failed: bool, applied: bool)
    requires At(w, me, name, claimedAt, events, n, MarkingFailed(retryAt, cause))
    modifies w, w.db
    ensures Past(w, me, name, claimedAt, events, n + 1)
    ensures Own(Publishing(me), w.trace) == old(Own(Publishing(me), w.trace)) + [ByWorker(me, MarkRow(applied))]
    ensures w.book == Failing(old(w.book), failed, UpdateCall) && (!failed ==> applied)
  {
    failed, applied := w.MarkFailed(Publishing(me), events[n].id, retryAt, cause);
    FailedMarkHasItsEffect(w.P, w.model, me, applied);
    w.Record(Publishing(me), ByWorker(me, MarkRow(applied)));
  }

  /** The own steps for one event: an attempt and a mark, the mark of success only if the attempt succeeded. */
  predicate EventActs(me: nat, acts: seq<Action>, ok: bool) {
    && |acts| == 2 && acts[0].ByWorker? && acts[1].ByWorker? && acts[0].worker == acts[1].worker == me
    && acts[0].move.Send? && acts[1].move.MarkRow?
    && (ok ==> acts[0].move.outcome.Done? && acts[1].move.applied)
  }

  /** How many attempts among the steps have failed, or are not known to have worked. */
  function Refused(acts: seq<Action>): nat {
    if acts == [] then 0
    else
      var a := acts[|acts| - 1];
      Refused(acts[..|acts| - 1]) + (if a.ByWorker? && a.move.Send? && !a.move.outcome.Done? then 1 else 0)
  }

  /** How many marks among the steps have not been made. */
  function Unmarked(acts: seq<Action>): nat {
    if acts == [] then 0
    else
      var a := acts[|acts| - 1];
      Unmarked(acts[..|acts| - 1]) + (if a.ByWorker? && a.move == MarkRow(false) then 1 else 0)
  }

  lemma {:induction false} CountsAdd(acts: seq<Action>, more: seq<Action>)
    ensures Refused(acts + more) == Refused(acts) + Refused(more) && Unmarked(acts + more) == Unmarked(acts) + Unmarked(more)
    decreases |more|
  {
    if more == [] {
      assert acts + more == acts;
    } else {
      var n := |more| - 1;
      assert (acts + more)[..|acts + more| - 1] == acts + more[..n];
      CountsAdd(acts, more[..n]);
    }
  }

  /**
   Nothing fails for no reason: so many claims have failed, every failed attempt is a publish that failed, and every mark
   not made an update that failed.
   */
  predicate Accounts(before: Book, after: Book, acts: seq<Action>, unclaimed: nat) {
    && after == before.(failed := after.failed)
    && after.failed[ClaimCall] == before.failed[ClaimCall] + unclaimed
    && after.failed[PublishCall] == before.failed[PublishCall] + Refused(acts)
    && after.failed[UpdateCall] >= before.failed[UpdateCall] + Unmarked(acts)
  }

  lemma AccountsAdd(a: Book, b: Book, c: Book, acts: seq<Action>, more: seq<Action>, m: nat, n: nat)
    requires Accounts(a, b, acts, m) && Accounts(b, c, more, n)
    ensures Accounts(a, c, acts + more, m + n)
  {
    CountsAdd(acts, more);
  }

  lemma EventAccounts(before: Book, after: Book, me: nat, send: WorkerAct, applied: bool, failed: bool)
    requires send.Send? && (!failed ==> applied)
    requires after == Failing(Failing(before, !send.outcome.Done?, PublishCall), failed, UpdateCall)
    ensures Accounts(before, after, [ByWorker(me, send), ByWorker(me, MarkRow(applied))], 0)
    ensures after.failed == before.failed <==> send.outcome.Done? && !failed
  {
    var acts := [ByWorker(me, send), ByWorker(me, MarkRow(applied))];
    assert acts == [acts[0]] + [acts[1]];
    CountsAdd([acts[0]], [acts[1]]);
    assert [acts[0]][..0] == [] && [acts[1]][..0] == [];
    if after.failed == before.failed {
      assert after.failed[PublishCall] == before.failed[PublishCall] && after.failed[UpdateCall] == before.failed[UpdateCall];
    }
  }

  /** Publishes one event and marks its row; trouble with the mark is no reason to stop. */
  method PublishEvent(w: World, me: nat, sys: Deployment.System, name: string, claimedAt: Time, events: seq<Claimed>, n: nat)
    returns (ok: bool, acts: seq<Action>)
    requires w.P == Deployment.Protocol(sys) && At(w, me, name, claimedAt, events, n, Sending)
    modifies w, w.db
    ensures Past(w, me, name, claimedAt, events, n + 1)
    ensures Own(Publishing(me), w.trace) == old(Own(Publishing(me), w.trace)) + acts && EventActs(me, acts, ok)
    ensures Accounts(old(w.book), w.book, acts, 0) && (ok <==> w.book.failed == old(w.book.failed))
  {
    var o, clock, cause := Attempt(w, me, sys, name, claimedAt, events, n);
    var failed, applied;
    if o.Done? {
      failed, applied := NotePublished(w, me, name, claimedAt, events, n);
    } else {
      var backoff := Min(Int32(events[n].row.attempts + 1), 6) * RETRY_DELAY;
      failed, applied := NoteFailed(w, me, name, claimedAt, events, n, clock + backoff, cause);
    }
    EventAccounts(old(w.book), w.book, me, Send(o, clock, cause), applied, failed);
    return o.Done? && !failed, [ByWorker(me, Send(o, clock, cause)), ByWorker(me, MarkRow(applied))];
  }

  /** The LIMIT that a batch size becomes. */
  function ClaimLimit(batchSize: int): (limit: int)
    ensures batchSize <= 0 ==> limit == 100
    ensures 0 < batchSize <= MAX_INT32 ==> limit == batchSize
  {
    Int32(if batchSize <= 0 then DEFAULT_BATCH_SIZE else batchSize)
  }

  /** The own steps for n events, one after the other. */
  predicate EventsActs(me: nat, acts: seq<Action>, n: nat) {
    if n == 0 then acts == []
    else |acts| >= 2 && EventsActs(me, acts[..|acts| - 2], n - 1) && EventActs(me, acts[|acts| - 2..], false)
  }

  lemma OneMoreEventActs(me: nat, acts: seq<Action>, more: seq<Action>, n: nat, ok: bool)
    requires EventsActs(me, acts, n) && EventActs(me, more, ok)
    ensures EventsActs(me, acts + more, n + 1)
  {
    assert (acts + more)[..|acts|] == acts;
    assert (acts + more)[|acts|..] == more;
  }

  /** The step is a claim under this name, with this limit, of these events in this order. */
  predicate IsClaimOf(me: nat, a: Action, name: string, limit: int, events: seq<Claimed>) {
    && a.ByWorker? && a.worker == me && a.move.Claim? && a.move.name == name && a.move.limit == limit && a.move.reported
    && |a.move.order| == |events| && forall i :: 0 <= i < |events| ==> a.move.order[i] == events[i].id
  }

  predicate IsUnheardClaim(me: nat, a: Action, name: string, limit: int) {
    a.ByWorker? && a.worker == me && a.move.Claim? && a.move.name == name && a.move.limit == limit && !a.move.reported
  }

  /** At most a claim that was made and not heard of. */
  predicate Unheard(me: nat, acts: seq<Action>, name: string, limit: int) {
    |acts| <= 1 && forall a :: a in acts ==> IsUnheardClaim(me, a, name, limit)
  }

  /** The claim statement; a claim that was made but not heard of leaves its rows locked and the worker idle. */
  method ClaimBatch(w: World, me: nat, name: string, limit: int)
    returns (r: Result<seq<Claimed>, string>, claimedAt: Time, acts: seq<Action>)
    requires w.Valid() && WorkerOf(w.model, me).Idle?
    modifies w, w.db
    ensures Own(Publishing(me), w.trace) == old(Own(Publishing(me), w.trace)) + acts
    ensures r.Err? ==> w.Valid() && WorkerOf(w.model, me).Idle?
    ensures r.Ok? ==> Past(w, me, name, claimedAt, r.value, 0) && |r.value| <= limit
    ensures r.Ok? ==> |acts| == 1 && IsClaimOf(me, acts[0], name, limit, r.value)
    ensures r.Err? ==> Unheard(me, acts, name, limit)
    ensures limit < 0 ==> r.Err? && acts == []
    ensures Accounts(old(w.book), w.book, acts, if r.Err? then 1 else 0)
  {
    var executed, skip, order;
    r, executed, skip, order := w.ClaimRows(Publishing(me), limit, name);
    claimedAt := w.out.now;
    acts := [];
    if executed {
      DistinctCount(order);
      acts := [ByWorker(me, Claim(name, limit, skip, order, r.Ok?))];
      w.Record(Publishing(me), acts[0]);
    }
    ClaimAccounts(old(w.book), w.book, acts, r.Err?);
  }

  /** The own steps of a tick that claimed these events: the claim, then for each event in turn an attempt and a mark. */
  predicate TickActs(me: nat, acts: seq<Action>, name: string, limit: int, events: seq<Claimed>) {
    acts != [] && IsClaimOf(me, acts[0], name, limit, events) && EventsActs(me, acts[1..], |events|)
  }

  lemma ClaimThenEvents(me: nat, claim: seq<Action>, steps: seq<Action>, name: string, limit: int, events: seq<Claimed>)
    requires |claim| == 1 && IsClaimOf(me, claim[0], name, limit, events) && EventsActs(me, steps, |events|)
    ensures TickActs(me, claim + steps, name, limit, events)
  {
    assert (claim + steps)[1..] == steps;
  }

  /** Every claimed event is tried once, in turn, whatever becomes of the others. */
  method PublishAll(w: World, me: nat, sys: Deployment.System, name: string, claimedAt: Time, events: seq<Claimed>) returns (acts: seq<Action>)
    requires w.P == Deployment.Protocol(sys) && Past(w, me, name, claimedAt, events, 0)
    modifies w, w.db
    ensures Past(w, me, name, claimedAt, events, |events|)
    ensures Own(Publishing(me), w.trace) == old(Own(Publishing(me), w.trace)) + acts && EventsActs(me, acts, |events|)
    ensures Accounts(old(w.book), w.book, acts, 0)
  {
    ghost var before := Own(Publishing(me), w.trace);
    acts := [];
    for n := 0 to |events|
      invariant Past(w, me, name, claimedAt, events, n)
      invariant Own(Publishing(me), w.trace) == before + acts && EventsActs(me, acts, n)
      invariant Accounts(old(w.book), w.book, acts, 0)
    {
      ghost var book := w.book;
      var published, steps := PublishEvent(w, me, sys, name, claimedAt, events, n);
      OneMoreEventActs(me, acts, steps, n, published);
      AccountsAdd(old(w.book), book, w.book, acts, steps, 0, 0);
      ConcatAssociates(before, acts, steps);
      acts := acts + steps;
    }
  }

  lemma ClaimAccounts(before: Book, after: Book, acts: seq<Action>, failed: bool)
    requires |acts| <= 1 && forall a :: a in acts ==> a.ByWorker? && a.move.Claim?
    requires after == Failing(before, failed, ClaimCall)
    ensures Accounts(before, after, acts, if failed then 1 else 0)
  {
    if acts != [] {
      assert acts[0] in acts && acts[..0] == [];
    }
  }

  method ClaimAndPublish(w: World, me: nat, sys: Deployment.System, name: string, limit: int)
    returns (ok: bool, events: seq<Claimed>, acts: seq<Action>)
    requires w.P == Deployment.Protocol(sys) && w.Valid() && WorkerOf(w.model, me).Idle?
    modifies w, w.db
    ensures w.Valid() && WorkerOf(w.model, me).Idle?
    ensures Own(Publishing(me), w.trace) == old(Own(Publishing(me), w.trace)) + acts
    ensures ok ==> |events| <= limit && TickActs(me, acts, name, limit, events)
    ensures !ok ==> events == [] && Unheard(me, acts, name, limit)
    ensures limit < 0 ==> !ok && acts == []
    ensures Accounts(old(w.book), w.book, acts, if ok then 0 else 1)
  {
    var r, claimedAt, claim := ClaimBatch(w, me, name, limit);
    if r.Err? {
      return false, [], claim;
    }
    ghost var book := w.book;
    var steps := PublishAll(w, me, sys, name, claimedAt, r.value);
    AccountsAdd(old(w.book), book, w.book, claim, steps, 0, 0);
    ConcatAssociates(old(Own(Publishing(me), w.trace)), claim, steps);
    ClaimThenEvents(me, claim, steps, name, limit, r.value);
    return true, r.value, claim + steps;
  }

  /** One tick: a claim, and an attempt at every event it claimed. */
  method PublishPending(w: World, me: nat, sys: Deployment.System, workerId: string, batchSize: int)
    returns (ok: bool, events: seq<Claimed>, acts: seq<Action>)
    requires w.P == Deployment.Protocol(sys) && w.Valid() && WorkerOf(w.model, me).Idle?
    modifies w, w.db
    ensures w.Valid() && WorkerOf(w.model, me).Idle?
    ensures Own(Publishing(me), w.trace) == old(Own(Publishing(me), w.trace)) + acts
    ensures ok ==> |events| <= ClaimLimit(batchSize) && TickActs(me, acts, workerId, ClaimLimit(batchSize), events)
    ensures !ok ==> events == [] && Unheard(me, acts, workerId, ClaimLimit(batchSize))
    ensures ClaimLimit(batchSize) < 0 ==> !ok && acts == []
    ensures Accounts(old(w.book), w.book, acts, if ok then 0 else 1)
  {
    var size := batchSize;
    if size <= 0 {
      size := DEFAULT_BATCH_SIZE;
    }
    var limit := Int32(size);
    assert limit == ClaimLimit(batchSize);
    ok, events, acts := ClaimAndPublish(w, me, sys, workerId, limit);
  }

  /** What one tick did: the events it claimed and its own steps; a failed tick claimed none that it knows of. */
  datatype TickLog = TickLog(ok: bool, events: seq<Claimed>, acts: seq<Action>)

  predicate LoggedTick(me: nat, name: string, tick: TickLog) {
    if tick.ok then
      |tick.events| <= Ticks.BATCH && TickActs(me, tick.acts, name, Ticks.BATCH, tick.events)
    else
      tick.events == [] && Unheard(me, tick.acts, name, Ticks.BATCH)
  }

  function AllActs(ticks: seq<TickLog>): seq<Action> {
    if ticks == [] then [] else AllActs(ticks[..|ticks| - 1]) + ticks[|ticks| - 1].acts
  }

  function FailedTicks(ticks: seq<TickLog>): nat {
    if ticks == [] then 0 else FailedTicks(ticks[..|ticks| - 1]) + (if ticks[|ticks| - 1].ok then 0 else 1)
  }

  /** Every tick is such as `LoggedTick` says. */
  predicate Logged(me: nat, name: string, log: seq<TickLog>) {
    log == [] || (Logged(me, name, log[..|log| - 1]) && LoggedTick(me, name, log[|log| - 1]))
  }

  /** One tick of the loop. */
  method RunTick(w: World, me: nat, sys: Deployment.System, workerId: string) returns (tick: TickLog)
    requires w.P == Deployment.Protocol(sys) && w.Valid() && WorkerOf(w.model, me).Idle?
    modifies w, w.db
    ensures w.Valid() && WorkerOf(w.model, me).Idle? && LoggedTick(me, workerId, tick)
    ensures Own(Publishing(me), w.trace) == old(Own(Publishing(me), w.trace)) + tick.acts
    ensures Accounts(old(w.book), w.book, tick.acts, if tick.ok then 0 else 1)
  {
    var ok, events, acts := PublishPending(w, me, sys, workerId, Ticks.BATCH);
    tick := TickLog(ok, events, acts);
  }

  /** What the worker has done since its start, `own`, is what the log says. */
  predicate SoFar(me: nat, name: string, own: seq<Action>, before: Book, after: Book, log: seq<TickLog>) {
    Logged(me, name, log) && Accounts(before, after, AllActs(log), FailedTicks(log)) && own == AllActs(log)
  }

  lemma OneMoreTick(me: nat, name: string, own: seq<Action>, a: Book, b: Book, c: Book, log: seq<TickLog>, tick: TickLog)
    requires SoFar(me, name, own, a, b, log) && LoggedTick(me, name, tick)
    requires Accounts(b, c, tick.acts, if tick.ok then 0 else 1)
    ensures SoFar(me, name, own + tick.acts, a, c, log + [tick])
  {
    AccountsAdd(a, b, c, AllActs(log), tick.acts, FailedTicks(log), if tick.ok then 0 else 1);
    assert (log + [tick])[..|log|] == log;
  }

  /** Some number of ticks; a failed one is only logged. */
  method RunTicks(w: World, me: nat, sys: Deployment.System, workerId: string, ticks: nat) returns (log: seq<TickLog>)
    requires w.P == Deployment.Protocol(sys) && w.Valid() && WorkerOf(w.model, me).Idle?
    modifies w, w.db
    ensures w.Valid() && WorkerOf(w.model, me).Idle?
    ensures |log| == ticks && Logged(me, workerId, log) && Accounts(old(w.book), w.book, AllActs(log), FailedTicks(log))
    ensures Own(Publishing(me), w.trace) == old(Own(Publishing(me), w.trace)) + AllActs(log)
  {
    ghost var start, own := Own(Publishing(me), w.trace), [];
    log := [];
    assert start + own == start;
    for i := 0 to ticks
      invariant w.Valid() && WorkerOf(w.model, me).Idle? && |log| == i
      invariant SoFar(me, workerId, own, old(w.book), w.book, log) && Own(Publishing(me), w.trace) == start + own
    {
      ghost var book := w.book;
      var tick := RunTick(w, me, sys, workerId);
      OneMoreTick(me, workerId, own, old(w.book), book, w.book, log, tick);
      ConcatAssociates(start, own, tick.acts);
      log, own := log + [tick], own + tick.acts;
    }
  }

  /** The worker's life, up to some number of ticks. */
  method RunWorker(w: World, me: nat, sys: Deployment.System, instanceId: string, ticks: nat) returns (log: seq<TickLog>)
    requires w.P == Deployment.Protocol(sys) && w.Valid() && WorkerOf(w.model, me).Idle?
    modifies w, w.db
    ensures w.Valid() && WorkerOf(w.model, me).Idle?
    ensures |log| == ticks && Logged(me, WORKER_ID_PREFIX + instanceId, log)
    ensures Accounts(old(w.book), w.book, AllActs(log), FailedTicks(log))
    ensures Own(Publishing(me), w.trace) == old(Own(Publishing(me), w.trace)) + AllActs(log)
  {
    log := RunTicks(w, me, sys, WORKER_ID_PREFIX + instanceId, ticks);
  }
}
