/**
 What the intake half keeps over every run: no record is lost, none is both dead-lettered
 and routed, and the outbox is the one that insert-if-absent alone would have built.
 */
module IntakeSafety {
  import opened Prelude
  import opened Outbox
  import opened Kafka
  import opened Courier

  /** Every row there is or has been. */
  function Ever(s: State): set<Uuid> {
    s.table.Keys + s.audit.deleted.Keys
  }

  /** A record is dealt with: in the dead-letter topic, or its row has been durable. */
  predicate Handled(P: Params, ever: set<Uuid>, dlq: seq<Place>, place: Place) {
    match P.verdict(place)
    case DeadLetter => place in dlq
    case Route(_, id, _, _) => id in ever
  }

  /** Two records with one Redis mark name one row. */
  ghost predicate MarkNamesRow(P: Params) {
    forall a, b :: P.verdict(a).Route? && P.verdict(b).Route? && P.verdict(a).mark == P.verdict(b).mark ==>
      P.verdict(a).id == P.verdict(b).id
  }

  /** The flush commits nothing beyond what is processed. */
  ghost predicate Prudent(flush: FlushPolicy) {
    forall processed: nat, polled: nat, offset: nat :: processed <= polled && flush(processed, polled, offset) ==> offset <= processed
  }

  /** Everything below the position is dealt with or still waiting in the batch; likewise below each waiting record. */
  ghost predicate GapFree(P: Params, ever: set<Uuid>, dlq: seq<Place>, con: Consumer)
    requires con.next <= |con.batch|
  {
    && (forall p, k :: p in con.position && 0 <= k < con.position[p] ==>
          Handled(P, ever, dlq, Place(p, k)) || Place(p, k) in con.batch[con.next..])
    && (forall i, k :: con.next <= i < |con.batch| && 0 <= k < con.batch[i].offset ==>
          var below := Place(con.batch[i].partition, k);
          Handled(P, ever, dlq, below) || below in con.batch[con.next..i])
    && (con.pc.Committing? ==>
          forall k :: 0 <= k <= con.pc.done.offset ==> Handled(P, ever, dlq, Place(con.pc.done.partition, k)))
  }

  /** What holds of each consumer; the gap-freedom only when flushes stop at the processed prefix. */
  ghost predicate ConsumerSound(P: Params, ever: set<Uuid>, dlq: seq<Place>, con: Consumer) {
    && con.next <= |con.batch|
    && (Prudent(P.flush) ==> GapFree(P, ever, dlq, con))
    && (con.pc.Checking? || con.pc.Inserting? || con.pc.Marking? ==>
          HasRecord(con) && P.verdict(con.batch[con.next]).Route?)
    && (con.pc.DeadLettering? ==> HasRecord(con) && P.verdict(con.batch[con.next]).DeadLetter?)
    && (con.pc.Marking? ==> P.verdict(con.batch[con.next]).id in ever)
  }

  /** Every record below a committed offset is dealt with. */
  ghost predicate CommitsSound(P: Params, ever: set<Uuid>, dlq: seq<Place>, committed: map<nat, nat>) {
    forall p, k :: p in committed && 0 <= k < committed[p] ==> Handled(P, ever, dlq, Place(p, k))
  }

  ghost predicate MarksSound(P: Params, ever: set<Uuid>, redis: map<string, Time>) {
    forall pl :: P.verdict(pl).Route? && P.verdict(pl).mark in redis ==> P.verdict(pl).id in ever
  }

  ghost predicate DeliverySound(P: Params, ever: set<Uuid>, d: Delivery) {
    && P.verdict(d.place).Route? && P.verdict(d.place).id == d.id && P.verdict(d.place).content == d.content
    && d.id in ever
  }

  ghost predicate IntakeInv(P: Params, s: State) {
    && (forall c :: c in s.consumers ==> ConsumerSound(P, Ever(s), s.dlq, s.consumers[c]))
    && (Prudent(P.flush) ==> CommitsSound(P, Ever(s), s.dlq, s.committed))
    && MarksSound(P, Ever(s), s.redis)
    && (forall pl :: pl in s.dlq ==> P.verdict(pl).DeadLetter?)
    && (forall d :: d in s.audit.deliveries ==> DeliverySound(P, Ever(s), d))
  }

  lemma ConsumerSoundStays(P: Params, ever: set<Uuid>, dlq: seq<Place>, ever': set<Uuid>, dlq': seq<Place>, con: Consumer)
    requires ever <= ever' && dlq <= dlq' && ConsumerSound(P, ever, dlq, con)
    ensures ConsumerSound(P, ever', dlq', con)
  {
    assert forall pl :: Handled(P, ever, dlq, pl) ==> Handled(P, ever', dlq', pl);
  }

  /** What one step may do to the facts above: the row set, the dead letters and the deliveries only grow. */
  ghost predicate Grows(s: State, s': State) {
    Ever(s) <= Ever(s') && s.dlq <= s'.dlq && s.audit.deliveries <= s'.audit.deliveries
  }

  lemma CheckGrows(P: Params, s: State, c: nat, con: Consumer, answered: bool)
    ensures Grows(s, CheckStep(P, s, c, con, answered))
  {
  }

  lemma InsertGrows(P: Params, s: State, c: nat, con: Consumer, outcome: Outcome, createdAt: Time)
    ensures Grows(s, InsertStep(P, s, c, con, outcome, createdAt))
  {
  }

  lemma MarkGrows(P: Params, s: State, c: nat, con: Consumer, written: bool)
    ensures Grows(s, MarkStep(P, s, c, con, written))
  {
  }

  lemma FetchingGrows(P: Params, s: State, c: nat, act: ConsumerAct)
    requires act.CrashConsumer? || act.Assign? || act.Poll? || act.Begin?
    ensures Grows(s, ConsumerStep(P, s, c, act))
  {
    match act
    case CrashConsumer =>
    case Assign(p) =>
    case Poll(batch) =>
    case Begin =>
  }

  lemma EndingGrows(P: Params, s: State, c: nat, act: ConsumerAct)
    requires act.BuryRecord? || act.Cancel? || act.Commit? || act.Flush?
    ensures Grows(s, ConsumerStep(P, s, c, act))
  {
    match act
    case BuryRecord(outcome) =>
    case Cancel =>
    case Commit(outcome) =>
    case Flush(p, offset) =>
  }

  lemma ConsumerGrows(P: Params, s: State, c: nat, act: ConsumerAct)
    ensures Grows(s, ConsumerStep(P, s, c, act))
  {
    match act
    case Check(answered) => CheckGrows(P, s, c, ConsumerOf(s, c), answered);
    case Insert(outcome, createdAt) => InsertGrows(P, s, c, ConsumerOf(s, c), outcome, createdAt);
    case Mark(written) => MarkGrows(P, s, c, ConsumerOf(s, c), written);
    case CrashConsumer => FetchingGrows(P, s, c, act);
    case Assign(p) => FetchingGrows(P, s, c, act);
    case Poll(batch) => FetchingGrows(P, s, c, act);
    case Begin => FetchingGrows(P, s, c, act);
    case _ => EndingGrows(P, s, c, act);
  }

  lemma MarkRowGrows(s: State, w: nat, applied: bool)
    ensures Grows(s, MarkRowStep(s, w, applied))
  {
  }

  lemma WorkerGrows(P: Params, s: State, w: nat, act: WorkerAct)
    ensures Grows(s, WorkerStep(P, s, w, act))
  {
    match act
    case Claim(name, limit, skip, order, reported) =>
    case Send(outcome, clock, cause) =>
    case MarkRow(applied) => MarkRowGrows(s, w, applied);
    case CrashWorker =>
  }

  lemma WorldGrows(P: Params, s: State, e: Event)
    ensures Grows(s, WorldStep(P, s, e))
  {
  }

  // What each consumer transition does to ConsumerSound.

  lemma PauseSound(P: Params, ever: set<Uuid>, dlq: seq<Place>, con: Consumer, pc: ConsumerPc)
    requires ConsumerSound(P, ever, dlq, con)
    requires pc.Ready? || pc.Stopping?
    ensures ConsumerSound(P, ever, dlq, con.(pc := pc))
  {
  }

  /** A position taken from a sound commit is as good as one reached by processing. */
  lemma AssignSound(P: Params, ever: set<Uuid>, dlq: seq<Place>, con: Consumer, p: nat, offset: nat)
    requires ConsumerSound(P, ever, dlq, con)
    requires Prudent(P.flush) ==> forall k :: 0 <= k < offset ==> Handled(P, ever, dlq, Place(p, k))
    ensures ConsumerSound(P, ever, dlq, con.(position := con.position[p := offset]))
  {
  }

  /** A fetched batch leaves no gap: what lies below one of its records, or below the new position, was below the
      old position or comes earlier in the batch. */
  lemma {:induction false} FetchLeavesNoGap(position: map<nat, nat>, batch: seq<Place>)
    requires Fetchable(position, batch)
    ensures forall i, k :: 0 <= i < |batch| && 0 <= k < batch[i].offset ==>
      var p := batch[i].partition;
      (p in position && k < position[p]) || Place(p, k) in batch[..i]
    ensures forall p, k :: p in Advanced(position, batch) && 0 <= k < Advanced(position, batch)[p] ==>
      (p in position && k < position[p]) || Place(p, k) in batch
    decreases |batch|
  {
    if batch != [] {
      var head, rest := batch[0], batch[1..];
      var moved := position[head.partition := head.offset + 1];
      FetchLeavesNoGap(moved, rest);
      forall i, k | 0 <= i < |batch| && 0 <= k < batch[i].offset
        ensures var p := batch[i].partition;
          (p in position && k < position[p]) || Place(p, k) in batch[..i]
      {
        var p := batch[i].partition;
        if i > 0 {
          assert batch[..i] == [head] + rest[..i - 1];
          assert batch[i] == rest[i - 1];
          if p in moved && k < moved[p] && !(p in position && k < position[p]) {
            assert Place(p, k) == head;
          }
        }
      }
      forall p, k | p in Advanced(position, batch) && 0 <= k < Advanced(position, batch)[p]
        ensures (p in position && k < position[p]) || Place(p, k) in batch
      {
        if p in moved && k < moved[p] && !(p in position && k < position[p]) {
          assert Place(p, k) == head;
        }
      }
    }
  }

  lemma PollSound(P: Params, ever: set<Uuid>, dlq: seq<Place>, con: Consumer, batch: seq<Place>)
    requires ConsumerSound(P, ever, dlq, con) && con.next == |con.batch| && Fetchable(con.position, batch)
    ensures ConsumerSound(P, ever, dlq, Consumer(Advanced(con.position, batch), batch, 0, Ready))
  {
    FetchLeavesNoGap(con.position, batch);
    assert con.batch[con.next..] == [];
    assert batch[0..] == batch;
    assert forall i :: 0 <= i <= |batch| ==> batch[0..i] == batch[..i];
  }

  lemma FinishSound(P: Params, ever: set<Uuid>, dlq: seq<Place>, con: Consumer)
    requires ConsumerSound(P, ever, dlq, con) && HasRecord(con) && Handled(P, ever, dlq, con.batch[con.next])
    ensures ConsumerSound(P, ever, dlq, Finished(con))
  {
    var at, n := con.batch[con.next], con.next;
    assert at == Place(at.partition, at.offset);
    if Prudent(P.flush) {
      forall p, k | p in con.position && 0 <= k < con.position[p]
        ensures Handled(P, ever, dlq, Place(p, k)) || Place(p, k) in con.batch[n + 1..]
      {
        assert con.batch[n..] == [at] + con.batch[n + 1..];
      }
      forall i, k | n + 1 <= i < |con.batch| && 0 <= k < con.batch[i].offset
        ensures Handled(P, ever, dlq, Place(con.batch[i].partition, k)) || Place(con.batch[i].partition, k) in con.batch[n + 1..i]
      {
        assert con.batch[n..i] == [at] + con.batch[n + 1..i];
      }
      forall k | 0 <= k <= at.offset ensures Handled(P, ever, dlq, Place(at.partition, k)) {
        assert con.batch[n..n] == [];
      }
    }
  }

  /** The flush commits no further than the processed prefix. */
  lemma {:induction false} ProcessedIsBelow(position: nat, waiting: seq<Place>, p: nat)
    ensures Processed(position, waiting, p) <= position
    ensures forall i :: 0 <= i < |waiting| && waiting[i].partition == p ==> Processed(position, waiting, p) <= waiting[i].offset
  {
    if waiting != [] {
      ProcessedIsBelow(position, waiting[1..], p);
      assert forall i :: 0 < i < |waiting| ==> waiting[i] == waiting[1..][i - 1];
    }
  }

  lemma FlushSound(P: Params, ever: set<Uuid>, dlq: seq<Place>, con: Consumer, p: nat, offset: nat)
    requires ConsumerSound(P, ever, dlq, con) && Prudent(P.flush) && MayFlush(P.flush, con, p, offset)
    ensures forall k :: 0 <= k < offset ==> Handled(P, ever, dlq, Place(p, k))
  {
    var waiting := con.batch[con.next..];
    ProcessedIsBelow(con.position[p], waiting, p);
    forall k | 0 <= k < offset ensures Handled(P, ever, dlq, Place(p, k)) {
      assert Place(p, k) !in waiting;
    }
  }

  /** Puts the invariant back together after consumer c moved. */
  lemma Reassemble(P: Params, s: State, s': State, c: nat, con: Consumer)
    requires IntakeInv(P, s) && Grows(s, s')
    requires s'.consumers == s.consumers[c := con] && ConsumerSound(P, Ever(s'), s'.dlq, con)
    requires Prudent(P.flush) ==> CommitsSound(P, Ever(s'), s'.dlq, s'.committed)
    requires MarksSound(P, Ever(s'), s'.redis)
    requires forall pl :: pl in s'.dlq ==> P.verdict(pl).DeadLetter?
    requires forall d :: d in s'.audit.deliveries ==> DeliverySound(P, Ever(s'), d)
    ensures IntakeInv(P, s')
  {
    forall x | x in s'.consumers ensures ConsumerSound(P, Ever(s'), s'.dlq, s'.consumers[x]) {
      if x != c {
        ConsumerSoundStays(P, Ever(s), s.dlq, Ever(s'), s'.dlq, s.consumers[x]);
      }
    }
  }

  lemma FreshSound(P: Params, ever: set<Uuid>, dlq: seq<Place>)
    ensures ConsumerSound(P, ever, dlq, FRESH)
  {
  }

  lemma CommitsSoundStays(P: Params, ever: set<Uuid>, dlq: seq<Place>, ever': set<Uuid>, dlq': seq<Place>, committed: map<nat, nat>)
    requires ever <= ever' && dlq <= dlq'
    ensures CommitsSound(P, ever, dlq, committed) ==> CommitsSound(P, ever', dlq', committed)
  {
    assert forall pl :: Handled(P, ever, dlq, pl) ==> Handled(P, ever', dlq', pl);
  }

  /** Puts the invariant back together when only consumer c and the commits may differ. */
  lemma ReassembleLocal(P: Params, s: State, c: nat, con: Consumer, committed: map<nat, nat>)
    requires IntakeInv(P, s)
    requires ConsumerSound(P, Ever(s), s.dlq, con)
    requires Prudent(P.flush) ==> CommitsSound(P, Ever(s), s.dlq, committed)
    ensures IntakeInv(P, WithConsumer(s.(committed := committed), c, con))
    ensures IntakeInv(P, WithConsumer(s, c, con).(committed := committed))
  {
    Reassemble(P, s, WithConsumer(s.(committed := committed), c, con), c, con);
    Reassemble(P, s, WithConsumer(s, c, con).(committed := committed), c, con);
  }

  /** The mark is there: the record has been dealt with before. */
  lemma KnownMarkKeeps(P: Params, s: State, c: nat)
    requires IntakeInv(P, s) && ConsumerOf(s, c).pc.Checking? && HasRecord(ConsumerOf(s, c))
    requires var v := P.verdict(ConsumerOf(s, c).batch[ConsumerOf(s, c).next]); v.Route? && v.mark in s.redis
    ensures var con := ConsumerOf(s, c);
      var place := con.batch[con.next];
      IntakeInv(P, WithConsumer(Delivered(s, place, P.verdict(place)), c, Finished(con)))
  {
    var con := ConsumerOf(s, c);
    var place := con.batch[con.next];
    FreshSound(P, Ever(s), s.dlq);
    FinishSound(P, Ever(s), s.dlq, con);
    Reassemble(P, s, WithConsumer(Delivered(s, place, P.verdict(place)), c, Finished(con)), c, Finished(con));
  }

  lemma CheckKeeps(P: Params, s: State, c: nat, answered: bool)
    requires IntakeInv(P, s)
    ensures IntakeInv(P, CheckStep(P, s, c, ConsumerOf(s, c), answered))
  {
    var con := ConsumerOf(s, c);
    FreshSound(P, Ever(s), s.dlq);
    if con.pc.Checking? && HasRecord(con) {
      if !answered {
        PauseSound(P, Ever(s), s.dlq, con, Stopping);
        ReassembleLocal(P, s, c, con.(pc := Stopping), s.committed);
      } else if Live(s.redis, P.verdict(con.batch[con.next]).mark, s.now) {
        KnownMarkKeeps(P, s, c);
      } else {
        ReassembleLocal(P, s, c, con.(pc := Inserting), s.committed);
      }
    }
  }

  lemma InsertKeeps(P: Params, s: State, c: nat, outcome: Outcome, createdAt: Time)
    requires IntakeInv(P, s)
    ensures IntakeInv(P, InsertStep(P, s, c, ConsumerOf(s, c), outcome, createdAt))
  {
    var con, s' := ConsumerOf(s, c), InsertStep(P, s, c, ConsumerOf(s, c), outcome, createdAt);
    FreshSound(P, Ever(s), s.dlq);
    if s' != s {
      InsertGrows(P, s, c, con, outcome, createdAt);
      var v := P.verdict(con.batch[con.next]);
      assert s'.dlq == s.dlq && s'.committed == s.committed && s'.redis == s.redis;
      assert !outcome.Failed? ==> v.id in s'.table;
      ConsumerSoundStays(P, Ever(s), s.dlq, Ever(s'), s'.dlq, con);
      CommitsSoundStays(P, Ever(s), s.dlq, Ever(s'), s'.dlq, s.committed);
      Reassemble(P, s, s', c, s'.consumers[c]);
    }
  }

  lemma MarkKeeps(P: Params, s: State, c: nat, written: bool)
    requires IntakeInv(P, s) && MarkNamesRow(P)
    ensures IntakeInv(P, MarkStep(P, s, c, ConsumerOf(s, c), written))
  {
    var con, s' := ConsumerOf(s, c), MarkStep(P, s, c, ConsumerOf(s, c), written);
    FreshSound(P, Ever(s), s.dlq);
    if s' != s {
      MarkGrows(P, s, c, con, written);
      FinishSound(P, Ever(s), s.dlq, con);
      Reassemble(P, s, s', c, Finished(con));
    }
  }

  lemma BuryKeeps(P: Params, s: State, c: nat, outcome: Outcome)
    requires IntakeInv(P, s)
    ensures IntakeInv(P, ConsumerStep(P, s, c, BuryRecord(outcome)))
  {
    var con, s' := ConsumerOf(s, c), ConsumerStep(P, s, c, BuryRecord(outcome));
    FreshSound(P, Ever(s), s.dlq);
    if s' != s {
      ConsumerGrows(P, s, c, BuryRecord(outcome));
      ConsumerSoundStays(P, Ever(s), s.dlq, Ever(s'), s'.dlq, con);
      CommitsSoundStays(P, Ever(s), s.dlq, Ever(s'), s'.dlq, s.committed);
      if outcome.Done? {
        FinishSound(P, Ever(s'), s'.dlq, con);
      }
      Reassemble(P, s, s', c, s'.consumers[c]);
    }
  }

  /** The record just dealt with may be committed. */
  lemma CommitSound(P: Params, ever: set<Uuid>, dlq: seq<Place>, con: Consumer, committed: map<nat, nat>)
    requires ConsumerSound(P, ever, dlq, con) && CommitsSound(P, ever, dlq, committed)
    requires Prudent(P.flush) && con.pc.Committing?
    ensures CommitsSound(P, ever, dlq, committed[con.pc.done.partition := con.pc.done.offset + 1])
  {
  }

  lemma CommitKeeps(P: Params, s: State, c: nat, outcome: Outcome)
    requires IntakeInv(P, s)
    ensures IntakeInv(P, ConsumerStep(P, s, c, Commit(outcome)))
  {
    var con := ConsumerOf(s, c);
    FreshSound(P, Ever(s), s.dlq);
    if con.pc.Committing? {
      var at := con.pc.done;
      var committed := if outcome.Failed? then s.committed else s.committed[at.partition := at.offset + 1];
      var pc := if outcome.Done? then Ready else Stopping;
      PauseSound(P, Ever(s), s.dlq, con, pc);
      if Prudent(P.flush) {
        CommitSound(P, Ever(s), s.dlq, con, s.committed);
      }
      ReassembleLocal(P, s, c, con.(pc := pc), committed);
    }
  }

  /** Taking up partitions, batches and records. */
  lemma FetchingKeeps(P: Params, s: State, c: nat, act: ConsumerAct)
    requires IntakeInv(P, s) && (act.Assign? || act.Poll? || act.Begin?)
    ensures IntakeInv(P, ConsumerStep(P, s, c, act))
  {
    var con := ConsumerOf(s, c);
    FreshSound(P, Ever(s), s.dlq);
    match act
    case Assign(p) =>
      AssignSound(P, Ever(s), s.dlq, con, p, Count(s.committed, p));
      ReassembleLocal(P, s, c, con.(position := con.position[p := Count(s.committed, p)]), s.committed);
    case Poll(batch) =>
      if con.pc.Ready? && con.next == |con.batch| && Fetchable(con.position, batch) {
        PollSound(P, Ever(s), s.dlq, con, batch);
        ReassembleLocal(P, s, c, Consumer(Advanced(con.position, batch), batch, 0, Ready), s.committed);
      }
    case Begin =>
      if con.pc.Ready? && HasRecord(con) {
        ReassembleLocal(P, s, c, ConsumerStep(P, s, c, act).consumers[c], s.committed);
      }
  }

  /** Stopping and crashing. */
  lemma EndingKeeps(P: Params, s: State, c: nat, act: ConsumerAct)
    requires IntakeInv(P, s) && (act.Cancel? || act.CrashConsumer?)
    ensures IntakeInv(P, ConsumerStep(P, s, c, act))
  {
    var con := ConsumerOf(s, c);
    FreshSound(P, Ever(s), s.dlq);
    match act
    case CrashConsumer => ReassembleLocal(P, s, c, FRESH, s.committed);
    case Cancel =>
      PauseSound(P, Ever(s), s.dlq, con, Stopping);
      ReassembleLocal(P, s, c, con.(pc := Stopping), s.committed);
  }

  lemma FlushKeeps(P: Params, s: State, c: nat, p: nat, offset: nat)
    requires IntakeInv(P, s)
    ensures IntakeInv(P, ConsumerStep(P, s, c, Flush(p, offset)))
  {
    var con := ConsumerOf(s, c);
    FreshSound(P, Ever(s), s.dlq);
    if con.pc.Stopping? && MayFlush(P.flush, con, p, offset) {
      if Prudent(P.flush) {
        FlushSound(P, Ever(s), s.dlq, con, p, offset);
      }
      ReassembleLocal(P, s, c, con, s.committed[p := offset]);
      assert s.consumers[c := con] == s.consumers;
    }
  }

  lemma ConsumerKeeps(P: Params, s: State, c: nat, act: ConsumerAct)
    requires IntakeInv(P, s) && MarkNamesRow(P)
    ensures IntakeInv(P, ConsumerStep(P, s, c, act))
  {
    match act
    case Check(answered) => CheckKeeps(P, s, c, answered);
    case Insert(outcome, createdAt) => InsertKeeps(P, s, c, outcome, createdAt);
    case Mark(written) => MarkKeeps(P, s, c, written);
    case BuryRecord(outcome) => BuryKeeps(P, s, c, outcome);
    case Commit(outcome) => CommitKeeps(P, s, c, outcome);
    case Cancel => EndingKeeps(P, s, c, act);
    case Flush(p, offset) => FlushKeeps(P, s, c, p, offset);
    case CrashConsumer => EndingKeeps(P, s, c, act);
    case _ => FetchingKeeps(P, s, c, act);
  }

  /** A step that moves no consumer and adds no mark, commit, dead letter or delivery. */
  lemma UnrelatedKeeps(P: Params, s: State, s': State)
    requires IntakeInv(P, s) && Grows(s, s')
    requires s'.consumers == s.consumers && s'.committed == s.committed && s'.dlq == s.dlq
    requires s'.audit.deliveries == s.audit.deliveries && s'.redis.Keys <= s.redis.Keys
    ensures IntakeInv(P, s')
  {
    forall x | x in s'.consumers ensures ConsumerSound(P, Ever(s'), s'.dlq, s'.consumers[x]) {
      ConsumerSoundStays(P, Ever(s), s.dlq, Ever(s'), s'.dlq, s.consumers[x]);
    }
    CommitsSoundStays(P, Ever(s), s.dlq, Ever(s'), s'.dlq, s.committed);
  }

  /** The fields that only consumers and the outside world change. */
  ghost predicate IntakeUntouched(s: State, s': State) {
    && s'.consumers == s.consumers && s'.committed == s.committed && s'.dlq == s.dlq
    && s'.audit.deliveries == s.audit.deliveries && s'.redis == s.redis
    && s'.now == s.now && s'.audit.deleted == s.audit.deleted
  }

  lemma MarkRowLeavesIntake(s: State, w: nat, applied: bool)
    ensures IntakeUntouched(s, MarkRowStep(s, w, applied))
  {
  }

  lemma SendLeavesIntake(P: Params, s: State, w: nat, outcome: Outcome, clock: Time, cause: string)
    ensures IntakeUntouched(s, SendStep(P, s, w, outcome, clock, cause))
  {
  }

  lemma WorkerLeavesIntake(P: Params, s: State, w: nat, act: WorkerAct)
    ensures IntakeUntouched(s, WorkerStep(P, s, w, act))
  {
    match act
    case Claim(name, limit, skip, order, reported) =>
    case Send(outcome, clock, cause) => SendLeavesIntake(P, s, w, outcome, clock, cause);
    case MarkRow(applied) => MarkRowLeavesIntake(s, w, applied);
    case CrashWorker =>
  }

  lemma WorkerKeeps(P: Params, s: State, w: nat, act: WorkerAct)
    requires IntakeInv(P, s)
    ensures IntakeInv(P, WorkerStep(P, s, w, act))
  {
    WorkerGrows(P, s, w, act);
    WorkerLeavesIntake(P, s, w, act);
    UnrelatedKeeps(P, s, WorkerStep(P, s, w, act));
  }

  lemma WorldKeeps(P: Params, s: State, e: Event)
    requires IntakeInv(P, s)
    ensures IntakeInv(P, WorldStep(P, s, e))
  {
    WorldGrows(P, s, e);
    UnrelatedKeeps(P, s, WorldStep(P, s, e));
  }

  lemma StepKeeps(P: Params, s: State, a: Action)
    requires IntakeInv(P, s) && MarkNamesRow(P)
    ensures IntakeInv(P, Step(P, s, a))
  {
    match a
    case ByConsumer(c, act) => ConsumerKeeps(P, s, c, act);
    case ByWorker(w, act) => WorkerKeeps(P, s, w, act);
    case ByWorld(e) => WorldKeeps(P, s, e);
  }

  lemma {:induction false} IntakeAlways(P: Params, now: Time, actions: seq<Action>)
    requires MarkNamesRow(P)
    ensures IntakeInv(P, Run(P, Initial(now), actions))
    decreases |actions|
  {
    if actions != [] {
      var init := actions[..|actions| - 1];
      IntakeAlways(P, now, init);
      StepKeeps(P, Run(P, Initial(now), init), actions[|actions| - 1]);
    }
  }

  /** Every row there is or has been was delivered. */
  ghost predicate RowsDelivered(s: State) {
    forall id :: id in Ever(s) ==> exists d :: d in s.audit.deliveries && d.id == id
  }

  lemma InsertDelivers(P: Params, s: State, c: nat, con: Consumer, outcome: Outcome, createdAt: Time)
    requires RowsDelivered(s)
    ensures RowsDelivered(InsertStep(P, s, c, con, outcome, createdAt))
  {
    var s' := InsertStep(P, s, c, con, outcome, createdAt);
    InsertGrows(P, s, c, con, outcome, createdAt);
    forall id | id in Ever(s') ensures exists d :: d in s'.audit.deliveries && d.id == id {
      if id in Ever(s) {
        var d :| d in s.audit.deliveries && d.id == id;
        assert d in s'.audit.deliveries;
      } else {
        assert s'.audit.deliveries[|s.audit.deliveries|].id == id;
      }
    }
  }

  /** A step that adds no row. */
  lemma NoNewRows(s: State, s': State)
    requires RowsDelivered(s) && Ever(s') <= Ever(s) && s.audit.deliveries <= s'.audit.deliveries
    ensures RowsDelivered(s')
  {
    forall id | id in Ever(s') ensures exists d :: d in s'.audit.deliveries && d.id == id {
      var d :| d in s.audit.deliveries && d.id == id;
      assert d in s'.audit.deliveries;
    }
  }

  lemma CheckAddsNoRow(P: Params, s: State, c: nat, con: Consumer, answered: bool)
    ensures Ever(CheckStep(P, s, c, con, answered)) == Ever(s)
  {
  }

  lemma ConsumerAddsNoRow(P: Params, s: State, c: nat, act: ConsumerAct)
    requires !act.Insert?
    ensures Ever(ConsumerStep(P, s, c, act)) == Ever(s)
  {
    match act
    case Check(answered) => CheckAddsNoRow(P, s, c, ConsumerOf(s, c), answered);
    case Mark(written) =>
    case BuryRecord(outcome) =>
    case Commit(outcome) =>
    case _ =>
  }

  lemma MarkRowAddsNoRow(s: State, w: nat, applied: bool)
    ensures Ever(MarkRowStep(s, w, applied)) == Ever(s)
  {
  }

  lemma WorkerAddsNoRow(P: Params, s: State, w: nat, act: WorkerAct)
    ensures Ever(WorkerStep(P, s, w, act)) == Ever(s)
  {
    match act
    case Claim(name, limit, skip, order, reported) =>
    case Send(outcome, clock, cause) =>
    case MarkRow(applied) => MarkRowAddsNoRow(s, w, applied);
    case CrashWorker =>
  }

  lemma ConsumerDeliversRows(P: Params, s: State, c: nat, act: ConsumerAct)
    requires RowsDelivered(s)
    ensures RowsDelivered(ConsumerStep(P, s, c, act))
  {
    if act.Insert? {
      InsertDelivers(P, s, c, ConsumerOf(s, c), act.outcome, act.createdAt);
    } else {
      ConsumerGrows(P, s, c, act);
      ConsumerAddsNoRow(P, s, c, act);
      NoNewRows(s, ConsumerStep(P, s, c, act));
    }
  }

  lemma WorkerDeliversRows(P: Params, s: State, w: nat, act: WorkerAct)
    requires RowsDelivered(s)
    ensures RowsDelivered(WorkerStep(P, s, w, act))
  {
    WorkerGrows(P, s, w, act);
    WorkerAddsNoRow(P, s, w, act);
    NoNewRows(s, WorkerStep(P, s, w, act));
  }

  lemma WorldDeliversRows(P: Params, s: State, e: Event)
    requires RowsDelivered(s)
    ensures RowsDelivered(WorldStep(P, s, e))
  {
    WorldGrows(P, s, e);
    NoNewRows(s, WorldStep(P, s, e));
  }

  lemma StepDeliversRows(P: Params, s: State, a: Action)
    requires RowsDelivered(s)
    ensures RowsDelivered(Step(P, s, a))
  {
    match a
    case ByConsumer(c, act) => ConsumerDeliversRows(P, s, c, act);
    case ByWorker(w, act) => WorkerDeliversRows(P, s, w, act);
    case ByWorld(e) => WorldDeliversRows(P, s, e);
  }

  lemma {:induction false} RowsDeliveredAlways(P: Params, now: Time, actions: seq<Action>)
    ensures RowsDelivered(Run(P, Initial(now), actions))
    decreases |actions|
  {
    if actions != [] {
      RowsDeliveredAlways(P, now, actions[..|actions| - 1]);
      StepDeliversRows(P, Run(P, Initial(now), actions[..|actions| - 1]), actions[|actions| - 1]);
    }
  }

  /** No record below a committed offset is missing. */
  ghost predicate NothingLost(P: Params, s: State) {
    CommitsSound(P, Ever(s), s.dlq, s.committed)
  }
}
