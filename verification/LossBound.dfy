/**
 What the client's flush of uncommitted offsets has to keep to: whatever it makes of how far a partition is processed and
 polled, records are safe exactly if it commits nothing beyond what is processed.
 */
module LossBound {
  import opened Prelude
  import opened Kafka
  import opened Courier
  import opened IntakeSafety
  import opened Reach

  /** The k-th record of partition 0 does not repeat the event of an earlier one. */
  predicate FirstOfItsEvent(P: Params, k: nat) {
    P.verdict(Place(0, k)).Route? ==> !RowOfFirst(P, k, P.verdict(Place(0, k)).id)
  }

  /** No event comes twice in partition 0. */
  ghost predicate NoRepeats(P: Params) {
    forall k: nat :: FirstOfItsEvent(P, k)
  }

  /** With all before it processed, the flush may commit record a although it is not. */
  ghost predicate Overreaches(flush: FlushPolicy, a: nat) {
    exists b: nat, offset: nat :: a <= b && flush(a, b, offset) && offset > a
  }

  /** Consumer 0 has handled the first k records of partition 0, and nothing else has happened. */
  ghost predicate OnlyFirst(P: Params, s: State, k: nat) {
    && RestsAt(s, 0, 0, k) && s.consumers[0].position == map[0 := k]
    && s.redis == map[] && s.audit.deleted == map[]
    && (forall place :: place in s.dlq ==> place.partition == 0 && place.offset < k)
    && forall id :: id in s.table ==> RowOfFirst(P, k, id)
  }

  predicate RowOfFirst(P: Params, k: nat, id: Uuid) {
    exists j: nat :: j < k && P.verdict(Place(0, j)).Route? && P.verdict(Place(0, j)).id == id
  }

  lemma OneMoreFirst(P: Params, s: State, k: nat)
    requires OnlyFirst(P, s, k)
    ensures OnlyFirst(P, AfterRecord(P, s, 0, 0, k), k + 1)
  {
    var s' := AfterRecord(P, s, 0, 0, k);
    RecordHandled(P, s, 0, 0, k);
    assert map[0 := k][0 := k + 1] == map[0 := k + 1];
    forall id | id in s'.table ensures RowOfFirst(P, k + 1, id) {
      if id in s.table {
        assert RowOfFirst(P, k, id);
      } else {
        assert P.verdict(Place(0, k)).Route? && P.verdict(Place(0, k)).id == id;
      }
    }
  }

  lemma NothingYet(P: Params, now: Time)
    ensures OnlyFirst(P, Run(P, Initial(now), [ByConsumer(0, Assign(0))]), 0)
  {
    SingleStep(P, Initial(now), ByConsumer(0, Assign(0)));
    PartitionTaken(P, Initial(now), 0, 0);
  }

  lemma OneFurther(P: Params, now: Time, actions: seq<Action>, k: nat) returns (further: seq<Action>)
    requires OnlyFirst(P, Run(P, Initial(now), actions), k)
    ensures OnlyFirst(P, Run(P, Initial(now), further), k + 1)
  {
    var s := Run(P, Initial(now), actions);
    RecordHandled(P, s, 0, 0, k);
    OneMoreFirst(P, s, k);
    RunConcat(P, Initial(now), actions, HandleActs(P, 0, 0, k, s.now));
    further := actions + HandleActs(P, 0, 0, k, s.now);
  }

  lemma {:induction false} HandledUpTo(P: Params, now: Time, k: nat) returns (actions: seq<Action>)
    ensures OnlyFirst(P, Run(P, Initial(now), actions), k)
  {
    if k == 0 {
      NothingYet(P, now);
      actions := [ByConsumer(0, Assign(0))];
    } else {
      actions := HandledUpTo(P, now, k - 1);
      actions := OneFurther(P, now, actions, k - 1);
    }
  }

  lemma NextIsUnhandled(P: Params, s: State, k: nat)
    requires OnlyFirst(P, s, k) && FirstOfItsEvent(P, k)
    ensures !Handled(P, Ever(s), s.dlq, Place(0, k))
  {
  }

  /** The records from a up to b. */
  function Span(a: nat, b: nat): seq<Place>
    decreases b - a
  {
    if a >= b then [] else [Place(0, a)] + Span(a + 1, b)
  }

  lemma {:induction false} SpanIsFetchable(a: nat, b: nat)
    requires a <= b
    ensures Fetchable(map[0 := a], Span(a, b)) && Advanced(map[0 := a], Span(a, b)) == map[0 := b]
    ensures Processed(b, Span(a, b), 0) == a
    decreases b - a
  {
    if a < b {
      SpanIsFetchable(a + 1, b);
      assert Span(a, b)[1..] == Span(a + 1, b);
      assert map[0 := a][0 := a + 1] == map[0 := a + 1];
    }
  }

  /** The consumer polls on, stops, and the flush commits. */
  lemma FlushedBeyond(P: Params, s: State, a: nat, b: nat, offset: nat)
    requires OnlyFirst(P, s, a) && a <= b && P.flush(a, b, offset)
    ensures var polled := Step(P, s, ByConsumer(0, Poll(Span(a, b))));
      var stopped := Step(P, polled, ByConsumer(0, Cancel));
      var flushed := Step(P, stopped, ByConsumer(0, Flush(0, offset)));
      && flushed.committed == s.committed[0 := offset] && flushed.dlq == s.dlq && Ever(flushed) == Ever(s)
  {
    SpanIsFetchable(a, b);
    var polled := Step(P, s, ByConsumer(0, Poll(Span(a, b))));
    assert polled == WithConsumer(s, 0, Consumer(map[0 := b], Span(a, b), 0, Ready));
    var stopped := Step(P, polled, ByConsumer(0, Cancel));
    WithConsumerTwice(s, 0, polled.consumers[0], polled.consumers[0].(pc := Stopping));
    assert Span(a, b)[0..] == Span(a, b);
    assert MayFlush(P.flush, stopped.consumers[0], 0, offset);
  }

  /** A flush that may commit an unprocessed record does lose it, unless it repeats an earlier one's event. */
  lemma ImprudentFlushLoses(P: Params, now: Time, a: nat) returns (actions: seq<Action>)
    requires Overreaches(P.flush, a) && FirstOfItsEvent(P, a)
    ensures !NothingLost(P, Run(P, Initial(now), actions))
  {
    var b: nat, offset: nat :| a <= b && P.flush(a, b, offset) && offset > a;
    actions := HandledUpTo(P, now, a);
    var s := Run(P, Initial(now), actions);
    NextIsUnhandled(P, s, a);
    FlushedBeyond(P, s, a, b, offset);
    RunStep(P, Initial(now), actions, ByConsumer(0, Poll(Span(a, b))));
    actions := actions + [ByConsumer(0, Poll(Span(a, b)))];
    RunStep(P, Initial(now), actions, ByConsumer(0, Cancel));
    actions := actions + [ByConsumer(0, Cancel)];
    RunStep(P, Initial(now), actions, ByConsumer(0, Flush(0, offset)));
    actions := actions + [ByConsumer(0, Flush(0, offset))];
    assert 0 in Run(P, Initial(now), actions).committed;
  }

  lemma SomewhereTooFar(P: Params)
    requires !Prudent(P.flush) && (NoRepeats(P) || Overreaches(P.flush, 0))
    ensures exists a: nat :: Overreaches(P.flush, a) && FirstOfItsEvent(P, a)
  {
    var a: nat, b: nat, offset: nat :| a <= b && P.flush(a, b, offset) && offset > a;
    assert Overreaches(P.flush, a);
    assert FirstOfItsEvent(P, 0);
  }

  /**
   No record is lost in any run exactly when the flush commits nothing beyond what is processed. A repetition could make up
   for a loss, so either there is none, or the flush goes too far for the first record already.
   */
  lemma NothingLostIff(P: Params, now: Time)
    requires MarkNamesRow(P) && (NoRepeats(P) || Overreaches(P.flush, 0))
    ensures Prudent(P.flush) <==> forall actions :: NothingLost(P, Run(P, Initial(now), actions))
  {
    if Prudent(P.flush) {
      forall actions ensures NothingLost(P, Run(P, Initial(now), actions)) {
        IntakeAlways(P, now, actions);
      }
    } else {
      SomewhereTooFar(P);
      var a: nat :| Overreaches(P.flush, a) && FirstOfItsEvent(P, a);
      var actions := ImprudentFlushLoses(P, now, a);
    }
  }
}
