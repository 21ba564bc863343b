/** How a run gets somewhere: a consumer by itself handles the records of a partition one after the other. */
module Reach {
  import opened Prelude
  import opened Outbox
  import opened Kafka
  import opened Courier

  /** The consumer has handled the partition up to k and has nothing in hand. */
  predicate RestsAt(s: State, c: nat, p: nat, k: nat) {
    && c in s.consumers && s.consumers[c].pc.Ready? && s.consumers[c].next == |s.consumers[c].batch|
    && p in s.consumers[c].position && s.consumers[c].position[p] == k
  }

  /** The consumer with the record at k in hand, or just done with it. */
  function WithRecord(position: map<nat, nat>, p: nat, k: nat, next: nat, pc: ConsumerPc): Consumer {
    Consumer(position[p := k + 1], [Place(p, k)], next, pc)
  }

  /** Poll the record at k and see it through. */
  function HandleActs(P: Params, c: nat, p: nat, k: nat, now: Time): seq<Action> {
    var take := [ByConsumer(c, Poll([Place(p, k)])), ByConsumer(c, Begin)];
    take + (if P.verdict(Place(p, k)).DeadLetter? then BuryActs(c) else RouteActs(c, now))
  }

  function BuryActs(c: nat): seq<Action> {
    [ByConsumer(c, BuryRecord(Done)), ByConsumer(c, Commit(Done))]
  }

  function RouteActs(c: nat, now: Time): seq<Action> {
    [ByConsumer(c, Check(true)), ByConsumer(c, Insert(Done, now))] + [ByConsumer(c, Mark(false)), ByConsumer(c, Commit(Done))]
  }

  /** What has become of the record, wherever the consumer is. */
  function RecordGone(P: Params, s: State, place: Place): State {
    match P.verdict(place)
    case DeadLetter => s.(dlq := s.dlq + [place])
    case Route(_, id, _, content) =>
      Delivered(s.(table := Outbox.Insert(s.table, id, content, s.now)), place, P.verdict(place))
  }

  /** The state once the record at k is handled and committed. */
  function AfterRecord(P: Params, s: State, c: nat, p: nat, k: nat): State {
    WithConsumer(RecordGone(P, s, Place(p, k)).(committed := s.committed[p := k + 1]), c,
                 WithRecord(ConsumerOf(s, c).position, p, k, 1, Ready))
  }

  lemma WithConsumerTwice(s: State, c: nat, x: Consumer, y: Consumer)
    ensures WithConsumer(WithConsumer(s, c, x), c, y) == WithConsumer(s, c, y)
  {
    assert s.consumers[c := x][c := y] == s.consumers[c := y];
  }

  lemma RecordPolled(P: Params, s: State, c: nat, p: nat, k: nat)
    requires RestsAt(s, c, p, k)
    ensures Step(P, s, ByConsumer(c, Poll([Place(p, k)]))) == WithConsumer(s, c, WithRecord(s.consumers[c].position, p, k, 0, Ready))
  {
    assert [Place(p, k)][1..] == [];
    assert Fetchable(s.consumers[c].position, [Place(p, k)]);
    assert Advanced(s.consumers[c].position, [Place(p, k)]) == s.consumers[c].position[p := k + 1];
  }

  lemma RecordTaken(P: Params, s: State, c: nat, p: nat, k: nat)
    requires RestsAt(s, c, p, k)
    ensures Run(P, s, [ByConsumer(c, Poll([Place(p, k)])), ByConsumer(c, Begin)]) ==
      WithConsumer(s, c, WithRecord(s.consumers[c].position, p, k, 0, if P.verdict(Place(p, k)).Route? then Checking else DeadLettering))
  {
    RecordPolled(P, s, c, p, k);
    TwoSteps(P, s, ByConsumer(c, Poll([Place(p, k)])), ByConsumer(c, Begin));
    var con := WithRecord(s.consumers[c].position, p, k, 0, Ready);
    WithConsumerTwice(s, c, con, con.(pc := if P.verdict(Place(p, k)).Route? then Checking else DeadLettering));
  }

  lemma RecordBuried(P: Params, s: State, c: nat, position: map<nat, nat>, p: nat, k: nat)
    requires P.verdict(Place(p, k)).DeadLetter?
    ensures Run(P, WithConsumer(s, c, WithRecord(position, p, k, 0, DeadLettering)), BuryActs(c)) ==
      WithConsumer(RecordGone(P, s, Place(p, k)).(committed := s.committed[p := k + 1]), c, WithRecord(position, p, k, 1, Ready))
  {
    var s0 := WithConsumer(s, c, WithRecord(position, p, k, 0, DeadLettering));
    var s1 := WithConsumer(s.(dlq := s.dlq + [Place(p, k)]), c, WithRecord(position, p, k, 1, Committing(Place(p, k))));
    assert s.consumers[c := s0.consumers[c]][c := s1.consumers[c]] == s1.consumers;
    assert Step(P, s0, ByConsumer(c, BuryRecord(Done))) == s1;
    RecordCommitted(P, s.(dlq := s.dlq + [Place(p, k)]), c, position, p, k);
    TwoSteps(P, s0, ByConsumer(c, BuryRecord(Done)), ByConsumer(c, Commit(Done)));
  }

  lemma RecordCommitted(P: Params, s: State, c: nat, position: map<nat, nat>, p: nat, k: nat)
    ensures Step(P, WithConsumer(s, c, WithRecord(position, p, k, 1, Committing(Place(p, k)))), ByConsumer(c, Commit(Done))) ==
      WithConsumer(s.(committed := s.committed[p := k + 1]), c, WithRecord(position, p, k, 1, Ready))
  {
    WithConsumerTwice(s, c, WithRecord(position, p, k, 1, Committing(Place(p, k))), WithRecord(position, p, k, 1, Ready));
  }

  lemma RecordInserted(P: Params, s: State, c: nat, position: map<nat, nat>, p: nat, k: nat)
    requires P.verdict(Place(p, k)).Route? && s.redis == map[]
    ensures Run(P, WithConsumer(s, c, WithRecord(position, p, k, 0, Checking)),
                [ByConsumer(c, Check(true)), ByConsumer(c, Insert(Done, s.now))]) ==
      WithConsumer(RecordGone(P, s, Place(p, k)), c, WithRecord(position, p, k, 0, Marking))
  {
    var s0 := WithConsumer(s, c, WithRecord(position, p, k, 0, Checking));
    var s1 := WithConsumer(s, c, WithRecord(position, p, k, 0, Inserting));
    WithConsumerTwice(s, c, WithRecord(position, p, k, 0, Checking), WithRecord(position, p, k, 0, Inserting));
    assert Step(P, s0, ByConsumer(c, Check(true))) == s1;
    TwoSteps(P, s0, ByConsumer(c, Check(true)), ByConsumer(c, Insert(Done, s.now)));
    assert s1.consumers[c := WithRecord(position, p, k, 0, Marking)] == s.consumers[c := WithRecord(position, p, k, 0, Marking)];
  }

  lemma RecordLeft(P: Params, s: State, c: nat, position: map<nat, nat>, p: nat, k: nat)
    requires P.verdict(Place(p, k)).Route?
    ensures Run(P, WithConsumer(s, c, WithRecord(position, p, k, 0, Marking)), [ByConsumer(c, Mark(false)), ByConsumer(c, Commit(Done))]) ==
      WithConsumer(s.(committed := s.committed[p := k + 1]), c, WithRecord(position, p, k, 1, Ready))
  {
    var s0 := WithConsumer(s, c, WithRecord(position, p, k, 0, Marking));
    WithConsumerTwice(s, c, WithRecord(position, p, k, 0, Marking), WithRecord(position, p, k, 1, Committing(Place(p, k))));
    assert Step(P, s0, ByConsumer(c, Mark(false))) == WithConsumer(s, c, WithRecord(position, p, k, 1, Committing(Place(p, k))));
    RecordCommitted(P, s, c, position, p, k);
    TwoSteps(P, s0, ByConsumer(c, Mark(false)), ByConsumer(c, Commit(Done)));
  }

  lemma RecordRouted(P: Params, s: State, c: nat, position: map<nat, nat>, p: nat, k: nat)
    requires P.verdict(Place(p, k)).Route? && s.redis == map[]
    ensures Run(P, WithConsumer(s, c, WithRecord(position, p, k, 0, Checking)), RouteActs(c, s.now)) ==
      WithConsumer(RecordGone(P, s, Place(p, k)).(committed := s.committed[p := k + 1]), c, WithRecord(position, p, k, 1, Ready))
  {
    RecordInserted(P, s, c, position, p, k);
    RecordLeft(P, RecordGone(P, s, Place(p, k)), c, position, p, k);
    RunConcat(P, WithConsumer(s, c, WithRecord(position, p, k, 0, Checking)),
              [ByConsumer(c, Check(true)), ByConsumer(c, Insert(Done, s.now))], [ByConsumer(c, Mark(false)), ByConsumer(c, Commit(Done))]);
  }

  /** With no mark in the way, the consumer handles the next record and rests behind it. */
  lemma RecordHandled(P: Params, s: State, c: nat, p: nat, k: nat)
    requires RestsAt(s, c, p, k) && s.redis == map[]
    ensures Run(P, s, HandleActs(P, c, p, k, s.now)) == AfterRecord(P, s, c, p, k)
    ensures RestsAt(AfterRecord(P, s, c, p, k), c, p, k + 1)
  {
    var position := s.consumers[c].position;
    var take := [ByConsumer(c, Poll([Place(p, k)])), ByConsumer(c, Begin)];
    RecordTaken(P, s, c, p, k);
    if P.verdict(Place(p, k)).DeadLetter? {
      RunConcat(P, s, take, BuryActs(c));
      RecordBuried(P, s, c, position, p, k);
    } else {
      RunConcat(P, s, take, RouteActs(c, s.now));
      RecordRouted(P, s, c, position, p, k);
    }
  }

  /** A consumer that has not started takes up a partition nobody has committed. */
  lemma PartitionTaken(P: Params, s: State, c: nat, p: nat)
    requires c !in s.consumers && p !in s.committed
    ensures var s' := Step(P, s, ByConsumer(c, Assign(p)));
      s' == WithConsumer(s, c, FRESH.(position := map[p := 0])) && RestsAt(s', c, p, 0)
  {
  }

  /** A fresh consumer takes up a partition and handles its first record. */
  function FirstActs(P: Params, c: nat, p: nat, now: Time): seq<Action> {
    [ByConsumer(c, Assign(p))] + HandleActs(P, c, p, 0, now)
  }

  lemma FirstRecordHandled(P: Params, s: State, c: nat, p: nat)
    requires c !in s.consumers && p !in s.committed && s.redis == map[]
    ensures var taken := WithConsumer(s, c, FRESH.(position := map[p := 0]));
      Run(P, s, FirstActs(P, c, p, s.now)) == AfterRecord(P, taken, c, p, 0)
  {
    PartitionTaken(P, s, c, p);
    SingleStep(P, s, ByConsumer(c, Assign(p)));
    RecordHandled(P, WithConsumer(s, c, FRESH.(position := map[p := 0])), c, p, 0);
    RunConcat(P, s, [ByConsumer(c, Assign(p))], HandleActs(P, c, p, 0, s.now));
  }
}
