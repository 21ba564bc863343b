/** The protocol with the gateway's own checks and rendering put in: the guarantees in terms of records and messages. */
module Deployment {
  import opened Prelude
  import Envelopes
  import opened Outbox
  import opened Kafka
  import opened Courier
  import opened IntakeSafety
  import opened OutboxSafety
  import Provenance
  import opened Routing

  /** One deployment over one source log. */
  datatype System = System(
    cfg: Settings, log: Place -> Record,
    markTtl: Time, flush: FlushPolicy, retention: bool, releases: bool)

  function Protocol(sys: System): Params {
    Params(place => Classify(sys.cfg, sys.log(place)), (id: Uuid, content: Content) => Render(sys.cfg.lib, id, content),
           sys.markTtl, sys.flush, sys.retention, sys.releases)
  }

  /** Name-based identifiers of the events in this log do not collide. */
  ghost predicate NoCollisions(sys: System) {
    forall a, b ::
      var v, w := Classify(sys.cfg, sys.log(a)), Classify(sys.cfg, sys.log(b));
      v.Route? && w.Route? && v.id == w.id ==> v.source == w.source
  }

  lemma MarksNameRows(sys: System)
    ensures MarkNamesRow(Protocol(sys))
  {
    var P := Protocol(sys);
    forall a, b | P.verdict(a).Route? && P.verdict(b).Route? && P.verdict(a).mark == P.verdict(b).mark
      ensures P.verdict(a).id == P.verdict(b).id
    {
      SameMarkSameRow(sys.cfg, sys.log(a), sys.log(b));
    }
  }

  /** The record's event is in the dead-letter topic, or a record of the same event has given it a row. */
  ghost predicate Kept(sys: System, s: State, place: Place) {
    match Classify(sys.cfg, sys.log(place))
    case DeadLetter => place in s.dlq
    case Route(source, id, _, _) =>
      && id in Ever(s)
      && exists d :: d in s.audit.deliveries && d.id == id
           && Classify(sys.cfg, sys.log(d.place)).Route? && Classify(sys.cfg, sys.log(d.place)).source == source
  }

  /** No loss: whatever has been committed is kept. */
  lemma CommittedRecordsAreKept(sys: System, now: Time, actions: seq<Action>, p: nat, k: nat)
    requires Prudent(sys.flush) && NoCollisions(sys)
    requires var s := Run(Protocol(sys), Initial(now), actions); p in s.committed && k < s.committed[p]
    ensures Kept(sys, Run(Protocol(sys), Initial(now), actions), Place(p, k))
  {
    var P := Protocol(sys);
    var s := Run(P, Initial(now), actions);
    MarksNameRows(sys);
    IntakeAlways(P, now, actions);
    RowsDeliveredAlways(P, now, actions);
    assert Handled(P, Ever(s), s.dlq, Place(p, k));
    var v := P.verdict(Place(p, k));
    if v.Route? {
      var d :| d in s.audit.deliveries && d.id == v.id;
      assert DeliverySound(P, Ever(s), d);
      assert P.verdict(d.place) == Classify(sys.cfg, sys.log(d.place));
    }
  }

  /** Outcomes exclude each other and are the record's own: no fault dead-letters a routable record. */
  lemma OutcomesExclude(sys: System, now: Time, actions: seq<Action>, place: Place)
    ensures var s := Run(Protocol(sys), Initial(now), actions);
      && (place in s.dlq ==> Classify(sys.cfg, sys.log(place)).DeadLetter?)
      && ((exists d :: d in s.audit.deliveries && d.place == place) ==> Classify(sys.cfg, sys.log(place)).Route?)
  {
    var P := Protocol(sys);
    MarksNameRows(sys);
    IntakeAlways(P, now, actions);
    var s := Run(P, Initial(now), actions);
    assert P.verdict(place) == Classify(sys.cfg, sys.log(place));
    forall d | d in s.audit.deliveries && d.place == place ensures P.verdict(place).Route? {
      assert DeliverySound(P, Ever(s), d);
    }
  }

  /** Every routed record is a faithful copy of some record of the log, in every run, retention or not. */
  lemma RoutedRecordsAreFaithful(sys: System, now: Time, actions: seq<Action>, m: Message) returns (place: Place)
    requires Lawful(sys.cfg.lib)
    requires m in Run(Protocol(sys), Initial(now), actions).routed
    ensures Envelopes.Accepted(sys.log(place).value, sys.cfg.lib.isTimestamp).Some?
    ensures FaithfulCopy(sys.cfg, Envelopes.Accepted(sys.log(place).value, sys.cfg.lib.isTimestamp).value,
                         HeaderValue(sys.log(place).headers, "trace-id"), m)
    ensures var v := Classify(sys.cfg, sys.log(place));
      v.Route? && m == Render(sys.cfg.lib, v.id, v.content)
  {
    var P := Protocol(sys);
    var s := Run(P, Initial(now), actions);
    MarksNameRows(sys);
    IntakeAlways(P, now, actions);
    Provenance.ProvenanceAlways(P, now, actions);
    assert Provenance.RecordSourced(P, s.audit.deliveries, m);
    var i :| 0 <= i < |s.audit.deliveries| && m == P.render(s.audit.deliveries[i].id, s.audit.deliveries[i].content);
    var d := s.audit.deliveries[i];
    assert DeliverySound(P, Ever(s), d);
    place := d.place;
    assert P.verdict(place) == Classify(sys.cfg, sys.log(place));
    assert P.render(d.id, d.content) == Render(sys.cfg.lib, d.id, d.content);
    RoutedRecordIsFaithful(sys.cfg, sys.log(place));
  }

  // How long a mark is good for.

  /** Redis does not lose the key. */
  predicate KeepsKey(a: Action, key: string) {
    a.ByWorld? && a.event.LoseMarks? ==> key !in a.event.keys
  }

  lemma MarkStays(P: Params, s: State, a: Action, key: string, until: Time)
    requires key in s.redis && (s.now < until ==> s.redis[key] == until) && KeepsKey(a, key)
    ensures var s' := Step(P, s, a); s.now <= s'.now && key in s'.redis && (s'.now < until ==> s'.redis[key] == until)
  {
    match a
    case ByConsumer(c, act) =>
      OutboxSafety.ConsumerLeavesDelivery(P, s, c, act);
      ConsumerKeepsMark(P, s, c, act, key, until);
    case ByWorker(w, act) => IntakeSafety.WorkerLeavesIntake(P, s, w, act);
    case ByWorld(e) =>
  }

  lemma ConsumerKeepsMark(P: Params, s: State, c: nat, act: ConsumerAct, key: string, until: Time)
    requires key in s.redis && (s.now < until ==> s.redis[key] == until)
    ensures var redis' := ConsumerStep(P, s, c, act).redis; key in redis' && (s.now < until ==> redis'[key] == until)
  {
    match act
    case Mark(written) =>
    case _ => OnlyMarkWrites(P, s, c, act);
  }

  lemma OnlyMarkWrites(P: Params, s: State, c: nat, act: ConsumerAct)
    requires !act.Mark?
    ensures ConsumerStep(P, s, c, act).redis == s.redis
  {
    match act
    case Check(answered) =>
    case Insert(outcome, createdAt) =>
    case _ =>
  }

  lemma {:induction false} MarkLasts(P: Params, s: State, more: seq<Action>, key: string)
    requires key in s.redis && forall a :: a in more ==> KeepsKey(a, key)
    ensures var s' := Run(P, s, more); key in s'.redis && (s'.now < s.redis[key] ==> s'.redis[key] == s.redis[key])
    decreases |more|
  {
    if more != [] {
      var n := |more| - 1;
      MarkLasts(P, s, more[..n], key);
      assert more[n] in more;
      MarkStays(P, Run(P, s, more[..n]), more[n], key, s.redis[key]);
    }
  }

  /**
   A record whose mark is written is recognised for as long as the deployment's TTL, unless Redis loses the mark: whoever
   takes up a record with that mark in this time finishes it without touching the table.
   */
  lemma RedeliveryIsRecognised(sys: System, s: State, c: nat, more: seq<Action>, d: nat)
    requires ConsumerOf(s, c).pc.Marking? && HasRecord(ConsumerOf(s, c))
    requires var v := Protocol(sys).verdict(ConsumerOf(s, c).batch[ConsumerOf(s, c).next]);
      v.Route? && !Live(s.redis, v.mark, s.now) && forall a :: a in more ==> KeepsKey(a, v.mark)
    requires var s' := Run(Protocol(sys), Step(Protocol(sys), s, ByConsumer(c, Mark(true))), more);
      && ConsumerOf(s', d).pc.Checking? && HasRecord(ConsumerOf(s', d)) && s'.now < s.now + sys.markTtl
      && var v' := Protocol(sys).verdict(ConsumerOf(s', d).batch[ConsumerOf(s', d).next]);
         v'.Route? && v'.mark == Protocol(sys).verdict(ConsumerOf(s, c).batch[ConsumerOf(s, c).next]).mark
    ensures var s' := Run(Protocol(sys), Step(Protocol(sys), s, ByConsumer(c, Mark(true))), more);
      var s'' := Step(Protocol(sys), s', ByConsumer(d, Check(true)));
      && ConsumerOf(s'', d) == Finished(ConsumerOf(s', d)) && s''.table == s'.table && s''.redis == s'.redis
  {
    var P := Protocol(sys);
    var mark := P.verdict(ConsumerOf(s, c).batch[ConsumerOf(s, c).next]).mark;
    var marked := Step(P, s, ByConsumer(c, Mark(true)));
    assert mark in marked.redis && marked.redis[mark] == s.now + sys.markTtl;
    MarkLasts(P, marked, more, mark);
  }

  /** What a consumer that collapses the routed topics by event-id is left with: the latest copy of each event. */
  function Collapse(routed: seq<Message>): map<string, Message>
    decreases |routed|
  {
    if routed == [] then map[]
    else
      var m := routed[|routed| - 1];
      Collapse(routed[..|routed| - 1])[HeaderValue(m.headers, HEADER_EVENT_ID) := m]
  }

  lemma {:induction false} CollapseMembers(routed: seq<Message>, k: string)
    ensures k in Collapse(routed) ==> Collapse(routed)[k] in routed && HeaderValue(Collapse(routed)[k].headers, HEADER_EVENT_ID) == k
    ensures (exists m :: m in routed && HeaderValue(m.headers, HEADER_EVENT_ID) == k) ==> k in Collapse(routed)
    decreases |routed|
  {
    if routed != [] {
      var init := routed[..|routed| - 1];
      CollapseMembers(init, k);
      assert routed == init + [routed[|routed| - 1]];
    }
  }

  lemma TextsDiffer(lib: Library)
    requires Lawful(lib)
    ensures forall a: Uuid, b: Uuid :: lib.uuidText(a) == lib.uuidText(b) ==> a == b
  {
    forall a: Uuid, b: Uuid | lib.uuidText(a) == lib.uuidText(b) ensures a == b {
      assert lib.parseUuid(lib.uuidText(a)) == Some(a) && lib.parseUuid(lib.uuidText(b)) == Some(b);
    }
  }

  /** One record per first-delivered event: what exactly-once routing would produce. */
  ghost function Ideal(lib: Library, spec: map<Uuid, Content>): map<string, Message>
    requires Lawful(lib)
  {
    TextsDiffer(lib);
    map id | id in spec :: lib.uuidText(id) := Render(lib, id, spec[id])
  }

  ghost predicate Within(lib: Library, spec: map<Uuid, Content>, m: Message) {
    exists id :: id in spec && m == Render(lib, id, spec[id])
  }

  lemma WithinIdeal(lib: Library, spec: map<Uuid, Content>, m: Message)
    requires Lawful(lib) && Within(lib, spec, m)
    ensures var k := HeaderValue(m.headers, HEADER_EVENT_ID);
      k in Ideal(lib, spec) && Ideal(lib, spec)[k] == m
  {
    var id :| id in spec && m == Render(lib, id, spec[id]);
    RenderedEventId(lib, id, spec[id]);
  }

  lemma CollapseWithin(lib: Library, spec: map<Uuid, Content>, routed: seq<Message>)
    requires Lawful(lib) && forall m :: m in routed ==> Within(lib, spec, m)
    ensures forall k :: k in Collapse(routed) ==> k in Ideal(lib, spec) && Collapse(routed)[k] == Ideal(lib, spec)[k]
  {
    forall k | k in Collapse(routed) ensures k in Ideal(lib, spec) && Collapse(routed)[k] == Ideal(lib, spec)[k] {
      CollapseMembers(routed, k);
      WithinIdeal(lib, spec, Collapse(routed)[k]);
    }
  }

  lemma CollapseCovers(lib: Library, spec: map<Uuid, Content>, routed: seq<Message>)
    requires Lawful(lib) && forall m :: m in routed ==> Within(lib, spec, m)
    requires forall id :: id in spec ==> Render(lib, id, spec[id]) in routed
    ensures Collapse(routed) == Ideal(lib, spec)
  {
    CollapseWithin(lib, spec, routed);
    forall k | k in Ideal(lib, spec) ensures k in Collapse(routed) {
      var id :| id in spec && lib.uuidText(id) == k;
      RenderedEventId(lib, id, spec[id]);
      CollapseMembers(routed, k);
    }
  }

  /** Two copies of one event are one and the same record. */
  predicate CopiesAgree(routed: seq<Message>) {
    forall m, n ::
      m in routed && n in routed && HeaderValue(m.headers, HEADER_EVENT_ID) == HeaderValue(n.headers, HEADER_EVENT_ID)
      ==> m == n
  }

  lemma GenuineIsWithin(sys: System, spec: map<Uuid, Content>, routed: seq<Message>)
    requires forall m :: m in routed ==> Genuine(Protocol(sys), spec, m)
    ensures forall m :: m in routed ==> Within(sys.cfg.lib, spec, m)
  {
    var P := Protocol(sys);
    forall m | m in routed ensures Within(sys.cfg.lib, spec, m) {
      assert Genuine(P, spec, m);
      var id :| id in spec && m == P.render(id, spec[id]);
      assert m == Render(sys.cfg.lib, id, spec[id]);
    }
  }

  lemma CoversMeansAll(sys: System, spec: map<Uuid, Content>, routed: seq<Message>)
    requires Covers(Protocol(sys), spec, routed)
    ensures forall id :: id in spec ==> Render(sys.cfg.lib, id, spec[id]) in routed
  {
    var P := Protocol(sys);
    forall id | id in spec ensures Render(sys.cfg.lib, id, spec[id]) in routed {
      assert P.render(id, spec[id]) == Render(sys.cfg.lib, id, spec[id]);
    }
  }

  lemma WithinCopiesAgree(lib: Library, spec: map<Uuid, Content>, routed: seq<Message>)
    requires Lawful(lib) && forall m :: m in routed ==> Within(lib, spec, m)
    ensures CopiesAgree(routed)
  {
    forall m | m in routed {
      WithinIdeal(lib, spec, m);
    }
  }

  /**
   Exactly-once effect: collapsed by event-id, the routed topics never leave the ideal; all copies of an event are
   identical; and when no row is pending, nothing of the ideal is missing.
   */
  ghost predicate RoutedOnce(lib: Library, spec: map<Uuid, Content>, t: Table, routed: seq<Message>)
    requires Lawful(lib)
  {
    var ideal := Ideal(lib, spec);
    && (forall k :: k in Collapse(routed) ==> k in ideal && Collapse(routed)[k] == ideal[k])
    && CopiesAgree(routed)
    && (AllPublished(t) ==> Collapse(routed) == ideal)
  }

  lemma GenuineIsRoutedOnce(sys: System, spec: map<Uuid, Content>, t: Table, routed: seq<Message>)
    requires Lawful(sys.cfg.lib)
    requires forall m :: m in routed ==> Genuine(Protocol(sys), spec, m)
    requires AllPublished(t) ==> Covers(Protocol(sys), spec, routed)
    ensures RoutedOnce(sys.cfg.lib, spec, t, routed)
  {
    GenuineIsWithin(sys, spec, routed);
    CollapseWithin(sys.cfg.lib, spec, routed);
    WithinCopiesAgree(sys.cfg.lib, spec, routed);
    if AllPublished(t) {
      CoversMeansAll(sys, spec, routed);
      CollapseCovers(sys.cfg.lib, spec, routed);
    }
  }

  lemma ExactlyOnce(sys: System, now: Time, actions: seq<Action>)
    requires Lawful(sys.cfg.lib) && !sys.retention
    ensures var s := Run(Protocol(sys), Initial(now), actions);
      RoutedOnce(sys.cfg.lib, FirstWins(s.audit.deliveries), s.table, s.routed)
  {
    var P := Protocol(sys);
    var s := Run(P, Initial(now), actions);
    MarksNameRows(sys);
    ExactlyOnceEffect(P, now, actions);
    GenuineIsRoutedOnce(sys, FirstWins(s.audit.deliveries), s.table, s.routed);
  }

  /** With Redis or without it, whatever Redis loses, the table is what insert-if-absent makes of the deliveries. */
  lemma RedisIsOnlyAFastPath(sys: System, now: Time, actions: seq<Action>)
    requires !sys.retention
    ensures var s := Run(Protocol(sys), Initial(now), actions);
      && Contents(s.table) == FirstWins(s.audit.deliveries)
      && forall place :: Classify(sys.cfg, sys.log(place)).Route? && Classify(sys.cfg, sys.log(place)).mark in s.redis ==>
           Classify(sys.cfg, sys.log(place)).id in s.table
  {
    var P := Protocol(sys);
    MarksNameRows(sys);
    FastPathAgrees(P, now, actions);
    assert forall place :: P.verdict(place) == Classify(sys.cfg, sys.log(place));
  }
}
