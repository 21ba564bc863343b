/**
 With the retention delete, an event that comes in two versions can be published in both: copies agree in every run exactly
 if no event does.
 */
module Versions {
  import opened Prelude
  import opened Courier
  import opened Deployment
  import Envelopes
  import IntakeSafety
  import opened Kafka
  import LeaseBound
  import Outbox
  import OwnCopies
  import Provenance
  import opened Reach
  import opened Routing

  /** Records that are given one row are rendered alike. */
  ghost predicate OneVersion(P: Params) {
    forall a, b :: P.verdict(a).Route? && P.verdict(b).Route? && P.verdict(a).id == P.verdict(b).id ==>
      P.render(P.verdict(a).id, P.verdict(a).content) == P.render(P.verdict(b).id, P.verdict(b).content)
  }

  // If no event comes in two versions.

  /** A routed record is the rendering of a routable record. */
  lemma RoutedHasPlace(sys: System, now: Time, actions: seq<Action>, m: Message) returns (place: Place)
    requires m in Run(Protocol(sys), Initial(now), actions).routed
    ensures var v := Protocol(sys).verdict(place); v.Route? && m == Protocol(sys).render(v.id, v.content)
  {
    var P := Protocol(sys);
    var s := Run(P, Initial(now), actions);
    MarksNameRows(sys);
    IntakeSafety.IntakeAlways(P, now, actions);
    Provenance.ProvenanceAlways(P, now, actions);
    assert Provenance.RecordSourced(P, s.audit.deliveries, m);
    var i :| 0 <= i < |s.audit.deliveries| && m == P.render(s.audit.deliveries[i].id, s.audit.deliveries[i].content);
    assert IntakeSafety.DeliverySound(P, IntakeSafety.Ever(s), s.audit.deliveries[i]);
    place := s.audit.deliveries[i].place;
  }

  lemma RenderedId(sys: System, id: Uuid, content: Outbox.Content)
    ensures HeaderValue(Protocol(sys).render(id, content).headers, HEADER_EVENT_ID) == sys.cfg.lib.uuidText(id)
  {
    RenderedEventId(sys.cfg.lib, id, content);
  }

  lemma OneVersionAgrees(sys: System, now: Time, actions: seq<Action>)
    requires Lawful(sys.cfg.lib) && OneVersion(Protocol(sys))
    ensures CopiesAgree(Run(Protocol(sys), Initial(now), actions).routed)
  {
    var P := Protocol(sys);
    var routed := Run(P, Initial(now), actions).routed;
    forall m, n | m in routed && n in routed && HeaderValue(m.headers, HEADER_EVENT_ID) == HeaderValue(n.headers, HEADER_EVENT_ID)
      ensures m == n
    {
      var a := RoutedHasPlace(sys, now, actions, m);
      var b := RoutedHasPlace(sys, now, actions, n);
      RenderedId(sys, P.verdict(a).id, P.verdict(a).content);
      RenderedId(sys, P.verdict(b).id, P.verdict(b).content);
      TextsDiffer(sys.cfg.lib);
    }
  }

  // If one does.

  /** Nothing is left of what has been handled but its copies. */
  predicate Swept(s: State) {
    s.table == map[] && s.redis == map[] && WorkerOf(s, 1).Idle?
  }

  /** The intake half, as it was. */
  predicate SameIntake(s: State, s': State) {
    s'.consumers == s.consumers && s'.committed == s.committed && s'.redis == s.redis
  }

  function Fresh(id: Uuid, content: Outbox.Content, now: Time): Outbox.Table {
    map[id := Outbox.Row(content, now, None, 0, None, None, None, None)]
  }

  lemma RowClaimed(P: Params, s: State, id: Uuid, content: Outbox.Content)
    requires s.table == Fresh(id, content, s.now) && WorkerOf(s, 1).Idle?
    ensures var s' := Step(P, s, ByWorker(1, Claim("a", 1, {}, [id], true)));
      && SameIntake(s, s') && s'.routed == s.routed && s'.now == s.now
      && s'.table.Keys == {id} && s'.table[id].publishedAt.None?
      && HasEvent(WorkerOf(s', 1)) && WorkerOf(s', 1).pc.Sending? && |WorkerOf(s', 1).events| == 1
      && Current(WorkerOf(s', 1)).id == id && Current(WorkerOf(s', 1)).row.content == content
  {
    LeaseBound.SoleRowClaimed(P, s, 1, "a", id);
  }

  lemma RowSent(P: Params, s: State, id: Uuid, content: Outbox.Content)
    requires HasEvent(WorkerOf(s, 1)) && WorkerOf(s, 1).pc.Sending? && |WorkerOf(s, 1).events| == 1
    requires Current(WorkerOf(s, 1)).id == id && Current(WorkerOf(s, 1)).row.content == content
    ensures var s' := Step(P, s, ByWorker(1, Send(Done, s.now, "")));
      && SameIntake(s, s') && s'.routed == s.routed + [P.render(id, content)] && s'.table == s.table
      && OwnCopies.AboutToPublish(WorkerOf(s', 1), id)
  {
  }

  lemma RowMarked(P: Params, s: State, id: Uuid)
    requires s.table.Keys == {id} && s.table[id].publishedAt.None? && OwnCopies.AboutToPublish(WorkerOf(s, 1), id)
    ensures var s' := Step(P, s, ByWorker(1, MarkRow(true)));
      && SameIntake(s, s') && s'.routed == s.routed && s'.now == s.now && WorkerOf(s', 1).Idle?
      && s'.table.Keys == {id} && s'.table[id].publishedAt == Some(s.now)
  {
    OwnCopies.SoleRowPublished(P, s, 1, id);
  }

  lemma RowExpires(P: Params, s: State, id: Uuid)
    requires P.retention && s.table.Keys == {id} && s.table[id].publishedAt == Some(s.now)
    ensures var s' := Step(P, Step(P, s, ByWorld(Tick(Outbox.RETENTION + 1))), ByWorld(Retain));
      SameIntake(s, s') && s'.routed == s.routed && s'.workers == s.workers && s'.table == map[]
  {
    OwnCopies.SoleRowRemoved(P, Step(P, s, ByWorld(Tick(Outbox.RETENTION + 1))), id);
  }

  /** Publish the only row there is, wait, and let retention remove it. */
  function SweepActs(id: Uuid, now: Time): seq<Action> {
    [ByWorker(1, Claim("a", 1, {}, [id], true)), ByWorker(1, Send(Done, now, ""))]
    + ([ByWorker(1, MarkRow(true))] + [ByWorld(Tick(Outbox.RETENTION + 1)), ByWorld(Retain)])
  }

  lemma RowSwept(P: Params, s: State, id: Uuid, content: Outbox.Content)
    requires P.retention && s.table == Fresh(id, content, s.now) && s.redis == map[] && WorkerOf(s, 1).Idle?
    ensures var s' := Run(P, s, SweepActs(id, s.now));
      SameIntake(s, s') && s'.routed == s.routed + [P.render(id, content)] && Swept(s')
  {
    var claim, send, mark := ByWorker(1, Claim("a", 1, {}, [id], true)), ByWorker(1, Send(Done, s.now, "")), ByWorker(1, MarkRow(true));
    var wait, retain := ByWorld(Tick(Outbox.RETENTION + 1)), ByWorld(Retain);
    RowClaimed(P, s, id, content);
    var s1 := Step(P, s, claim);
    RowSent(P, s1, id, content);
    var s2 := Step(P, s1, send);
    RowMarked(P, s2, id);
    var s3 := Step(P, s2, mark);
    RowExpires(P, s3, id);
    TwoSteps(P, s, claim, send);
    SingleStep(P, s2, mark);
    TwoSteps(P, s3, wait, retain);
    RunConcat(P, s2, [mark], [wait, retain]);
    RunConcat(P, s, [claim, send], [mark] + [wait, retain]);
  }

  /** Consumer c has handled the partition up to k, and every routable record of it is in the routed topics. */
  ghost predicate Through(P: Params, s: State, c: nat, p: nat, k: nat) {
    RestsAt(s, c, p, k) && Swept(s) && ThroughRouted(P, s.routed, p, k)
  }

  ghost predicate ThroughRouted(P: Params, routed: seq<Message>, p: nat, k: nat) {
    forall j: nat :: j < k && P.verdict(Place(p, j)).Route? ==>
      P.render(P.verdict(Place(p, j)).id, P.verdict(Place(p, j)).content) in routed
  }

  lemma ThroughRoutedGrows(P: Params, routed: seq<Message>, routed': seq<Message>, p: nat, k: nat)
    requires ThroughRouted(P, routed, p, k) && routed <= routed'
    requires var v := P.verdict(Place(p, k)); v.Route? ==> P.render(v.id, v.content) in routed'
    ensures ThroughRouted(P, routed', p, k + 1)
  {
  }

  /** A record handled and, if it has a row, swept. */
  lemma HandledAndSwept(P: Params, s: State, c: nat, p: nat, k: nat) returns (acts: seq<Action>)
    requires P.retention && RestsAt(s, c, p, k) && Swept(s)
    ensures var s' := Run(P, s, acts);
      var v := P.verdict(Place(p, k));
      && RestsAt(s', c, p, k + 1) && Swept(s')
      && s'.routed == s.routed + (if v.Route? then [P.render(v.id, v.content)] else [])
      && s'.consumers.Keys == s.consumers.Keys && s'.committed == s.committed[p := k + 1]
  {
    var v := P.verdict(Place(p, k));
    acts := HandleActs(P, c, p, k, s.now);
    RecordHandled(P, s, c, p, k);
    var mid := Run(P, s, acts);
    if v.Route? {
      assert mid.table == Fresh(v.id, v.content, mid.now);
      RowSwept(P, mid, v.id, v.content);
      RunConcat(P, s, acts, SweepActs(v.id, mid.now));
      acts := acts + SweepActs(v.id, mid.now);
    }
  }

  /** One record further; what was routed and committed elsewhere stays. */
  lemma ThroughOneMore(P: Params, s: State, c: nat, p: nat, k: nat) returns (acts: seq<Action>)
    requires P.retention && Through(P, s, c, p, k)
    ensures var s' := Run(P, s, acts);
      && Through(P, s', c, p, k + 1) && s.routed <= s'.routed
      && s'.consumers.Keys == s.consumers.Keys && s'.committed == s.committed[p := k + 1]
  {
    acts := HandledAndSwept(P, s, c, p, k);
    ThroughRoutedGrows(P, s.routed, Run(P, s, acts).routed, p, k);
  }

  /** Up to any record. */
  lemma {:induction false} ThroughUpTo(P: Params, s: State, c: nat, p: nat, n: nat) returns (acts: seq<Action>)
    requires P.retention && Swept(s) && c !in s.consumers && p !in s.committed
    ensures var s' := Run(P, s, acts);
      && Through(P, s', c, p, n) && s.routed <= s'.routed
      && s'.consumers.Keys == s.consumers.Keys + {c} && s'.committed.Keys <= s.committed.Keys + {p}
  {
    if n == 0 {
      PartitionTaken(P, s, c, p);
      SingleStep(P, s, ByConsumer(c, Assign(p)));
      acts := [ByConsumer(c, Assign(p))];
    } else {
      acts := ThroughUpTo(P, s, c, p, n - 1);
      var more := ThroughOneMore(P, Run(P, s, acts), c, p, n - 1);
      RunConcat(P, s, acts, more);
      acts := acts + more;
    }
  }

  /** A run that publishes both records, whatever places they have. */
  lemma BothRouted(P: Params, now: Time, a: Place, b: Place) returns (actions: seq<Action>)
    requires P.retention && P.verdict(a).Route? && P.verdict(b).Route?
    ensures var s := Run(P, Initial(now), actions);
      && P.render(P.verdict(a).id, P.verdict(a).content) in s.routed && P.render(P.verdict(b).id, P.verdict(b).content) in s.routed
  {
    var last := if a.partition == b.partition && a.offset < b.offset then b.offset else a.offset;
    actions := ThroughUpTo(P, Initial(now), 0, a.partition, last + 1);
    assert a == Place(a.partition, a.offset) && b == Place(b.partition, b.offset);
    if a.partition != b.partition {
      var more := ThroughUpTo(P, Run(P, Initial(now), actions), 1, b.partition, b.offset + 1);
      RunConcat(P, Initial(now), actions, more);
      actions := actions + more;
    }
  }

  lemma TwoVersionsDisagree(sys: System, now: Time, a: Place, b: Place) returns (actions: seq<Action>)
    requires sys.retention
    requires var P := Protocol(sys);
      && P.verdict(a).Route? && P.verdict(b).Route? && P.verdict(a).id == P.verdict(b).id
      && P.render(P.verdict(a).id, P.verdict(a).content) != P.render(P.verdict(b).id, P.verdict(b).content)
    ensures !CopiesAgree(Run(Protocol(sys), Initial(now), actions).routed)
  {
    var P := Protocol(sys);
    actions := BothRouted(P, now, a, b);
    RenderedId(sys, P.verdict(a).id, P.verdict(a).content);
    RenderedId(sys, P.verdict(b).id, P.verdict(b).content);
  }

  /** With retention, all copies of an event are one and the same record, in every run, exactly if no event comes in two versions. */
  lemma CopiesAgreeIff(sys: System, now: Time)
    requires Lawful(sys.cfg.lib) && sys.retention
    ensures OneVersion(Protocol(sys)) <==> forall actions :: CopiesAgree(Run(Protocol(sys), Initial(now), actions).routed)
  {
    var P := Protocol(sys);
    if OneVersion(P) {
      forall actions ensures CopiesAgree(Run(P, Initial(now), actions).routed) {
        OneVersionAgrees(sys, now, actions);
      }
    } else {
      var a, b :| P.verdict(a).Route? && P.verdict(b).Route? && P.verdict(a).id == P.verdict(b).id
        && P.render(P.verdict(a).id, P.verdict(a).content) != P.render(P.verdict(b).id, P.verdict(b).content);
      var actions := TwoVersionsDisagree(sys, now, a, b);
    }
  }

  // That can happen.

  /** Identifiers written in a row of strokes; only their reading back matters here. */
  function StrokeLibrary(): Library {
    Library((t: string) => true, (t: string) => if t == "" then None else Some(|t| - 1),
            (u: Uuid) => seq(u + 1, (i: nat) => '|'), (u: Uuid) => u)
  }

  function ProcessedEvent(data: string): Envelopes.Envelope {
    Envelopes.Envelope("1", "|", Envelopes.EVENT_TYPE_PROCESSED, "", "|", "ref", "caller", "key", "ocr",
                       Envelopes.Given(Envelopes.Text(data)), Envelopes.Absent)
  }

  /** A log in which one event comes with two results. */
  function TwoVersionSystem(): System {
    System(Settings(StrokeLibrary(), (c: string) => true, "%s"),
           (place: Place) => Record(Envelopes.Marshal(ProcessedEvent(if place.partition == 0 then "one" else "two")), []),
           DAY, (processed: nat, polled: nat, offset: nat) => offset <= processed, true, false)
  }

  lemma StrokeLibraryIsLawful()
    ensures Lawful(StrokeLibrary())
  {
    var lib := StrokeLibrary();
    forall u: Uuid ensures lib.parseUuid(lib.uuidText(u)) == Some(u) {
      assert |lib.uuidText(u)| == u + 1;
    }
  }

  /** The record's event, for either result: routable under identifier 0, and published with its result. */
  lemma ResultRouted(data: string)
    ensures var v := Classify(TwoVersionSystem().cfg, Record(Envelopes.Marshal(ProcessedEvent(data)), []));
      v.Route? && v.id == 0 && Render(StrokeLibrary(), 0, v.content).value ==
        Envelopes.Marshal(Routed(StrokeLibrary(), Envelopes.Settled(ProcessedEvent(data)), 0))
  {
    Envelopes.MarshalRoundTrip(ProcessedEvent(data));
    assert Envelopes.Accepted(Envelopes.Marshal(ProcessedEvent(data)), StrokeLibrary().isTimestamp)
        == Some(Envelopes.Settled(ProcessedEvent(data)));
  }

  lemma ResultsDiffer()
    ensures Envelopes.Marshal(Routed(StrokeLibrary(), Envelopes.Settled(ProcessedEvent("one")), 0)) !=
      Envelopes.Marshal(Routed(StrokeLibrary(), Envelopes.Settled(ProcessedEvent("two")), 0))
  {
    var x := Envelopes.Marshal(Routed(StrokeLibrary(), Envelopes.Settled(ProcessedEvent("one")), 0)).members;
    var y := Envelopes.Marshal(Routed(StrokeLibrary(), Envelopes.Settled(ProcessedEvent("two")), 0)).members;
    assert x[Envelopes.Data] == Envelopes.Text("one") && y[Envelopes.Data] == Envelopes.Text("two");
  }

  /** What the protocol makes of a place in that log. */
  lemma PlaceOfVersion(place: Place)
    ensures var v := Protocol(TwoVersionSystem()).verdict(place);
      var data := if place.partition == 0 then "one" else "two";
      v.Route? && v.id == 0 && Protocol(TwoVersionSystem()).render(0, v.content).value ==
        Envelopes.Marshal(Routed(StrokeLibrary(), Envelopes.Settled(ProcessedEvent(data)), 0))
  {
    ResultRouted(if place.partition == 0 then "one" else "two");
  }

  /** So the conditions on versions are not idle: here is a deployment with one event in two. */
  lemma TwoVersionsOccur()
    ensures var sys := TwoVersionSystem(); Lawful(sys.cfg.lib) && sys.retention && IntakeSafety.Prudent(sys.flush)
    ensures OwnCopies.TwoVersions(Protocol(TwoVersionSystem())) && !OneVersion(Protocol(TwoVersionSystem()))
  {
    StrokeLibraryIsLawful();
    PlaceOfVersion(Place(0, 0));
    PlaceOfVersion(Place(1, 0));
    ResultsDiffer();
  }
}
