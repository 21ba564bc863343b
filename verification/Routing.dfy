/**
 What becomes of one record: the consumer's and the router's checks, the row they write
 (internal/app/consumer.go, internal/service/router/service.go) and the record the worker
 later publishes from that row (internal/service/outbox/service.go).
 */
module Routing {
  import opened Prelude
  import opened Envelopes
  import opened Outbox
  import opened Kafka
  import opened Courier

  /** Library functions, taken as they come. */
  datatype Library = Library(
    isTimestamp: string -> bool,
    parseUuid: string -> Option<Uuid>,
    uuidText: Uuid -> string,
    routedId: Uuid -> Uuid)

  /** The canonical text of an identifier parses back, and no identifier has an empty text. */
  ghost predicate Lawful(lib: Library) {
    && (forall u: Uuid :: lib.parseUuid(lib.uuidText(u)) == Some(u))
    && lib.parseUuid("") == None
  }

  datatype Settings = Settings(lib: Library, known: string -> bool, template: string)

  const EVENT_TYPE_ROUTED := "document.routed"
  const PRODUCER_NAME := "ocr-gateway"
  const SOURCE_SERVICE := "ocr-gateway"
  const AGGREGATE_TYPE := "document"
  const EVENT_VERSION: nat := 1
  const DEDUPE_KEY_PREFIX := "ocr:dedupe:routed:v2:event:"

  const HEADER_EVENT_ID := "event-id"
  const HEADER_EVENT_TYPE := "event-type"
  const HEADER_EVENT_VERSION := "event-version"
  const HEADER_SOURCE := "source-service"
  const HEADER_AGG_TYPE := "aggregate-type"
  const HEADER_AGG_ID := "aggregate-id"
  const HEADER_TRACE_ID := "trace-id"

  /** fmt.Sprintf of a template whose only verb is %s: the first %s is replaced. */
  function RoutedTopic(template: string, callerId: string): string {
    if |template| < 2 then template
    else if template[0] == '%' && template[1] == 's' then callerId + template[2..]
    else [template[0]] + RoutedTopic(template[1..], callerId)
  }

  /** strings.Count(template, "%s"). */
  function Verbs(template: string): nat {
    if |template| < 2 then 0
    else if template[0] == '%' && template[1] == 's' then 1 + Verbs(template[2..])
    else Verbs(template[1..])
  }

  /** A character before a verb that is none itself. */
  lemma NoVerbHere(before: string, after: string)
    requires before != "" && Verbs(before) == 0
    ensures var template := before + "%s" + after;
      !VerbAt(template, 0) && template[0] == before[0] && template[1..] == before[1..] + "%s" + after && Verbs(before[1..]) == 0
  {
    assert |before| >= 2 ==> !VerbAt(before, 0);
  }

  /** What the first verb of a template does. */
  lemma {:induction false} VerbReplaced(before: string, after: string, callerId: string)
    requires Verbs(before) == 0
    ensures RoutedTopic(before + "%s" + after, callerId) == before + callerId + after
    ensures Verbs(before + "%s" + after) == 1 + Verbs(after)
  {
    if before == "" {
      assert (before + "%s" + after)[2..] == after;
      assert before + callerId + after == callerId + after;
    } else {
      NoVerbHere(before, after);
      VerbReplaced(before[1..], after, callerId);
      assert before + callerId + after == [before[0]] + (before[1..] + callerId + after);
    }
  }

  lemma {:induction false} FirstVerbSplits(template: string) returns (before: string, after: string)
    requires Verbs(template) >= 1
    ensures template == before + "%s" + after && Verbs(before) == 0
  {
    if VerbAt(template, 0) {
      before, after := "", template[2..];
      assert template == "%s" + after;
    } else {
      before, after := FirstVerbSplits(template[1..]);
      NoVerbLonger(template[0], before, after);
      assert template == [template[0]] + template[1..];
      before := [template[0]] + before;
    }
  }

  lemma NoVerbLonger(c: char, before: string, after: string)
    requires Verbs(before) == 0 && !(c == '%' && (before + "%s" + after)[0] == 's')
    ensures Verbs([c] + before) == 0
  {
    assert ([c] + before)[1..] == before;
    if before != "" {
      assert (before + "%s" + after)[0] == before[0];
    }
  }

  /** A template with one verb is what stands before it, the verb and what stands after; the topic has the caller there. */
  lemma TopicFillsTemplate(template: string, callerId: string) returns (before: string, after: string)
    requires Verbs(template) == 1
    ensures template == before + "%s" + after && Verbs(before) == 0 && Verbs(after) == 0
    ensures RoutedTopic(template, callerId) == before + callerId + after
  {
    before, after := FirstVerbSplits(template);
    VerbReplaced(before, after, callerId);
  }

  predicate VerbAt(template: string, i: nat) {
    i + 1 < |template| && template[i] == '%' && template[i + 1] == 's'
  }

  function VerbPlaces(template: string): set<nat> {
    set i: nat | i < |template| && VerbAt(template, i)
  }

  lemma FirstVerb(template: string)
    requires |template| >= 2
    ensures Verbs(template) == (if VerbAt(template, 0) then 1 else 0) + Verbs(template[1..])
  {
    if VerbAt(template, 0) && |template| > 2 {
      assert template[1..][1..] == template[2..];
    }
  }

  /** A set of numbers and the one in which each is the next. */
  ghost predicate Shifted(a: set<nat>, b: set<nat>) {
    forall i: nat :: i in a <==> i + 1 in b
  }

  lemma PlacesBehind(template: string)
    requires template != ""
    ensures Shifted(VerbPlaces(template[1..]), VerbPlaces(template))
  {
    forall i: nat ensures VerbAt(template[1..], i) <==> VerbAt(template, i + 1) {
    }
  }

  lemma {:induction false} ShiftedCount(a: set<nat>, b: set<nat>)
    requires Shifted(a, b)
    ensures |b| == |a| + (if 0 in b then 1 else 0)
  {
    forall j | j in b ensures j == 0 || j - 1 in a {
      assert j > 0 ==> (j - 1) + 1 in b;
    }
    if a == {} {
      assert b == if 0 in b then {0} else {};
    } else {
      var x :| x in a;
      ShiftedCount(a - {x}, b - {x + 1});
    }
  }

  lemma FirstPlace(template: string)
    requires template != ""
    ensures |VerbPlaces(template)| == (if VerbAt(template, 0) then 1 else 0) + |VerbPlaces(template[1..])|
  {
    PlacesBehind(template);
    ShiftedCount(VerbPlaces(template[1..]), VerbPlaces(template));
  }

  /** The verbs of a template are the places where it has the two characters. */
  lemma {:induction false} VerbsAreCounted(template: string)
    ensures Verbs(template) == |VerbPlaces(template)|
  {
    if |template| < 2 {
      assert VerbPlaces(template) == {};
    } else {
      VerbsAreCounted(template[1..]);
      FirstVerb(template);
      FirstPlace(template);
    }
  }

  /** Different callers have different topics. */
  lemma {:induction false} RoutedTopicInjective(template: string, a: string, b: string)
    requires Verbs(template) >= 1 && RoutedTopic(template, a) == RoutedTopic(template, b)
    ensures a == b
  {
    if template[0] == '%' && template[1] == 's' {
      SuffixCancels(a, b, template[2..]);
    } else {
      PrefixCancels([template[0]], RoutedTopic(template[1..], a), RoutedTopic(template[1..], b));
      RoutedTopicInjective(template[1..], a, b);
    }
  }

  /** The event as it goes on: three fields rewritten, the rest untouched. */
  function Routed(lib: Library, env: Envelope, id: Uuid): Envelope {
    env.(eventType := EVENT_TYPE_ROUTED, producer := PRODUCER_NAME, eventId := lib.uuidText(id))
  }

  function RoutedContent(cfg: Settings, env: Envelope, documentId: Uuid, id: Uuid, traceId: string): Content {
    Content(AGGREGATE_TYPE, documentId, EVENT_TYPE_ROUTED, EVENT_VERSION, RoutedTopic(cfg.template, env.callerId),
            Marshal(Routed(cfg.lib, env, id)), if traceId == "" then None else Some(traceId))
  }

  /** The router's permanent checks, and the row an event that passes them is given. */
  function RouteEnvelope(cfg: Settings, env: Envelope, traceId: string): Verdict {
    var documentId := cfg.lib.parseUuid(env.documentId);
    var source := cfg.lib.parseUuid(env.eventId);
    if !cfg.known(env.callerId) || documentId.None? || source.None? then DeadLetter
    else
      var id := cfg.lib.routedId(source.value);
      Route(source.value, id, DEDUPE_KEY_PREFIX + env.eventId, RoutedContent(cfg, env, documentId.value, id, traceId))
  }

  /** What becomes of a record, as far as the record decides it. */
  function Classify(cfg: Settings, rec: Record): Verdict {
    var env := Accepted(rec.value, cfg.lib.isTimestamp);
    var header := HeaderValue(rec.headers, HEADER_EVENT_ID);
    if env.None? || (header != "" && header != env.value.eventId) then DeadLetter
    else RouteEnvelope(cfg, env.value, HeaderValue(rec.headers, HEADER_TRACE_ID))
  }

  /** The key of a routed record: the caller's reference, or the document for want of one. */
  function MessageKey(lib: Library, content: Content): string {
    match Unmarshal(content.payload)
    case Some(env) => if env.externalRef != "" then env.externalRef else lib.uuidText(content.aggregateId)
    case None => lib.uuidText(content.aggregateId)
  }

  /** The record that a row stands for. */
  function Render(lib: Library, id: Uuid, content: Content): Message {
    var headers := [
      Header(HEADER_EVENT_ID, lib.uuidText(id)),
      Header(HEADER_EVENT_TYPE, content.eventType),
      Header(HEADER_EVENT_VERSION, Decimal(content.eventVersion)),
      Header(HEADER_SOURCE, SOURCE_SERVICE),
      Header(HEADER_AGG_TYPE, content.aggregateType),
      Header(HEADER_AGG_ID, lib.uuidText(content.aggregateId))];
    Message(content.topic, MessageKey(lib, content), content.payload,
            if content.traceId.Some? then headers + [Header(HEADER_TRACE_ID, content.traceId.value)] else headers)
  }

  lemma RenderedEventId(lib: Library, id: Uuid, content: Content)
    ensures HeaderValue(Render(lib, id, content).headers, HEADER_EVENT_ID) == lib.uuidText(id)
  {
  }

  /** What the headers say of the event: which routed event it is, what document it is about, and on what trace it came. */
  ghost predicate HeadersTell(lib: Library, source: Envelope, traceId: string, headers: seq<Header>) {
    && lib.parseUuid(source.eventId).Some? && lib.parseUuid(source.documentId).Some?
    && lib.parseUuid(HeaderValue(headers, "event-id")) == Some(lib.routedId(lib.parseUuid(source.eventId).value))
    && lib.parseUuid(HeaderValue(headers, "aggregate-id")) == lib.parseUuid(source.documentId)
    && HeaderValue(headers, "aggregate-type") == "document"
    && HeaderValue(headers, "event-type") == "document.routed"
    && HeaderValue(headers, "event-version") == "1"
    && HeaderValue(headers, "source-service") == "ocr-gateway"
    && HeaderValue(headers, "trace-id") == traceId
    && ((exists h :: h in headers && h.key == "trace-id") <==> traceId != "")
  }

  /** The headers of the record a row stands for. */
  lemma RenderedHeaders(lib: Library, id: Uuid, content: Content)
    ensures var headers := Render(lib, id, content).headers;
      && HeaderValue(headers, "event-id") == lib.uuidText(id) && HeaderValue(headers, "event-type") == content.eventType
      && HeaderValue(headers, "event-version") == Decimal(content.eventVersion)
      && HeaderValue(headers, "source-service") == "ocr-gateway" && HeaderValue(headers, "aggregate-type") == content.aggregateType
      && HeaderValue(headers, "aggregate-id") == lib.uuidText(content.aggregateId)
      && HeaderValue(headers, "trace-id") == (if content.traceId.Some? then content.traceId.value else "")
      && ((exists h :: h in headers && h.key == "trace-id") <==> content.traceId.Some?)
  {
    var headers := Render(lib, id, content).headers;
    assert |headers| == if content.traceId.Some? then 7 else 6;
    FirstHeader(headers, "event-id", 0);
    FirstHeader(headers, "event-type", 1);
    FirstHeader(headers, "event-version", 2);
    FirstHeader(headers, "source-service", 3);
    FirstHeader(headers, "aggregate-type", 4);
    FirstHeader(headers, "aggregate-id", 5);
    if content.traceId.Some? {
      FirstHeader(headers, "trace-id", 6);
      assert headers[6] in headers;
    } else {
      FirstHeader(headers, "trace-id", 6);
    }
  }

  /** The i-th header is the first of its name; past the end there is none. */
  lemma {:induction false} FirstHeader(headers: seq<Header>, name: string, i: nat)
    requires i <= |headers| && forall j :: 0 <= j < i ==> headers[j].key != name
    requires i < |headers| ==> headers[i].key == name
    ensures HeaderValue(headers, name) == if i < |headers| then headers[i].value else ""
  {
    if i > 0 {
      FirstHeader(headers[1..], name, i - 1);
    }
  }

  /**
   The value, key and topic: the value decodes to the source event with only the three courier fields changed, the key is
   the caller's reference and the topic the caller's, and the field checks of the gateway's own consumer let it through.
   */
  ghost predicate ValueIsFaithful(cfg: Settings, source: Envelope, eventId: string, m: Message) {
    var copy := Unmarshal(m.value);
    && copy.Some?
    && copy.value.(eventType := source.eventType, producer := source.producer, eventId := source.eventId) == Settled(source)
    && copy.value.eventType == "document.routed" && copy.value.producer == "ocr-gateway" && copy.value.eventId == eventId
    && m.key == copy.value.externalRef != ""
    && m.topic == RoutedTopic(cfg.template, copy.value.callerId)
    && (eventId != "" ==> Conforms(copy.value.(eventType := EVENT_TYPE_PROCESSED), cfg.lib.isTimestamp))
  }

  /** What a routed record says about the event it came from; it also passes the header check of the gateway's own consumer. */
  ghost predicate FaithfulCopy(cfg: Settings, source: Envelope, traceId: string, m: Message) {
    && ValueIsFaithful(cfg, source, HeaderValue(m.headers, "event-id"), m)
    && HeaderValue(m.headers, "event-id") != ""
    && HeadersTell(cfg.lib, source, traceId, m.headers)
  }

  lemma RoutedHeadersTell(cfg: Settings, rec: Record)
    requires Lawful(cfg.lib) && Classify(cfg, rec).Route?
    ensures var v := Classify(cfg, rec);
      && Accepted(rec.value, cfg.lib.isTimestamp).Some?
      && HeadersTell(cfg.lib, Accepted(rec.value, cfg.lib.isTimestamp).value, HeaderValue(rec.headers, "trace-id"),
                     Render(cfg.lib, v.id, v.content).headers)
  {
    var v := Classify(cfg, rec);
    RenderedHeaders(cfg.lib, v.id, v.content);
  }

  lemma RoutedValueIsFaithful(cfg: Settings, env: Envelope, documentId: Uuid, id: Uuid, traceId: string)
    requires Conforms(env, cfg.lib.isTimestamp)
    ensures ValueIsFaithful(cfg, env, cfg.lib.uuidText(id), Render(cfg.lib, id, RoutedContent(cfg, env, documentId, id, traceId)))
  {
    MarshalRoundTrip(Routed(cfg.lib, env, id));
    MarshalRoundTrip(env);
  }

  lemma RoutedRecordIsFaithful(cfg: Settings, rec: Record)
    requires Lawful(cfg.lib) && Classify(cfg, rec).Route?
    ensures Accepted(rec.value, cfg.lib.isTimestamp).Some?
    ensures var v := Classify(cfg, rec);
      FaithfulCopy(cfg, Accepted(rec.value, cfg.lib.isTimestamp).value, HeaderValue(rec.headers, "trace-id"),
                   Render(cfg.lib, v.id, v.content))
  {
    var v := Classify(cfg, rec);
    var env := Accepted(rec.value, cfg.lib.isTimestamp).value;
    RoutedHeadersTell(cfg, rec);
    RoutedValueIsFaithful(cfg, env, cfg.lib.parseUuid(env.documentId).value, v.id, HeaderValue(rec.headers, HEADER_TRACE_ID));
    RenderedEventId(cfg.lib, v.id, v.content);
    assert cfg.lib.uuidText(v.id) != "";
  }

  /** An event that the checks on the record alone let through, with proper identifiers. */
  predicate Proper(cfg: Settings, rec: Record, env: Envelope) {
    && Accepted(rec.value, cfg.lib.isTimestamp) == Some(env)
    && (HeaderValue(rec.headers, "event-id") == "" || HeaderValue(rec.headers, "event-id") == env.eventId)
    && cfg.lib.parseUuid(env.documentId).Some? && cfg.lib.parseUuid(env.eventId).Some?
  }

  /**
   For every record: it is routed exactly if its value is an accepted envelope, its event-id header is missing or the
   envelope's, the caller is known and both identifiers parse; the row and the mark are then named by the event.
   */
  lemma RoutedIff(cfg: Settings, rec: Record)
    ensures var v := Classify(cfg, rec);
      && (v.Route? <==> exists env :: Proper(cfg, rec, env) && cfg.known(env.callerId))
      && (v.Route? ==> var env := Accepted(rec.value, cfg.lib.isTimestamp).value;
            && Some(v.source) == cfg.lib.parseUuid(env.eventId) && v.id == cfg.lib.routedId(v.source)
            && v.mark == "ocr:dedupe:routed:v2:event:" + env.eventId)
  {
    if Classify(cfg, rec).Route? {
      assert Proper(cfg, rec, Accepted(rec.value, cfg.lib.isTimestamp).value);
    }
  }

  /** Whether a record is dead-lettered depends on its value and its event-id header alone. */
  lemma OutcomeIsInTheRecord(cfg: Settings, a: Record, b: Record)
    requires a.value == b.value && HeaderValue(a.headers, HEADER_EVENT_ID) == HeaderValue(b.headers, HEADER_EVENT_ID)
    ensures Classify(cfg, a).DeadLetter? <==> Classify(cfg, b).DeadLetter?
    ensures Classify(cfg, a).Route? ==> Classify(cfg, a).id == Classify(cfg, b).id && Classify(cfg, a).mark == Classify(cfg, b).mark
  {
  }

  /** Records with one Redis key have one row, whatever their spelling of other identifiers. */
  lemma SameMarkSameRow(cfg: Settings, a: Record, b: Record)
    requires Classify(cfg, a).Route? && Classify(cfg, b).Route? && Classify(cfg, a).mark == Classify(cfg, b).mark
    ensures Classify(cfg, a).id == Classify(cfg, b).id && Classify(cfg, a).source == Classify(cfg, b).source
  {
    var x := Accepted(a.value, cfg.lib.isTimestamp).value;
    var y := Accepted(b.value, cfg.lib.isTimestamp).value;
    PrefixCancels(DEDUPE_KEY_PREFIX, x.eventId, y.eventId);
  }
}
