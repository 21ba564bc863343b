/**
 The wire shape of one OCR document event (internal/envelope/envelope.go). The JSON
 library is taken as read: a record value arrives as a Document, in which every object
 member is already resolved to the struct field it decodes into.
 */
module Envelopes {
  import opened Prelude

  datatype Field =
    | SchemaVersion | EventId | EventType | OccurredAt | DocumentId | ExternalRef
    | CallerId | IdempotencyKey | Producer | Data | Error
    | Unknown(name: string)

  datatype Json = Null | Text(s: string) | Other(normalForm: string)

  datatype Document =
    | Malformed
    | NullDocument
    | NotAnObject
    | Object(members: map<Field, Json>)

  /** json.RawMessage: nil when the key is missing, otherwise some JSON value. */
  datatype Raw = Absent | Given(value: Json)

  datatype Envelope = Envelope(
    schemaVersion: string, eventId: string, eventType: string, occurredAt: string,
    documentId: string, externalRef: string, callerId: string, idempotencyKey: string,
    producer: string, data: Raw, error: Raw)

  const EMPTY := Envelope("", "", "", "", "", "", "", "", "", Absent, Absent)

  const EVENT_TYPE_PROCESSED := "document.processed"

  predicate Present(raw: Raw) {
    raw.Given? && raw.value != Null
  }

  /** A string member: missing and null leave the zero value, a non-string fails the decode. */
  function StringMember(members: map<Field, Json>, f: Field): Option<string> {
    if f !in members then Some("")
    else match members[f]
      case Null => Some("")
      case Text(s) => Some(s)
      case Other(_) => None
  }

  function RawMember(members: map<Field, Json>, f: Field): Raw {
    if f in members then Given(members[f]) else Absent
  }

  function Unmarshal(value: Document): Option<Envelope> {
    match value
    case Malformed => None
    case NotAnObject => None
    case NullDocument => Some(EMPTY)
    case Object(m) =>
      var s := StringMember(m, SchemaVersion);
      var id := StringMember(m, EventId);
      var t := StringMember(m, EventType);
      var o := StringMember(m, OccurredAt);
      var d := StringMember(m, DocumentId);
      var x := StringMember(m, ExternalRef);
      var c := StringMember(m, CallerId);
      var k := StringMember(m, IdempotencyKey);
      var p := StringMember(m, Producer);
      if s.None? || id.None? || t.None? || o.None? || d.None? || x.None? || c.None? || k.None? || p.None? then None
      else Some(Envelope(s.value, id.value, t.value, o.value, d.value, x.value, c.value, k.value, p.value,
                         RawMember(m, Data), RawMember(m, Error)))
  }

  /** The text that a field is decoded to: the member's, or nothing if it is missing or null. */
  predicate Reads(members: map<Field, Json>, f: Field, s: string) {
    if f in members && members[f] != Null then members[f] == Text(s) else s == ""
  }

  /** Missing stays apart from null. */
  predicate ReadsRaw(members: map<Field, Json>, f: Field, raw: Raw) {
    if f in members then raw == Given(members[f]) else raw == Absent
  }

  const TEXT_FIELDS: set<Field> := {
    SchemaVersion, EventId, EventType, OccurredAt, DocumentId, ExternalRef, CallerId, IdempotencyKey, Producer}

  predicate IsText(members: map<Field, Json>, f: Field) {
    f in members ==> !members[f].Other?
  }

  /** Each field is decoded from its own member. */
  predicate ReadsAll(members: map<Field, Json>, e: Envelope) {
    && Reads(members, SchemaVersion, e.schemaVersion) && Reads(members, EventId, e.eventId)
    && Reads(members, EventType, e.eventType) && Reads(members, OccurredAt, e.occurredAt)
    && Reads(members, DocumentId, e.documentId) && Reads(members, ExternalRef, e.externalRef)
    && Reads(members, CallerId, e.callerId) && Reads(members, IdempotencyKey, e.idempotencyKey)
    && Reads(members, Producer, e.producer)
    && ReadsRaw(members, Data, e.data) && ReadsRaw(members, Error, e.error)
  }

  lemma ObjectDecodes(members: map<Field, Json>)
    ensures Unmarshal(Object(members)).Some? <==> forall f :: f in TEXT_FIELDS ==> IsText(members, f)
    ensures Unmarshal(Object(members)).Some? ==> ReadsAll(members, Unmarshal(Object(members)).value)
  {
    if Unmarshal(Object(members)).None? {
      assert exists f :: f in TEXT_FIELDS && !IsText(members, f);
    } else {
      assert forall f :: f in TEXT_FIELDS ==> StringMember(members, f).Some?;
    }
  }

  /** A value decodes exactly if it is null, or an object whose text members are texts or null; then field by field. */
  lemma UnmarshalIff(value: Document)
    ensures Unmarshal(value).Some? <==>
      value.NullDocument? || (value.Object? && forall f :: f in TEXT_FIELDS ==> IsText(value.members, f))
    ensures Unmarshal(value).Some? ==>
      ReadsAll(if value.Object? then value.members else map[], Unmarshal(value).value)
  {
    if value.Object? {
      ObjectDecodes(value.members);
    }
  }

  /** A nil RawMessage is encoded as null. */
  function MarshalRaw(raw: Raw): Json {
    if raw.Given? then raw.value else Null
  }

  function Marshal(e: Envelope): Document {
    Object(map[
      SchemaVersion := Text(e.schemaVersion), EventId := Text(e.eventId), EventType := Text(e.eventType),
      OccurredAt := Text(e.occurredAt), DocumentId := Text(e.documentId), ExternalRef := Text(e.externalRef),
      CallerId := Text(e.callerId), IdempotencyKey := Text(e.idempotencyKey), Producer := Text(e.producer),
      Data := MarshalRaw(e.data), Error := MarshalRaw(e.error)])
  }

  /** What re-encoding makes of an envelope: the same, except that a missing data or error becomes null. */
  function Settled(e: Envelope): Envelope {
    e.(data := Given(MarshalRaw(e.data)), error := Given(MarshalRaw(e.error)))
  }

  /** The text members of an encoded envelope; nothing is left out of it. */
  lemma MarshalTexts(e: Envelope)
    ensures Marshal(e).members.Keys == TEXT_FIELDS + {Data, Error}
    ensures forall f :: f in TEXT_FIELDS ==> Marshal(e).members[f].Text?
    ensures var m := Marshal(e).members;
      && StringMember(m, SchemaVersion) == Some(e.schemaVersion) && StringMember(m, EventId) == Some(e.eventId)
      && StringMember(m, EventType) == Some(e.eventType) && StringMember(m, OccurredAt) == Some(e.occurredAt)
      && StringMember(m, DocumentId) == Some(e.documentId) && StringMember(m, ExternalRef) == Some(e.externalRef)
      && StringMember(m, CallerId) == Some(e.callerId) && StringMember(m, IdempotencyKey) == Some(e.idempotencyKey)
      && StringMember(m, Producer) == Some(e.producer)
  {
  }

  lemma MarshalRaws(e: Envelope)
    ensures var m := Marshal(e).members;
      RawMember(m, Data) == Settled(e).data && RawMember(m, Error) == Settled(e).error
  {
  }

  /** Encoding loses nothing but the difference between a missing and a null data or error. */
  lemma MarshalRoundTrip(e: Envelope)
    ensures Unmarshal(Marshal(e)) == Some(Settled(e))
    ensures Marshal(e).members.Keys == TEXT_FIELDS + {Data, Error}
    ensures forall f :: f in TEXT_FIELDS ==> Marshal(e).members[f].Text?
    ensures Marshal(Settled(e)) == Marshal(e)
    ensures Present(Settled(e).data) <==> Present(e.data)
    ensures Present(Settled(e).error) <==> Present(e.error)
  {
    MarshalTexts(e);
    MarshalRaws(e);
    assert Settled(Settled(e)) == Settled(e);
  }

  /** The round trip is exact exactly if neither data nor error is missing. */
  lemma MarshalExactIff(e: Envelope)
    ensures Unmarshal(Marshal(e)) == Some(e) <==> e.data.Given? && e.error.Given?
  {
    MarshalRoundTrip(e);
  }

  datatype Violation =
    | Undecodable
    | SchemaVersionMissing | EventIdMissing | WrongEventType | BadTimestamp | DocumentIdMissing
    | ExternalRefMissing | CallerIdMissing | IdempotencyKeyMissing | BothPresent | BothAbsent

  /** Which rules of the input contract an envelope breaks. */
  predicate Breaks(e: Envelope, v: Violation, isTimestamp: string -> bool) {
    match v
    case Undecodable => false
    case SchemaVersionMissing => e.schemaVersion == ""
    case EventIdMissing => e.eventId == ""
    case WrongEventType => e.eventType != EVENT_TYPE_PROCESSED
    case BadTimestamp => !isTimestamp(e.occurredAt)
    case DocumentIdMissing => e.documentId == ""
    case ExternalRefMissing => e.externalRef == ""
    case CallerIdMissing => e.callerId == ""
    case IdempotencyKeyMissing => e.idempotencyKey == ""
    case BothPresent => Present(e.data) && Present(e.error)
    case BothAbsent => !Present(e.data) && !Present(e.error)
  }

  /** An envelope that satisfies the input contract. */
  predicate Conforms(e: Envelope, isTimestamp: string -> bool) {
    && e.schemaVersion != "" && e.eventId != "" && e.eventType == EVENT_TYPE_PROCESSED
    && isTimestamp(e.occurredAt)
    && e.documentId != "" && e.externalRef != "" && e.callerId != "" && e.idempotencyKey != ""
    && (Present(e.data) <==> !Present(e.error))
  }

  /** What a record value is worth to the consumer: the accepted envelope, if any. */
  function Accepted(value: Document, isTimestamp: string -> bool): Option<Envelope> {
    match Unmarshal(value)
    case None => None
    case Some(e) => if Conforms(e, isTimestamp) then Some(e) else None
  }

  predicate Filled(members: map<Field, Json>, f: Field) {
    f in members && members[f].Text? && members[f].s != ""
  }

  predicate HasValue(members: map<Field, Json>, f: Field) {
    f in members && members[f] != Null
  }

  /** What the input contract asks of the members of a record value, as they are on the wire. */
  predicate WireConforms(members: map<Field, Json>, isTimestamp: string -> bool) {
    && Filled(members, SchemaVersion) && Filled(members, EventId) && Filled(members, DocumentId)
    && Filled(members, ExternalRef) && Filled(members, CallerId) && Filled(members, IdempotencyKey)
    && EventType in members && members[EventType] == Text("document.processed")
    && isTimestamp(if Filled(members, OccurredAt) then members[OccurredAt].s else "") && IsText(members, OccurredAt)
    && IsText(members, Producer)
    && (HasValue(members, Data) <==> !HasValue(members, Error))
  }

  /** Decoding and validation together: a record value is accepted exactly if its members are as the contract asks. */
  lemma AcceptedIff(value: Document, isTimestamp: string -> bool)
    ensures Accepted(value, isTimestamp).Some? <==> value.Object? && WireConforms(value.members, isTimestamp)
  {
    UnmarshalIff(value);
    if value.Object? && WireConforms(value.members, isTimestamp) {
      assert forall f :: f in TEXT_FIELDS ==> IsText(value.members, f);
    }
  }

  /** The order in which the rules are checked. */
  ghost function Turn(v: Violation): nat {
    match v
    case Undecodable => 0
    case SchemaVersionMissing => 1
    case EventIdMissing => 2
    case WrongEventType => 3
    case BadTimestamp => 4
    case DocumentIdMissing => 5
    case ExternalRefMissing => 6
    case CallerIdMissing => 7
    case IdempotencyKeyMissing => 8
    case BothPresent => 9
    case BothAbsent => 10
  }

  method AppendIf(errs: seq<Violation>, broken: bool, v: Violation, ghost env: Envelope, ghost isTimestamp: string -> bool)
    returns (r: seq<Violation>)
    requires forall u :: u in errs <==> Turn(u) < Turn(v) && Breaks(env, u, isTimestamp)
    requires broken == Breaks(env, v, isTimestamp)
    ensures forall u :: u in r <==> Turn(u) < Turn(v) + 1 && Breaks(env, u, isTimestamp)
  {
    assert forall u :: Turn(u) == Turn(v) ==> u == v;
    r := if broken then errs + [v] else errs;
  }

  lemma ConformsBreaksNothing(e: Envelope, isTimestamp: string -> bool)
    ensures Conforms(e, isTimestamp) <==> forall v :: !Breaks(e, v, isTimestamp)
  {
    if !Conforms(e, isTimestamp) {
      assert exists v :: Breaks(e, v, isTimestamp) by {
        if e.schemaVersion == "" { assert Breaks(e, SchemaVersionMissing, isTimestamp); }
        else if e.eventId == "" { assert Breaks(e, EventIdMissing, isTimestamp); }
        else if e.eventType != EVENT_TYPE_PROCESSED { assert Breaks(e, WrongEventType, isTimestamp); }
        else if !isTimestamp(e.occurredAt) { assert Breaks(e, BadTimestamp, isTimestamp); }
        else if e.documentId == "" { assert Breaks(e, DocumentIdMissing, isTimestamp); }
        else if e.externalRef == "" { assert Breaks(e, ExternalRefMissing, isTimestamp); }
        else if e.callerId == "" { assert Breaks(e, CallerIdMissing, isTimestamp); }
        else if e.idempotencyKey == "" { assert Breaks(e, IdempotencyKeyMissing, isTimestamp); }
        else if Present(e.data) { assert Breaks(e, BothPresent, isTimestamp); }
        else { assert Breaks(e, BothAbsent, isTimestamp); }
      }
    }
  }

  /** The checks on what the event is and when it happened. */
  method EventViolations(env: Envelope, isTimestamp: string -> bool) returns (errs: seq<Violation>)
    ensures forall v :: v in errs <==> Turn(v) < Turn(DocumentIdMissing) && Breaks(env, v, isTimestamp)
  {
    errs := [];
    errs := AppendIf(errs, env.schemaVersion == "", SchemaVersionMissing, env, isTimestamp);
    errs := AppendIf(errs, env.eventId == "", EventIdMissing, env, isTimestamp);
    errs := AppendIf(errs, env.eventType != EVENT_TYPE_PROCESSED, WrongEventType, env, isTimestamp);
    errs := AppendIf(errs, !isTimestamp(env.occurredAt), BadTimestamp, env, isTimestamp);
  }

  /** Those, and the checks that the references are there. */
  method ReferenceViolations(env: Envelope, isTimestamp: string -> bool) returns (errs: seq<Violation>)
    ensures forall v :: v in errs <==> Turn(v) < Turn(BothPresent) && Breaks(env, v, isTimestamp)
  {
    errs := EventViolations(env, isTimestamp);
    errs := AppendIf(errs, env.documentId == "", DocumentIdMissing, env, isTimestamp);
    errs := AppendIf(errs, env.externalRef == "", ExternalRefMissing, env, isTimestamp);
    errs := AppendIf(errs, env.callerId == "", CallerIdMissing, env, isTimestamp);
    errs := AppendIf(errs, env.idempotencyKey == "", IdempotencyKeyMissing, env, isTimestamp);
  }

  /** Lists the rules an envelope breaks, in the order they are checked. */
  method Violations(env: Envelope, isTimestamp: string -> bool) returns (errs: seq<Violation>)
    ensures forall v :: v in errs <==> Breaks(env, v, isTimestamp)
  {
    errs := ReferenceViolations(env, isTimestamp);
    errs := AppendIf(errs, Present(env.data) && Present(env.error), BothPresent, env, isTimestamp);
    errs := AppendIf(errs, !Present(env.data) && !Present(env.error), BothAbsent, env, isTimestamp);
  }

  /** Decodes and validates a record; a rejection lists every broken rule and no other. */
  method Parse(value: Document, isTimestamp: string -> bool) returns (r: Result<Envelope, seq<Violation>>)
    ensures r.Ok? <==> Accepted(value, isTimestamp).Some?
    ensures r.Ok? ==> r.value == Accepted(value, isTimestamp).value
    ensures r.Err? ==> r.error != []
    ensures r.Err? && Unmarshal(value).Some? ==>
      forall v :: v in r.error <==> Breaks(Unmarshal(value).value, v, isTimestamp)
  {
    var decoded := Unmarshal(value);
    if decoded.None? {
      return Err([Undecodable]);
    }
    var errs := Violations(decoded.value, isTimestamp);
    ConformsBreaksNothing(decoded.value, isTimestamp);
    if errs != [] {
      assert errs[0] in errs;
      return Err(errs);
    }
    return Ok(decoded.value);
  }
}
