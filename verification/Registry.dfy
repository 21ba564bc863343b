/**
 The registered callers: what configuration accepts (internal/config/config.go) and the
 tables that authentication, rate limits and routing read from it
 (internal/server/auth.go, internal/server/grpc_server.go, internal/service/gateway/service.go).
 */
module Registry {
  import opened Prelude
  import Envelopes
  import Kafka
  import Routing
  import RateLimiter

  datatype RateLimit = RateLimit(requests: int, window: int)

  datatype CallerConfig = CallerConfig(name: string, apiKeyHash: string, rateLimit: RateLimit, docTypes: map<string, string>)

  /** The gateway section of the configuration. */
  datatype Gateway = Gateway(dedupeTtl: Time, template: string, callers: seq<CallerConfig>)

  predicate IsLower(c: char) {
    'a' <= c <= 'z'
  }

  /** ^[a-z][a-z0-9_-]*$ */
  predicate IsName(s: string) {
    s != "" && IsLower(s[0]) && forall c :: c in s ==> IsLower(c) || IsDigit(c) || c == '_' || c == '-'
  }

  /** ^[0-9a-f]{64}$ */
  predicate IsKeyHash(s: string) {
    |s| == 64 && forall c :: c in s ==> IsDigit(c) || 'a' <= c <= 'f'
  }

  const LETTERS := "abcdefghijklmnopqrstuvwxyz"
  const DIGITS := "0123456789"

  lemma DigitIff(c: char)
    ensures IsDigit(c) <==> c in DIGITS
  {
    if IsDigit(c) {
      assert DIGITS[c as int - '0' as int] == c;
    }
  }

  lemma LetterIff(c: char)
    ensures IsLower(c) <==> c in LETTERS
  {
    if IsLower(c) {
      assert LETTERS[c as int - 'a' as int] == c;
    }
  }

  lemma HexIff(c: char)
    ensures IsDigit(c) || 'a' <= c <= 'f' <==> c in DIGITS + "abcdef"
  {
    DigitIff(c);
    if 'a' <= c <= 'f' {
      assert "abcdef"[c as int - 'a' as int] == c;
    }
  }

  /** What is a name and what a key hash, letter by letter. */
  lemma NameAndHashIff(s: string)
    ensures IsName(s) <==> s != "" && s[0] in LETTERS && forall c :: c in s ==> c in LETTERS + DIGITS + "_-"
    ensures IsKeyHash(s) <==> |s| == 64 && forall c :: c in s ==> c in DIGITS + "abcdef"
  {
    forall c | c in s
      ensures IsDigit(c) <==> c in DIGITS
      ensures IsLower(c) <==> c in LETTERS
      ensures IsDigit(c) || 'a' <= c <= 'f' <==> c in DIGITS + "abcdef"
    {
      DigitIff(c);
      LetterIff(c);
      HexIff(c);
    }
  }

  /** What validation can find wrong; callers are named by their place in the list. */
  datatype Fault =
    | TtlTooShort | TemplateEmpty | TemplateVerbs | NoCallers
    | BadName(i: nat) | DuplicateName(i: nat) | BadKeyHash(i: nat) | NoRequests(i: nat) | NoWindow(i: nat)
    | NoDocTypes(i: nat) | EmptyDocType(i: nat, docType: string)

  /** A caller whose name is fit to be one; nothing else is checked of the others. */
  predicate Named(callers: seq<CallerConfig>, i: nat) {
    i < |callers| && IsName(callers[i].name)
  }

  predicate NamedBefore(callers: seq<CallerConfig>, i: nat, name: string) {
    exists j :: 0 <= j < i && j < |callers| && callers[j].name == name
  }

  predicate Breaks(g: Gateway, f: Fault) {
    match f
    case TtlTooShort => g.dedupeTtl < DAY
    case TemplateEmpty => g.template == ""
    case TemplateVerbs => g.template != "" && Routing.Verbs(g.template) != 1
    case NoCallers => g.callers == []
    case BadName(i) => i < |g.callers| && !IsName(g.callers[i].name)
    case DuplicateName(i) => Named(g.callers, i) && NamedBefore(g.callers, i, g.callers[i].name)
    case BadKeyHash(i) => Named(g.callers, i) && !IsKeyHash(g.callers[i].apiKeyHash)
    case NoRequests(i) => Named(g.callers, i) && g.callers[i].rateLimit.requests <= 0
    case NoWindow(i) => Named(g.callers, i) && g.callers[i].rateLimit.window <= 0
    case NoDocTypes(i) => Named(g.callers, i) && g.callers[i].docTypes == map[]
    case EmptyDocType(i, docType) =>
      Named(g.callers, i) && docType in g.callers[i].docTypes && (docType == "" || g.callers[i].docTypes[docType] == "")
  }

  predicate ValidCaller(c: CallerConfig) {
    && IsName(c.name) && IsKeyHash(c.apiKeyHash)
    && c.rateLimit.requests > 0 && c.rateLimit.window > 0
    && c.docTypes != map[] && "" !in c.docTypes.Keys && "" !in c.docTypes.Values
  }

  predicate DistinctNames(callers: seq<CallerConfig>) {
    forall i, j :: 0 <= i < j < |callers| ==> callers[i].name != callers[j].name
  }

  /** A configuration the gateway can start with. */
  predicate ValidGateway(g: Gateway) {
    && g.dedupeTtl >= DAY && Routing.Verbs(g.template) == 1 && g.callers != []
    && (forall i :: 0 <= i < |g.callers| ==> ValidCaller(g.callers[i]))
    && DistinctNames(g.callers)
  }

  lemma FaultlessCaller(g: Gateway, i: nat)
    requires i < |g.callers| && forall f :: !Breaks(g, f)
    ensures ValidCaller(g.callers[i]) && !NamedBefore(g.callers, i, g.callers[i].name)
  {
    assert !Breaks(g, BadName(i)) && !Breaks(g, DuplicateName(i)) && !Breaks(g, BadKeyHash(i));
    assert !Breaks(g, NoRequests(i)) && !Breaks(g, NoWindow(i)) && !Breaks(g, NoDocTypes(i));
    var docTypes := g.callers[i].docTypes;
    forall d | d in docTypes ensures d != "" && docTypes[d] != "" {
      assert !Breaks(g, EmptyDocType(i, d));
    }
  }

  /** The checks, which look at one thing each, together mean exactly this. */
  lemma ValidMeansFaultless(g: Gateway)
    ensures ValidGateway(g) <==> forall f :: !Breaks(g, f)
  {
    if forall f :: !Breaks(g, f) {
      assert !Breaks(g, TtlTooShort) && !Breaks(g, TemplateEmpty) && !Breaks(g, TemplateVerbs) && !Breaks(g, NoCallers);
      forall i | 0 <= i < |g.callers| ensures ValidCaller(g.callers[i]) && !NamedBefore(g.callers, i, g.callers[i].name) {
        FaultlessCaller(g, i);
      }
    }
    if ValidGateway(g) {
      forall f ensures !Breaks(g, f) {
        if f.EmptyDocType? && f.i < |g.callers| && f.docType in g.callers[f.i].docTypes {
          assert g.callers[f.i].docTypes[f.docType] in g.callers[f.i].docTypes.Values;
        }
      }
    }
  }

  // The tables built from the list; a later entry replaces an earlier one with its key.

  datatype Caller = Caller(name: string, docTypes: map<string, string>)

  function CallerOf(c: CallerConfig): Caller {
    Caller(c.name, c.docTypes)
  }

  function ByKeyHash(callers: seq<CallerConfig>): map<string, Caller> {
    if callers == [] then map[]
    else
      var last := callers[|callers| - 1];
      ByKeyHash(callers[..|callers| - 1])[last.apiKeyHash := CallerOf(last)]
  }

  function Limits(callers: seq<CallerConfig>): map<string, CallerConfig> {
    if callers == [] then map[]
    else
      var last := callers[|callers| - 1];
      Limits(callers[..|callers| - 1])[last.name := last]
  }

  /** The i-th caller's key hash is not used by a later one. */
  predicate LastOfItsHash(callers: seq<CallerConfig>, i: nat) {
    i < |callers| && forall j :: i < j < |callers| ==> callers[j].apiKeyHash != callers[i].apiKeyHash
  }

  ghost predicate StandsFor(callers: seq<CallerConfig>, hash: string, i: nat)
    requires hash in ByKeyHash(callers)
  {
    LastOfItsHash(callers, i) && callers[i].apiKeyHash == hash && ByKeyHash(callers)[hash] == CallerOf(callers[i])
  }

  lemma StillStandsFor(callers: seq<CallerConfig>, hash: string, i: nat)
    requires callers != [] && callers[|callers| - 1].apiKeyHash != hash
    requires hash in ByKeyHash(callers[..|callers| - 1]) && StandsFor(callers[..|callers| - 1], hash, i)
    ensures StandsFor(callers, hash, i)
  {
    assert callers[i] == callers[..|callers| - 1][i];
  }

  /** Who a key hash stands for: the last caller configured with it. */
  lemma {:induction false} HashStandsFor(callers: seq<CallerConfig>, hash: string)
    ensures hash in ByKeyHash(callers) ==> exists i: nat :: StandsFor(callers, hash, i)
    decreases |callers|
  {
    if hash in ByKeyHash(callers) {
      var n := |callers| - 1;
      if callers[n].apiKeyHash == hash {
        assert StandsFor(callers, hash, n);
      } else {
        HashStandsFor(callers[..n], hash);
        var i: nat :| StandsFor(callers[..n], hash, i);
        StillStandsFor(callers, hash, i);
      }
    }
  }

  lemma {:induction false} LastHashWins(callers: seq<CallerConfig>, i: nat)
    requires LastOfItsHash(callers, i)
    ensures callers[i].apiKeyHash in ByKeyHash(callers) && ByKeyHash(callers)[callers[i].apiKeyHash] == CallerOf(callers[i])
    decreases |callers|
  {
    if i < |callers| - 1 {
      var init := callers[..|callers| - 1];
      assert LastOfItsHash(init, i);
      LastHashWins(init, i);
    }
  }

  /** Of several entries with one name the last counts. */
  lemma {:induction false} LastNameWins(callers: seq<CallerConfig>, i: nat)
    requires i < |callers| && forall j :: i < j < |callers| ==> callers[j].name != callers[i].name
    ensures callers[i].name in Limits(callers) && Limits(callers)[callers[i].name] == callers[i]
    decreases |callers|
  {
    if i < |callers| - 1 {
      LastNameWins(callers[..|callers| - 1], i);
    }
  }

  /** With distinct names every caller has the limit configured for it. */
  lemma {:induction false} LimitsAreOwn(callers: seq<CallerConfig>)
    requires DistinctNames(callers)
    ensures forall i :: 0 <= i < |callers| ==> callers[i].name in Limits(callers) && Limits(callers)[callers[i].name] == callers[i]
    ensures forall name :: name in Limits(callers) ==> exists i :: 0 <= i < |callers| && callers[i] == Limits(callers)[name] && callers[i].name == name
    decreases |callers|
  {
    if callers != [] {
      var n := |callers| - 1;
      var init := callers[..n];
      LimitsAreOwn(init);
      forall name | name in Limits(callers)
        ensures exists i :: 0 <= i < |callers| && callers[i] == Limits(callers)[name] && callers[i].name == name
      {
        if name != callers[n].name {
          var i :| 0 <= i < |init| && init[i] == Limits(init)[name] && init[i].name == name;
          assert callers[i] == init[i];
        } else {
          assert callers[n] == Limits(callers)[name];
        }
      }
      forall i | 0 <= i < |callers| ensures callers[i].name in Limits(callers) && Limits(callers)[callers[i].name] == callers[i] {
        assert i < n ==> init[i] == callers[i];
      }
    }
  }

  /** The caller a presented key belongs to. */
  function Lookup(byKeyHash: map<string, Caller>, hash: string -> string, apiKey: string): Option<Caller> {
    if hash(apiKey) in byKeyHash then Some(byKeyHash[hash(apiKey)]) else None
  }

  predicate KnownCaller(byKeyHash: map<string, Caller>, name: string) {
    exists h :: h in byKeyHash && byKeyHash[h].name == name
  }

  predicate Configured(callers: seq<CallerConfig>, name: string) {
    exists i :: 0 <= i < |callers| && callers[i].name == name
  }

  predicate DistinctHashes(callers: seq<CallerConfig>) {
    forall i, j :: 0 <= i < j < |callers| ==> callers[i].apiKeyHash != callers[j].apiKeyHash
  }

  /** Exactly the callers whose key hash no later caller repeats are known. */
  lemma KnownIff(callers: seq<CallerConfig>, name: string)
    ensures KnownCaller(ByKeyHash(callers), name) <==> exists i: nat :: LastOfItsHash(callers, i) && callers[i].name == name
  {
    var reg := ByKeyHash(callers);
    if KnownCaller(reg, name) {
      var h :| h in reg && reg[h].name == name;
      HashStandsFor(callers, h);
    }
    if i: nat :| LastOfItsHash(callers, i) && callers[i].name == name {
      LastHashWins(callers, i);
      assert reg[callers[i].apiKeyHash].name == name;
    }
  }

  /** Of callers with distinct names, all are known exactly if their key hashes are distinct too. */
  lemma AllKnownIff(callers: seq<CallerConfig>)
    requires DistinctNames(callers)
    ensures DistinctHashes(callers) <==> forall name :: KnownCaller(ByKeyHash(callers), name) <==> Configured(callers, name)
  {
    var reg := ByKeyHash(callers);
    forall name ensures KnownCaller(reg, name) <==> exists i: nat :: LastOfItsHash(callers, i) && callers[i].name == name {
      KnownIff(callers, name);
    }
    if DistinctHashes(callers) {
      forall name | Configured(callers, name) ensures KnownCaller(reg, name) {
        var i :| 0 <= i < |callers| && callers[i].name == name;
        assert LastOfItsHash(callers, i);
      }
    } else {
      var i, j :| 0 <= i < j < |callers| && callers[i].apiKeyHash == callers[j].apiKeyHash;
      assert Configured(callers, callers[i].name);
      assert !LastOfItsHash(callers, i);
      assert !KnownCaller(reg, callers[i].name);
    }
  }

  /** Two callers that share a key: the earlier one is configured, yet no event is taken to be its. */
  lemma SharedKeyShadows(callers: seq<CallerConfig>, i: nat, j: nat)
    requires DistinctNames(callers) && i < j < |callers| && callers[i].apiKeyHash == callers[j].apiKeyHash
    ensures !KnownCaller(ByKeyHash(callers), callers[i].name)
  {
    KnownIff(callers, callers[i].name);
    assert forall k: nat :: k < |callers| && callers[k].name == callers[i].name ==> k == i;
  }

  /** And whoever presents the key is taken for somebody else. */
  lemma ShadowedCannotAuthenticate(callers: seq<CallerConfig>, hash: string -> string, key: string, i: nat, j: nat)
    requires DistinctNames(callers) && i < j < |callers| && callers[i].apiKeyHash == callers[j].apiKeyHash
    requires Lookup(ByKeyHash(callers), hash, key).Some?
    ensures Lookup(ByKeyHash(callers), hash, key).value.name != callers[i].name
  {
    SharedKeyShadows(callers, i, j);
    var h := hash(key);
    assert h in ByKeyHash(callers);
  }

  // Submitting a document.

  datatype SubmitInput = SubmitInput(
    idempotencyKey: string, externalRef: string, docType: string, bucket: string, storagePath: string,
    sizeBytes: int, declaredMime: string)

  /** What the engine is asked to do. */
  datatype EngineRequest = EngineRequest(
    idempotencyKey: string, externalRef: string, schemaId: string, callerId: string,
    bucket: string, storagePath: string, sizeBytes: int, declaredMime: string)

  datatype SubmitError = NoCaller | MissingField | UnknownDocType

  /** The request that a submit is forwarded as; the caller is the authenticated one, whatever the input says. */
  function Submit(caller: Option<Caller>, input: SubmitInput): Result<EngineRequest, SubmitError> {
    if caller.None? then Err(NoCaller)
    else if input.idempotencyKey == "" || input.externalRef == "" || input.bucket == "" || input.storagePath == "" then
      Err(MissingField)
    else if input.docType !in caller.value.docTypes then Err(UnknownDocType)
    else
      Ok(EngineRequest(input.idempotencyKey, input.externalRef, caller.value.docTypes[input.docType], caller.value.name,
                       input.bucket, input.storagePath, input.sizeBytes, input.declaredMime))
  }

  /** A submit that the engine can be asked: all is there, and the caller may have such documents read. */
  predicate Complete(c: CallerConfig, input: SubmitInput) {
    && input.idempotencyKey != "" && input.externalRef != "" && input.bucket != "" && input.storagePath != ""
    && input.docType in c.docTypes
  }

  /**
   A submit is forwarded exactly if the presented key is configured and the submit complete; the engine is asked for what
   was submitted, under the schema and the name configured for that key, whatever the input says of them.
   */
  lemma SubmitIff(callers: seq<CallerConfig>, hash: string -> string, apiKey: string, input: SubmitInput)
    ensures var r := Submit(Lookup(ByKeyHash(callers), hash, apiKey), input);
      && (r.Ok? <==> exists i: nat :: LastOfItsHash(callers, i) && callers[i].apiKeyHash == hash(apiKey) && Complete(callers[i], input))
      && (forall i: nat :: r.Ok? && LastOfItsHash(callers, i) && callers[i].apiKeyHash == hash(apiKey) ==>
            && r.value.schemaId == callers[i].docTypes[input.docType] && r.value.callerId == callers[i].name
            && r.value.idempotencyKey == input.idempotencyKey && r.value.externalRef == input.externalRef
            && r.value.bucket == input.bucket && r.value.storagePath == input.storagePath
            && r.value.sizeBytes == input.sizeBytes && r.value.declaredMime == input.declaredMime)
      && (r == Err(NoCaller) <==> forall i :: 0 <= i < |callers| ==> callers[i].apiKeyHash != hash(apiKey))
      && (r == Err(MissingField) <==>
            && (exists i :: 0 <= i < |callers| && callers[i].apiKeyHash == hash(apiKey))
            && (input.idempotencyKey == "" || input.externalRef == "" || input.bucket == "" || input.storagePath == ""))
      && (forall i: nat :: r == Err(UnknownDocType) && LastOfItsHash(callers, i) && callers[i].apiKeyHash == hash(apiKey) ==>
            input.docType !in callers[i].docTypes)
  {
    HashStandsFor(callers, hash(apiKey));
    HashIsIndexed(callers, hash(apiKey));
    forall i: nat | LastOfItsHash(callers, i) {
      LastHashWins(callers, i);
    }
  }

  lemma {:induction false} HashIsIndexed(callers: seq<CallerConfig>, hash: string)
    ensures hash in ByKeyHash(callers) <==> exists i :: 0 <= i < |callers| && callers[i].apiKeyHash == hash
    decreases |callers|
  {
    if callers != [] {
      var init := callers[..|callers| - 1];
      HashIsIndexed(init, hash);
      assert forall i :: 0 <= i < |init| ==> init[i] == callers[i];
    }
  }

  // From submit to route.

  /** What the router and the gateway read from one configuration. */
  ghost predicate SameConfiguration(g: Gateway, cfg: Routing.Settings) {
    && cfg.template == g.template
    && forall name :: cfg.known(name) <==> KnownCaller(ByKeyHash(g.callers), name)
  }

  /** Whoever authenticates is known, has a positive limit configured under the very key it presented. */
  lemma AuthenticatedIsConfigured(g: Gateway, hash: string -> string, apiKey: string)
    requires ValidGateway(g) && Lookup(ByKeyHash(g.callers), hash, apiKey).Some?
    ensures var caller := Lookup(ByKeyHash(g.callers), hash, apiKey).value;
      && caller.name in Limits(g.callers) && KnownCaller(ByKeyHash(g.callers), caller.name)
      && (var limit := Limits(g.callers)[caller.name];
          && ValidCaller(limit) && limit.apiKeyHash == hash(apiKey) && CallerOf(limit) == caller)
  {
    var reg := ByKeyHash(g.callers);
    HashStandsFor(g.callers, hash(apiKey));
    LimitsAreOwn(g.callers);
    assert reg[hash(apiKey)].name == Lookup(reg, hash, apiKey).value.name;
  }

  /** The result event of a request, as far as the router looks: it echoes the request's caller and reference. */
  predicate Echoes(req: EngineRequest, env: Envelopes.Envelope) {
    env.callerId == req.callerId && env.externalRef == req.externalRef
  }

  /**
   A submit's result finds its way back: the event is routed, not dead-lettered, and the record is published to the
   submitting caller's topic under the submit's own reference.
   */
  lemma SubmitFindsItsWayBack(
    g: Gateway, cfg: Routing.Settings, hash: string -> string, apiKey: string, input: SubmitInput, rec: Kafka.Record)
    requires ValidGateway(g) && SameConfiguration(g, cfg)
    requires Submit(Lookup(ByKeyHash(g.callers), hash, apiKey), input).Ok?
    requires Envelopes.Accepted(rec.value, cfg.lib.isTimestamp).Some?
    requires var env := Envelopes.Accepted(rec.value, cfg.lib.isTimestamp).value;
      && Echoes(Submit(Lookup(ByKeyHash(g.callers), hash, apiKey), input).value, env)
      && cfg.lib.parseUuid(env.documentId).Some? && cfg.lib.parseUuid(env.eventId).Some?
      && Kafka.HeaderValue(rec.headers, Routing.HEADER_EVENT_ID) in ["", env.eventId]
    ensures var caller := Lookup(ByKeyHash(g.callers), hash, apiKey).value;
      var v := Routing.Classify(cfg, rec);
      && v.Route?
      && v.content.topic == Routing.RoutedTopic(g.template, caller.name)
      && Routing.MessageKey(cfg.lib, v.content) == input.externalRef
  {
    var env := Envelopes.Accepted(rec.value, cfg.lib.isTimestamp).value;
    AuthenticatedIsConfigured(g, hash, apiKey);
    var id := cfg.lib.routedId(cfg.lib.parseUuid(env.eventId).value);
    Envelopes.MarshalRoundTrip(Routing.Routed(cfg.lib, env, id));
  }

  /** Callers with different names are answered on different topics. */
  lemma TopicsAreOwn(g: Gateway, hash: string -> string, key: string, other: string)
    requires ValidGateway(g)
    requires Lookup(ByKeyHash(g.callers), hash, key).Some? && Lookup(ByKeyHash(g.callers), hash, other).Some?
    requires var name, rival := Lookup(ByKeyHash(g.callers), hash, key).value.name, Lookup(ByKeyHash(g.callers), hash, other).value.name;
      Routing.RoutedTopic(g.template, name) == Routing.RoutedTopic(g.template, rival)
    ensures Lookup(ByKeyHash(g.callers), hash, key) == Lookup(ByKeyHash(g.callers), hash, other) && hash(key) == hash(other)
  {
    var name, rival := Lookup(ByKeyHash(g.callers), hash, key).value.name, Lookup(ByKeyHash(g.callers), hash, other).value.name;
    Routing.RoutedTopicInjective(g.template, name, rival);
    AuthenticatedIsConfigured(g, hash, key);
    AuthenticatedIsConfigured(g, hash, other);
  }

  // What validation lets through: two callers with one key.

  function ZeroHash(): (h: string)
    ensures IsKeyHash(h)
  {
    seq(64, i => '0')
  }

  function SharedKeyGateway(): Gateway {
    var limit := RateLimit(1, 1);
    Gateway(DAY, "%s", [
      CallerConfig("a", ZeroHash(), limit, map["invoice" := "invoice.v1"]),
      CallerConfig("b", ZeroHash(), limit, map["invoice" := "invoice.v1"])])
  }

  /** A configuration that validation accepts although two callers share a key. */
  lemma SharedKeyIsAccepted()
    ensures ValidGateway(SharedKeyGateway()) && !DistinctHashes(SharedKeyGateway().callers)
  {
    var callers := SharedKeyGateway().callers;
    assert Routing.Verbs("%s") == 1;
    assert callers[0].apiKeyHash == callers[1].apiKeyHash;
    forall i | 0 <= i < |callers| ensures ValidCaller(callers[i]) {
      assert callers[i].docTypes.Keys == {"invoice"};
      assert callers[i].docTypes["invoice"] == "invoice.v1";
    }
  }

  /** A proper event that names the i-th caller. */
  ghost predicate EventOf(callers: seq<CallerConfig>, cfg: Routing.Settings, rec: Kafka.Record, i: nat) {
    i < |callers| && exists env :: Routing.Proper(cfg, rec, env) && env.callerId == callers[i].name
  }

  /**
   For every record: it is routed exactly if it is a proper event of a configured caller whose key hash no later caller
   has; all others are dead-lettered.
   */
  lemma RoutedIffKeyIsLast(g: Gateway, cfg: Routing.Settings, rec: Kafka.Record)
    requires ValidGateway(g) && SameConfiguration(g, cfg)
    ensures Routing.Classify(cfg, rec).Route? <==> exists i: nat :: EventOf(g.callers, cfg, rec, i) && LastOfItsHash(g.callers, i)
  {
    Routing.RoutedIff(cfg, rec);
    forall name ensures cfg.known(name) <==> exists i: nat :: LastOfItsHash(g.callers, i) && g.callers[i].name == name {
      KnownIff(g.callers, name);
    }
    if env :| Routing.Proper(cfg, rec, env) && cfg.known(env.callerId) {
      var i: nat :| LastOfItsHash(g.callers, i) && g.callers[i].name == env.callerId;
      assert EventOf(g.callers, cfg, rec, i);
    }
  }

  // The rate limiter's view.

  function BudgetOf(c: CallerConfig): RateLimiter.Budget {
    RateLimiter.Budget(Natural(c.rateLimit.requests), Natural(c.rateLimit.window))
  }

  function BudgetsOf(limits: map<string, CallerConfig>): map<string, RateLimiter.Budget> {
    map name | name in limits :: BudgetOf(limits[name])
  }

  function Budgets(callers: seq<CallerConfig>): map<string, RateLimiter.Budget> {
    BudgetsOf(Limits(callers))
  }

  /** Every configured caller, and nobody else, has a budget the rate limiter can work with. */
  lemma BudgetsAreKnown(g: Gateway)
    requires ValidGateway(g)
    ensures forall name :: name in Budgets(g.callers) <==> Configured(g.callers, name)
    ensures forall name :: Configured(g.callers, name) ==> RateLimiter.KnownBudget(Budgets(g.callers), name)
    ensures forall i :: 0 <= i < |g.callers| ==>
      && g.callers[i].name in Budgets(g.callers)
      && Budgets(g.callers)[g.callers[i].name].requests == g.callers[i].rateLimit.requests
      && Budgets(g.callers)[g.callers[i].name].window == g.callers[i].rateLimit.window
  {
    LimitsAreOwn(g.callers);
  }
}
