/** How the callers are read from the configuration and checked (internal/config/config.go). */
module Config {
  import opened Prelude
  import opened Registry
  import Routing

  /** One caller as the JSON list has it; windows are still texts there. */
  datatype RawLimit = RawLimit(requests: int, window: string)
  datatype RawCaller = RawCaller(name: string, apiKeyHash: string, rateLimit: Option<RawLimit>, docTypes: map<string, string>)

  /** The value of GATEWAY_CALLERS: blank, not a list of callers, or a list of callers. */
  datatype RawCallers = Blank | NotAList | Listed(callers: seq<RawCaller>)

  datatype ParseError = BadList | BadDuration(name: string)

  function LowerChar(c: char): char {
    if 'A' <= c <= 'Z' then c - 'A' + 'a' else c
  }

  /** strings.ToLower, on the characters that a digest can be written with. */
  function ToLower(s: string): (r: string)
    ensures |r| == |s|
    ensures forall i :: 0 <= i < |s| ==>
      if s[i] in "ABCDEF" then r[i] in "abcdef" && r[i] as int - s[i] as int == 'a' as int - 'A' as int
      else if IsDigit(s[i]) || s[i] in "abcdef" then r[i] == s[i]
      else r[i] == LowerChar(s[i])
  {
    seq(|s|, i requires 0 <= i < |s| => LowerChar(s[i]))
  }

  /** A digest is accepted however its letters are written. */
  lemma DigestIsAccepted(s: string)
    requires |s| == 64 && forall c :: c in s ==> c in "0123456789abcdefABCDEF"
    ensures IsKeyHash(ToLower(s))
  {
    var r := ToLower(s);
    forall c | c in r ensures IsDigit(c) || 'a' <= c <= 'f' {
      var i :| 0 <= i < |r| && r[i] == c;
      assert s[i] in s;
    }
  }

  predicate BadWindow(raw: RawCaller, parseDuration: string -> Option<int>) {
    raw.rateLimit.Some? && parseDuration(raw.rateLimit.value.window).None?
  }

  /** A caller without a rate limit gets a zero one, which validation then rejects. */
  predicate Decodes(raw: RawCaller, parseDuration: string -> Option<int>, c: CallerConfig) {
    && c.name == raw.name && c.docTypes == raw.docTypes && c.apiKeyHash == ToLower(raw.apiKeyHash)
    && match raw.rateLimit
       case None => c.rateLimit.requests == 0 && c.rateLimit.window == 0
       case Some(limit) => c.rateLimit.requests == limit.requests && Some(c.rateLimit.window) == parseDuration(limit.window)
  }

  method DecodeCaller(raw: RawCaller, parseDuration: string -> Option<int>) returns (r: Option<CallerConfig>)
    ensures r.None? <==> BadWindow(raw, parseDuration)
    ensures r.Some? ==> Decodes(raw, parseDuration, r.value)
  {
    var limit := RateLimit(0, 0);
    if raw.rateLimit.Some? {
      var window := parseDuration(raw.rateLimit.value.window);
      if window.None? {
        return None;
      }
      limit := RateLimit(raw.rateLimit.value.requests, window.value);
    }
    return Some(CallerConfig(raw.name, ToLower(raw.apiKeyHash), limit, raw.docTypes));
  }

  /** Decodes every caller, or names the first whose window is no duration. */
  method ParseCallers(raw: RawCallers, parseDuration: string -> Option<int>) returns (r: Result<seq<CallerConfig>, ParseError>)
    ensures raw.Blank? ==> r == Ok([])
    ensures raw.NotAList? ==> r == Err(BadList)
    ensures raw.Listed? && r.Ok? ==>
      && |r.value| == |raw.callers|
      && forall i :: 0 <= i < |r.value| ==> Decodes(raw.callers[i], parseDuration, r.value[i])
    ensures raw.Listed? && r.Err? ==>
      exists i :: 0 <= i < |raw.callers| && BadWindow(raw.callers[i], parseDuration) && r.error == BadDuration(raw.callers[i].name)
               && forall j :: 0 <= j < i ==> !BadWindow(raw.callers[j], parseDuration)
  {
    if raw.Blank? {
      return Ok([]);
    }
    if raw.NotAList? {
      return Err(BadList);
    }
    var callers: seq<CallerConfig> := [];
    for i := 0 to |raw.callers|
      invariant |callers| == i
      invariant forall j :: 0 <= j < i ==> Decodes(raw.callers[j], parseDuration, callers[j])
      invariant forall j :: 0 <= j < i ==> !BadWindow(raw.callers[j], parseDuration)
    {
      var c := DecodeCaller(raw.callers[i], parseDuration);
      if c.None? {
        return Err(BadDuration(raw.callers[i].name));
      }
      callers := callers + [c.value];
    }
    return Ok(callers);
  }

  function Report(errs: seq<Fault>, broken: bool, f: Fault): (r: seq<Fault>)
    ensures forall x :: x in r <==> x in errs || (broken && x == f)
  {
    if broken then errs + [f] else errs
  }

  /** The caller that a fault is about. */
  function About(f: Fault): Option<nat> {
    if f.TtlTooShort? || f.TemplateEmpty? || f.TemplateVerbs? || f.NoCallers? then None else Some(f.i)
  }

  /** The entries of one caller's doc_types that lack a key or a value. */
  method DocTypeFaults(g: Gateway, i: nat) returns (errs: seq<Fault>)
    requires Named(g.callers, i)
    ensures forall f :: f in errs <==> f.EmptyDocType? && f.i == i && Breaks(g, f)
  {
    errs := [];
    var docTypes := g.callers[i].docTypes;
    var rest := docTypes.Keys;
    while rest != {}
      invariant rest <= docTypes.Keys
      invariant forall f :: f in errs <==> f.EmptyDocType? && f.i == i && f.docType !in rest && Breaks(g, f)
      decreases rest
    {
      var d :| d in rest;
      errs := Report(errs, d == "" || docTypes[d] == "", EmptyDocType(i, d));
      rest := rest - {d};
    }
  }

  /** What is wrong with a caller whose name is fit; `seen` holds the fit names before it. */
  method CallerFaults(g: Gateway, i: nat, seen: set<string>) returns (errs: seq<Fault>)
    requires Named(g.callers, i)
    requires g.callers[i].name in seen <==> NamedBefore(g.callers, i, g.callers[i].name)
    ensures forall f :: f in errs <==> About(f) == Some(i) && Breaks(g, f)
  {
    var c := g.callers[i];
    errs := Report([], c.name in seen, DuplicateName(i));
    errs := Report(errs, !IsKeyHash(c.apiKeyHash), BadKeyHash(i));
    errs := Report(errs, c.rateLimit.requests <= 0, NoRequests(i));
    errs := Report(errs, c.rateLimit.window <= 0, NoWindow(i));
    errs := Report(errs, c.docTypes == map[], NoDocTypes(i));
    var entries := DocTypeFaults(g, i);
    errs := errs + entries;
  }

  /** The checks that come before the list of callers. */
  method GatewayFaults(g: Gateway) returns (errs: seq<Fault>)
    ensures forall f :: f in errs <==> About(f).None? && Breaks(g, f)
  {
    errs := Report([], g.dedupeTtl < DAY, TtlTooShort);
    if g.template == "" {
      errs := errs + [TemplateEmpty];
    } else {
      errs := Report(errs, Routing.Verbs(g.template) != 1, TemplateVerbs);
    }
    errs := Report(errs, g.callers == [], NoCallers);
  }

  /** Lists every fault and no other; the gateway starts exactly if there is none. */
  method Validate(g: Gateway) returns (errs: seq<Fault>)
    ensures forall f :: f in errs <==> Breaks(g, f)
    ensures errs == [] <==> ValidGateway(g)
  {
    errs := GatewayFaults(g);
    var seen: set<string> := {};
    for i := 0 to |g.callers|
      invariant forall name :: name in seen <==> IsName(name) && NamedBefore(g.callers, i, name)
      invariant forall f :: f in errs <==> (About(f).Some? ==> About(f).value < i) && Breaks(g, f)
    {
      if !IsName(g.callers[i].name) {
        errs := errs + [BadName(i)];
        continue;
      }
      var found := CallerFaults(g, i, seen);
      errs := errs + found;
      seen := seen + {g.callers[i].name};
    }
    ValidMeansFaultless(g);
    if errs != [] {
      assert errs[0] in errs;
    }
  }
}
