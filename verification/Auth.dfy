/**
 The gate in front of every call (internal/server/auth.go, internal/server/grpc_server.go):
 the caller registry, the shared submit budget and the interceptor that applies both.
 */
module Auth {
  import opened Prelude
  import opened Registry
  import opened RateLimiter
  import RateBound

  /** The registered callers, indexed by key hash. */
  class CallerRegistry {
    const byKeyHash: map<string, Caller>

    constructor (callers: seq<CallerConfig>)
      ensures byKeyHash == ByKeyHash(callers)
    {
      var index: map<string, Caller> := map[];
      for i := 0 to |callers|
        invariant index == ByKeyHash(callers[..i])
      {
        index := index[callers[i].apiKeyHash := CallerOf(callers[i])];
        assert callers[..i + 1][..i] == callers[..i];
      }
      assert callers[..|callers|] == callers;
      byKeyHash := index;
    }

    method Find(hash: string -> string, apiKey: string) returns (caller: Option<Caller>)
      ensures caller == Lookup(byKeyHash, hash, apiKey)
    {
      var key := hash(apiKey);
      if key in byKeyHash {
        return Some(byKeyHash[key]);
      }
      return None;
    }

    /** Walks the callers in no particular order. */
    method Knows(callerId: string) returns (known: bool)
      ensures known <==> KnownCaller(byKeyHash, callerId)
    {
      var rest := byKeyHash.Keys;
      while rest != {}
        invariant rest <= byKeyHash.Keys
        invariant forall h :: h in byKeyHash && h !in rest ==> byKeyHash[h].name != callerId
        decreases rest
      {
        var h :| h in rest;
        if byKeyHash[h].name == callerId {
          return true;
        }
        rest := rest - {h};
      }
      return false;
    }
  }

  /** The loop in NewGRPC that indexes the limits by name. */
  method IndexLimits(callers: seq<CallerConfig>) returns (limits: map<string, CallerConfig>)
    ensures limits == Limits(callers)
  {
    limits := map[];
    for i := 0 to |callers|
      invariant limits == Limits(callers[..i])
    {
      limits := limits[callers[i].name := callers[i]];
      assert callers[..i + 1][..i] == callers[..i];
    }
    assert callers[..|callers|] == callers;
  }

  /** The Redis that all replicas share, with everything they have done to it. */
  class Redis {
    const limits: map<string, Budget>
    var store: Store
    ghost var log: seq<Op>

    /** The counters are what the log makes of them, and the log is one that can be. */
    ghost predicate Valid()
      reads this
    {
      AllWellFormed(limits, log) && Ordered(limits, log) && store == ApplyAll(limits, map[], log)
    }

    constructor (limits: map<string, Budget>)
      ensures Valid() && this.limits == limits && log == []
    {
      this.limits := limits;
      store := map[];
      log := [];
    }

    method Do(op: Op)
      requires Valid() && WellFormed(limits, op) && Ordered(limits, log + [op])
      modifies this
      ensures Valid() && log == old(log) + [op]
    {
      assert (log + [op])[..|log|] == log;
      store := Apply(limits, store, op);
      log := log + [op];
    }

    /** Other replicas get a turn. */
    method DoAll(ops: seq<Op>)
      requires Valid() && AllWellFormed(limits, ops) && Ordered(limits, log + ops)
      modifies this
      ensures Valid() && log == old(log) + ops
    {
      ghost var before := log;
      for i := 0 to |ops|
        invariant Valid() && log == before + ops[..i]
      {
        NextOrdered(limits, before, ops, i);
        Do(ops[i]);
      }
      assert ops[..|ops|] == ops;
    }
  }

  datatype Reply = Counted | NotCounted | AnswerLost

  /** What one submit meets: clock readings, when Redis is reached, how it answers, and what others do meanwhile. */
  datatype Occasion = Occasion(
    read: int, skew: int, at: int, reply: Reply, meanwhile: seq<Op>, ttlAt: int, ttlFails: bool, reread: nat)

  /** What the increment amounts to in Redis. */
  function Attempt(caller: string, o: Occasion): Op {
    if o.reply.NotCounted? then Miss(caller, o.read, o.skew, o.at) else Hit(caller, o.read, o.skew, o.at, o.reply.Counted?)
  }

  /** Redis sees the increment, what others do, and the TTL in this order; others, too, set a TTL only after an increment. */
  predicate CanOccur(limits: map<string, Budget>, before: seq<Op>, caller: string, o: Occasion)
    requires AllWellFormed(limits, before)
  {
    && KnownBudget(limits, caller) && o.read + o.skew >= 0 && o.read <= o.at
    && AllWellFormed(limits, o.meanwhile)
    && Ordered(limits, before + [Attempt(caller, o)] + o.meanwhile)
    && forall op :: op in before + [Attempt(caller, o)] + o.meanwhile ==> op.at <= o.ttlAt
  }

  /** The log after a submit: its increment and, if that was answered with 1, what others did before the TTL, and the TTL. */
  function Afterwards(limits: map<string, Budget>, before: seq<Op>, caller: string, o: Occasion): seq<Op>
    requires AllWellFormed(limits, before) && CanOccur(limits, before, caller, o)
  {
    var op := Attempt(caller, o);
    if !o.reply.Counted? || RateBound.CountSeen(limits, before, op) != 1 then before + [op]
    else before + [op] + o.meanwhile + (if o.ttlFails then [] else [SetTtl(caller, Index(limits, op), o.ttlAt)])
  }

  /** The log stays one that can be. */
  lemma AfterwardsOrdered(limits: map<string, Budget>, before: seq<Op>, caller: string, o: Occasion)
    requires AllWellFormed(limits, before) && CanOccur(limits, before, caller, o)
    ensures var op := Attempt(caller, o); Ordered(limits, before + [op])
    ensures o.reply.Counted? ==>
      var op := Attempt(caller, o);
      Ordered(limits, before + [op] + o.meanwhile + [SetTtl(caller, Index(limits, op), o.ttlAt)])
  {
    var op := Attempt(caller, o);
    var most := before + [op] + o.meanwhile;
    assert most[..|before| + 1] == before + [op];
    PrefixOrdered(limits, most, |before| + 1);
    if o.reply.Counted? {
      assert most[|before|] == op;
      TtlKeepsOrder(limits, most, |before|, SetTtl(caller, Index(limits, op), o.ttlAt));
    }
  }

  lemma ApplyOneMore(limits: map<string, Budget>, ops: seq<Op>, op: Op)
    requires AllWellFormed(limits, ops) && WellFormed(limits, op)
    ensures AllWellFormed(limits, ops + [op])
    ensures ApplyAll(limits, map[], ops + [op]) == Apply(limits, ApplyAll(limits, map[], ops), op)
  {
    assert (ops + [op])[..|ops|] == ops;
  }

  /** A counter once made stays, expired or not. */
  lemma {:induction false} CountersStay(limits: map<string, Budget>, ops: seq<Op>, n: nat, key: string)
    requires AllWellFormed(limits, ops) && n <= |ops| && key in ApplyAll(limits, map[], ops[..n])
    ensures key in ApplyAll(limits, map[], ops)
    decreases |ops|
  {
    if n == |ops| {
      assert ops[..n] == ops;
    } else {
      assert ops[..|ops| - 1][..n] == ops[..n];
      CountersStay(limits, ops[..|ops| - 1], n, key);
    }
  }

  lemma GoneAfterTtl(store: Store, key: string, ttlAt: int, ttl: nat, at: int)
    requires key in store && at >= ttlAt + ttl
    ensures var after := Expire(store, key, ttlAt, ttl); key in after && !Unexpired(after, key, at)
  {
  }

  /** A window's first answered increment gets its TTL, whatever others do before: two windows later its counter is gone. */
  lemma FirstCountGetsItsTtl(limits: map<string, Budget>, before: seq<Op>, caller: string, o: Occasion, at: int)
    requires AllWellFormed(limits, before) && CanOccur(limits, before, caller, o)
    requires o.reply.Counted? && RateBound.CountSeen(limits, before, Attempt(caller, o)) == 1 && !o.ttlFails
    requires at >= o.ttlAt + 2 * limits[caller].window
    ensures AllWellFormed(limits, Afterwards(limits, before, caller, o))
    ensures var key := Key(caller, Index(limits, Attempt(caller, o)));
      var store := ApplyAll(limits, map[], Afterwards(limits, before, caller, o));
      key in store && !Unexpired(store, key, at)
  {
    var op := Attempt(caller, o);
    var key, ttl := Key(caller, Index(limits, op)), SetTtl(caller, Index(limits, op), o.ttlAt);
    ApplyOneMore(limits, before, op);
    var most := before + [op] + o.meanwhile;
    assert most[..|before| + 1] == before + [op];
    CountersStay(limits, most, |before| + 1, key);
    ApplyOneMore(limits, most, ttl);
    GoneAfterTtl(ApplyAll(limits, map[], most), key, o.ttlAt, 2 * limits[caller].window, at);
  }

  /** The time left in the submit's window at the second look at the clock. */
  function TimeLeft(limit: Budget, o: Occasion): int
    requires limit.window > 0 && o.read + o.skew >= 0
  {
    RateBound.Wait(o.read + o.skew, o.reread, limit.window)
  }

  /** The shared submit budget as one replica sees it; there may be no Redis at all. */
  class Limiter {
    const redis: Redis?

    constructor (redis: Redis?)
      ensures this.redis == redis
    {
      this.redis := redis;
    }

    /** INCR and, after the first, EXPIRE; the count is known only if Redis answers. */
    method Count(caller: string, windowStart: nat, o: Occasion) returns (n: nat)
      requires redis != null && redis.Valid() && CanOccur(redis.limits, redis.log, caller, o)
      requires windowStart == Index(redis.limits, Attempt(caller, o))
      modifies redis
      ensures redis.Valid() && redis.log == Afterwards(redis.limits, old(redis.log), caller, o)
      ensures o.reply.Counted? ==> n == RateBound.CountSeen(redis.limits, old(redis.log), Attempt(caller, o))
    {
      n := Value(redis.store, Key(caller, windowStart), o.at) + 1;
      AfterwardsOrdered(redis.limits, redis.log, caller, o);
      redis.Do(Attempt(caller, o));
      if o.reply.Counted? && n == 1 {
        redis.DoAll(o.meanwhile);
        if !o.ttlFails {
          redis.Do(SetTtl(caller, windowStart, o.ttlAt));
        }
      }
    }

    method WindowStart(limit: Budget, o: Occasion) returns (windowStart: nat)
      requires limit.window > 0 && o.read + o.skew >= 0
      ensures windowStart == (o.read + o.skew) / limit.window
    {
      windowStart := (o.read + o.skew) / limit.window;
    }

    method Remaining(limit: Budget, windowStart: nat, o: Occasion) returns (wait: int)
      requires limit.window > 0 && o.read + o.skew >= 0 && windowStart == (o.read + o.skew) / limit.window
      ensures wait == TimeLeft(limit, o)
    {
      var elapsed := o.reread - windowStart * limit.window;
      wait := limit.window - elapsed;
    }

    /** Without Redis every submit goes through; with it, exactly those that the shared log admits under the limit. */
    method Allow(caller: string, limit: Budget, o: Occasion) returns (wait: int, allowed: bool)
      requires redis != null ==>
        redis.Valid() && CanOccur(redis.limits, redis.log, caller, o) && redis.limits[caller] == limit
      modifies redis
      ensures redis == null ==> allowed
      ensures redis != null ==>
        && redis.Valid()
        && redis.log == Afterwards(redis.limits, old(redis.log), caller, o)
        && (allowed <==> RateBound.AdmitsNext(redis.limits, old(redis.log), Attempt(caller, o)))
        && (!allowed ==> wait == TimeLeft(limit, o))
    {
      if redis == null {
        return 0, true;
      }
      var windowStart := WindowStart(limit, o);
      var n := Count(caller, windowStart, o);
      if !o.reply.Counted? {
        return 0, true;
      }
      if n > limit.requests {
        wait := Remaining(limit, windowStart, o);
        return wait, false;
      }
      return 0, true;
    }
  }

  /** What replicas have put into Redis through `Allow` keeps to the shared budget, while clocks and delays keep to the window. */
  lemma LogKeepsBudget(redis: Redis, skew: int, delay: int, caller: string)
    requires redis.Valid() && KnownBudget(redis.limits, caller)
    requires Disciplined(redis.log, skew, delay) && CoversSkew(redis.limits, skew, delay)
    ensures forall k: nat ::
      |RateBound.Admitted(redis.limits, redis.log, caller, k)| ==
        Min(redis.limits[caller].requests, |RateBound.Counted(redis.limits, redis.log, caller, k)|)
        + |RateBound.Uncounted(redis.limits, redis.log, caller, k)|
        + |RateBound.Excused(redis.limits, redis.log, caller, k, redis.limits[caller].requests)|
    ensures forall from: nat, length: nat ::
      |RateBound.AdmittedDuring(redis.limits, redis.log, caller, from, length)| <=
        (RateBound.WindowsIn(length, redis.limits[caller].window) + 1) * redis.limits[caller].requests
        + |RateBound.FailedOpen(redis.log, caller, from, length)|
  {
    RateBound.BudgetIsShared(redis.limits, redis.log, skew, delay, caller);
  }

  /** What the interceptor decides about a call. */
  datatype Decision =
    | Pass(caller: Caller)
    | Unauthenticated
    | LimitMissing
    | Exhausted(retryAfter: nat)

  /** The API key that a call presents: the first one sent, if any. */
  function Presented(metadata: Option<seq<string>>): Option<string> {
    if metadata.None? || metadata.value == [] || metadata.value[0] == "" then None else Some(metadata.value[0])
  }

  /** The registry's verdict on a call, before any rate limit. */
  function Identified(byKeyHash: map<string, Caller>, hash: string -> string, metadata: Option<seq<string>>): Option<Caller> {
    if Presented(metadata).None? then None else Lookup(byKeyHash, hash, Presented(metadata).value)
  }

  /** Under a valid configuration `LimitMissing` does not occur: whoever is identified has a limit to be judged by. */
  lemma EveryCallerHasALimit(g: Gateway, hash: string -> string, metadata: Option<seq<string>>)
    requires ValidGateway(g) && Identified(ByKeyHash(g.callers), hash, metadata).Some?
    ensures var name := Identified(ByKeyHash(g.callers), hash, metadata).value.name;
      name in Limits(g.callers) && KnownBudget(Budgets(g.callers), name)
  {
    AuthenticatedIsConfigured(g, hash, Presented(metadata).value);
    LimitsAreOwn(g.callers);
    BudgetsAreKnown(g);
  }

  /**
   What becomes of an identified caller's submit that Redis has counted as the n-th of its window, or not counted: beyond
   the configured number of requests it is rejected until the configured window ends.
   */
  function Judged(limit: RateLimit, n: nat, caller: Caller, o: Occasion): Decision
    requires limit.window > 0 && o.read + o.skew >= 0
  {
    if o.reply.Counted? && n > limit.requests then
      Exhausted(RateBound.RetryAfter(((o.read + o.skew) / limit.window + 1) * limit.window - o.reread))
    else Pass(caller)
  }

  /** The count that the caller's submit meets. */
  function CountMet(limits: map<string, CallerConfig>, before: seq<Op>, caller: string, o: Occasion): nat
    requires AllWellFormed(BudgetsOf(limits), before) && CanOccur(BudgetsOf(limits), before, caller, o)
  {
    RateBound.CountSeen(BudgetsOf(limits), before, Attempt(caller, o))
  }

  lemma AllowJudges(limits: map<string, CallerConfig>, before: seq<Op>, caller: Caller, o: Occasion)
    requires AllWellFormed(BudgetsOf(limits), before) && CanOccur(BudgetsOf(limits), before, caller.name, o)
    ensures var limit := limits[caller.name];
      && limit.rateLimit.window > 0
      && Judged(limit.rateLimit, CountMet(limits, before, caller.name, o), caller, o) ==
           if RateBound.AdmitsNext(BudgetsOf(limits), before, Attempt(caller.name, o)) then Pass(caller)
           else Exhausted(RateBound.RetryAfter(TimeLeft(BudgetOf(limit), o)))
  {
    var w := limits[caller.name].rateLimit.window;
    var k := (o.read + o.skew) / w;
    assert (k + 1) * w == k * w + w;
  }

  /**
   Authenticates a call and, for a submit, spends the budget configured for the caller. Redis is touched only by the
   submits of identified callers.
   */
  method Authenticate(
    metadata: Option<seq<string>>, isSubmit: bool, hash: string -> string,
    reg: CallerRegistry, limits: map<string, CallerConfig>, limiter: Limiter, o: Occasion)
    returns (d: Decision)
    requires limiter.redis != null ==> limiter.redis.Valid() && limiter.redis.limits == BudgetsOf(limits)
    requires var caller := Identified(reg.byKeyHash, hash, metadata);
      limiter.redis != null && caller.Some? && caller.value.name in limits ==>
        CanOccur(BudgetsOf(limits), limiter.redis.log, caller.value.name, o)
    modifies limiter.redis
    ensures limiter.redis != null ==> limiter.redis.Valid()
    ensures var caller := Identified(reg.byKeyHash, hash, metadata);
      if caller.None? then d == Unauthenticated
      else if caller.value.name !in limits then d == LimitMissing
      else if !isSubmit || limiter.redis == null then d == Pass(caller.value)
      else
        && limits[caller.value.name].rateLimit.window > 0
        && d == Judged(limits[caller.value.name].rateLimit, CountMet(limits, old(limiter.redis.log), caller.value.name, o),
                       caller.value, o)
        && limiter.redis.log == Afterwards(BudgetsOf(limits), old(limiter.redis.log), caller.value.name, o)
    ensures var caller := Identified(reg.byKeyHash, hash, metadata);
      limiter.redis != null && (!isSubmit || caller.None? || caller.value.name !in limits) ==>
        limiter.redis.log == old(limiter.redis.log)
  {
    if metadata.None? || |metadata.value| == 0 || metadata.value[0] == "" {
      return Unauthenticated;
    }
    var caller := reg.Find(hash, metadata.value[0]);
    if caller.None? {
      return Unauthenticated;
    }
    if caller.value.name !in limits {
      return LimitMissing;
    }
    var limit := limits[caller.value.name];
    if isSubmit {
      if limiter.redis != null {
        AllowJudges(limits, limiter.redis.log, caller.value, o);
      }
      var wait, allowed := limiter.Allow(caller.value.name, BudgetOf(limit), o);
      if !allowed {
        return Exhausted(RateBound.RetryAfter(wait));
      }
    }
    return Pass(caller.value);
  }

  /** Who is let past authentication: whoever sends first a key whose digest is configured. */
  lemma IdentifiedIff(callers: seq<CallerConfig>, hash: string -> string, metadata: Option<seq<string>>)
    ensures Identified(ByKeyHash(callers), hash, metadata).Some? <==>
      && metadata.Some? && metadata.value != [] && metadata.value[0] != ""
      && exists i :: 0 <= i < |callers| && callers[i].apiKeyHash == hash(metadata.value[0])
  {
    if metadata.Some? && metadata.value != [] {
      HashIsIndexed(callers, hash(metadata.value[0]));
    }
  }
}
