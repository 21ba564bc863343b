/**
 The per-caller submit budget (internal/server/auth.go): a fixed window counted in Redis and
 shared by all replicas. Times are nanoseconds; a replica's clock shows true time plus its skew.
 */
module RateLimiter {
  import opened Prelude

  const NANOS_PER_SECOND: int := 1_000_000_000

  /** One caller's budget; validation guarantees both are positive. */
  datatype Budget = Budget(requests: nat, window: nat)

  /** A Redis integer key: its value and, once EXPIRE has been applied, when it goes. */
  datatype Counter = Counter(n: nat, expiry: Option<int>)

  type Store = map<string, Counter>

  predicate Unexpired(store: Store, key: string, at: int) {
    key in store && (store[key].expiry.None? || at < store[key].expiry.value)
  }

  function Value(store: Store, key: string, at: int): nat {
    if Unexpired(store, key, at) then store[key].n else 0
  }

  function Incr(store: Store, key: string, at: int): Store {
    store[key := Counter(Value(store, key, at) + 1, if Unexpired(store, key, at) then store[key].expiry else None)]
  }

  function Expire(store: Store, key: string, at: int, ttl: int): Store {
    if Unexpired(store, key, at) then store[key := store[key].(expiry := Some(at + ttl))] else store
  }

  /** What replicas do to Redis for one submit: the increment, heard back or not; no increment at all; the TTL. */
  datatype Op =
    | Hit(caller: string, read: int, skew: int, at: int, reported: bool)
    | Miss(caller: string, read: int, skew: int, at: int)
    | SetTtl(caller: string, index: nat, at: int)

  const KEY_PREFIX := "ocr:ratelimit:"

  function Key(caller: string, index: nat): string {
    KEY_PREFIX + caller + ":" + Decimal(index)
  }

  predicate KnownBudget(limits: map<string, Budget>, caller: string) {
    caller in limits && limits[caller].window > 0 && limits[caller].requests > 0 && ':' !in caller
  }

  /** The window a submit counts in, by the clock of the replica that took it. */
  function Index(limits: map<string, Budget>, op: Op): nat
    requires op.Hit? || op.Miss?
    requires KnownBudget(limits, op.caller) && op.read + op.skew >= 0
  {
    (op.read + op.skew) / limits[op.caller].window
  }

  predicate WellFormed(limits: map<string, Budget>, op: Op) {
    KnownBudget(limits, op.caller) && (op.Hit? || op.Miss? ==> op.read + op.skew >= 0 && op.read <= op.at)
  }

  /** The key a counting operation is about. */
  function OpKey(limits: map<string, Budget>, op: Op): string
    requires WellFormed(limits, op)
  {
    if op.SetTtl? then Key(op.caller, op.index) else Key(op.caller, Index(limits, op))
  }

  function Apply(limits: map<string, Budget>, store: Store, op: Op): Store
    requires WellFormed(limits, op)
  {
    match op
    case Hit(_, _, _, at, _) => Incr(store, OpKey(limits, op), at)
    case Miss(_, _, _, _) => store
    case SetTtl(caller, _, at) => Expire(store, OpKey(limits, op), at, 2 * limits[caller].window)
  }

  predicate AllWellFormed(limits: map<string, Budget>, ops: seq<Op>) {
    forall i :: 0 <= i < |ops| ==> WellFormed(limits, ops[i])
  }

  function ApplyAll(limits: map<string, Budget>, store: Store, ops: seq<Op>): Store
    requires AllWellFormed(limits, ops)
    decreases |ops|
  {
    if ops == [] then store
    else Apply(limits, ApplyAll(limits, store, ops[..|ops| - 1]), ops[|ops| - 1])
  }

  /** Where the first colon of a text is. */
  function FirstColon(s: string): nat {
    if s == "" || s[0] == ':' then 0 else 1 + FirstColon(s[1..])
  }

  lemma {:induction false} FirstColonEndsTheName(name: string, rest: string)
    requires ':' !in name
    ensures FirstColon(name + ":" + rest) == |name|
  {
    if name == "" {
      assert (name + ":" + rest)[0] == ':';
    } else {
      FirstColonEndsTheName(name[1..], rest);
      assert (name + ":" + rest)[1..] == name[1..] + ":" + rest;
      assert name[0] in name;
    }
  }

  /** The key is unambiguous: caller names have no colon, so callers cannot spend each other's budgets. */
  lemma KeyInjective(a: string, i: nat, b: string, j: nat)
    requires ':' !in a && ':' !in b && Key(a, i) == Key(b, j)
    ensures a == b && i == j
  {
    var x, y := a + ":" + Decimal(i), b + ":" + Decimal(j);
    assert Key(a, i) == KEY_PREFIX + x && Key(b, j) == KEY_PREFIX + y;
    PrefixCancels(KEY_PREFIX, x, y);
    FirstColonEndsTheName(a, Decimal(i));
    FirstColonEndsTheName(b, Decimal(j));
    assert a == x[..|a|] && b == y[..|b|];
    PrefixCancels(a + ":", Decimal(i), Decimal(j));
    DecimalInjective(i, j);
  }

  // When a counter survives.

  /** The j-th operation, if it sets a TTL, comes after an increment of its key. */
  predicate FollowsHit(limits: map<string, Budget>, ops: seq<Op>, j: nat)
    requires AllWellFormed(limits, ops) && j < |ops|
  {
    ops[j].SetTtl? ==> exists i :: 0 <= i < j && ops[i].Hit? && OpKey(limits, ops[i]) == OpKey(limits, ops[j])
  }

  predicate InTime(ops: seq<Op>) {
    forall i, j :: 0 <= i < j < |ops| ==> ops[i].at <= ops[j].at
  }

  /** The operations as Redis sees them: in order, each TTL following an increment of its key. */
  predicate Ordered(limits: map<string, Budget>, ops: seq<Op>)
    requires AllWellFormed(limits, ops)
  {
    InTime(ops) && forall j: nat :: j < |ops| ==> FollowsHit(limits, ops, j)
  }

  /** Clocks differ by at most `skew`, and an increment reaches Redis at most `delay` after the clock was read. */
  predicate Disciplined(ops: seq<Op>, skew: int, delay: int) {
    && (forall i :: 0 <= i < |ops| && ops[i].Hit? ==> ops[i].at - ops[i].read <= delay)
    && forall i, j :: 0 <= i < |ops| && 0 <= j < |ops| && ops[i].Hit? && ops[j].Hit? ==> ops[i].skew - ops[j].skew <= skew
  }

  function Hits(limits: map<string, Budget>, ops: seq<Op>, key: string): nat
    requires AllWellFormed(limits, ops)
    decreases |ops|
  {
    if ops == [] then 0
    else
      var op := ops[|ops| - 1];
      Hits(limits, ops[..|ops| - 1], key) + (if op.Hit? && OpKey(limits, op) == key then 1 else 0)
  }

  /** Every increment finds all earlier ones of its window still counted. */
  ghost predicate NeverResets(limits: map<string, Budget>, ops: seq<Op>)
    requires AllWellFormed(limits, ops)
  {
    forall i :: 0 <= i < |ops| && ops[i].Hit? ==>
      Value(ApplyAll(limits, map[], ops[..i]), OpKey(limits, ops[i]), ops[i].at) == Hits(limits, ops[..i], OpKey(limits, ops[i]))
  }

  /** A counter holds all increments of its key, and expires no sooner than two windows after one of them. */
  ghost predicate CounterSound(limits: map<string, Budget>, ops: seq<Op>, key: string)
    requires AllWellFormed(limits, ops)
  {
    var store := ApplyAll(limits, map[], ops);
    if Hits(limits, ops, key) == 0 then key !in store
    else
      && key in store && store[key].n == Hits(limits, ops, key)
      && (store[key].expiry.Some? ==>
            exists i :: 0 <= i < |ops| && ops[i].Hit? && OpKey(limits, ops[i]) == key
                     && ops[i].at + 2 * limits[ops[i].caller].window <= store[key].expiry.value)
  }

  lemma SameQuotientIsClose(a: nat, b: nat, w: nat)
    requires w > 0 && a / w == b / w
    ensures b - a < w
  {
    assert a == (a / w) * w + a % w;
    assert b == (b / w) * w + b % w;
  }

  /** Two increments of one key are less than two windows apart. */
  lemma SameWindowIsClose(limits: map<string, Budget>, ops: seq<Op>, skew: int, delay: int, i: nat, j: nat)
    requires AllWellFormed(limits, ops) && Disciplined(ops, skew, delay) && i < |ops| && j < |ops|
    requires ops[i].Hit? && ops[j].Hit? && OpKey(limits, ops[i]) == OpKey(limits, ops[j])
    requires skew + delay <= limits[ops[i].caller].window
    ensures ops[j].at < ops[i].at + 2 * limits[ops[i].caller].window
    ensures ops[j].caller == ops[i].caller
  {
    KeyInjective(ops[i].caller, Index(limits, ops[i]), ops[j].caller, Index(limits, ops[j]));
    SameQuotientIsClose(ops[i].read + ops[i].skew, ops[j].read + ops[j].skew, limits[ops[i].caller].window);
  }

  predicate CoversSkew(limits: map<string, Budget>, skew: int, delay: int) {
    forall c :: c in limits ==> skew + delay <= limits[c].window
  }

  lemma PrefixOrdered(limits: map<string, Budget>, ops: seq<Op>, n: nat)
    requires AllWellFormed(limits, ops) && Ordered(limits, ops) && n <= |ops|
    ensures AllWellFormed(limits, ops[..n]) && Ordered(limits, ops[..n])
  {
    forall j: nat | j < n ensures FollowsHit(limits, ops[..n], j) {
      assert FollowsHit(limits, ops, j);
      if ops[j].SetTtl? {
        var i :| 0 <= i < j && ops[i].Hit? && OpKey(limits, ops[i]) == OpKey(limits, ops[j]);
        assert ops[..n][i] == ops[i];
      }
    }
  }

  /** The same, where the list continues another. */
  lemma NextOrdered(limits: map<string, Budget>, before: seq<Op>, ops: seq<Op>, i: nat)
    requires AllWellFormed(limits, before) && AllWellFormed(limits, ops) && Ordered(limits, before + ops) && i < |ops|
    ensures Ordered(limits, before + ops[..i] + [ops[i]])
    ensures before + ops[..i + 1] == before + ops[..i] + [ops[i]]
  {
    assert (before + ops)[..|before| + i + 1] == before + ops[..i] + [ops[i]];
    PrefixOrdered(limits, before + ops, |before| + i + 1);
  }

  lemma PrefixLegal(limits: map<string, Budget>, ops: seq<Op>, skew: int, delay: int, n: nat)
    requires AllWellFormed(limits, ops) && Ordered(limits, ops) && Disciplined(ops, skew, delay) && n <= |ops|
    ensures AllWellFormed(limits, ops[..n]) && Ordered(limits, ops[..n]) && Disciplined(ops[..n], skew, delay)
  {
    PrefixOrdered(limits, ops, n);
  }

  /** A TTL set on the key of an earlier increment keeps the order. */
  lemma TtlKeepsOrder(limits: map<string, Budget>, ops: seq<Op>, n: nat, ttl: Op)
    requires AllWellFormed(limits, ops) && Ordered(limits, ops) && WellFormed(limits, ttl)
    requires n < |ops| && ops[n].Hit? && ttl.SetTtl? && OpKey(limits, ops[n]) == OpKey(limits, ttl)
    requires forall op :: op in ops ==> op.at <= ttl.at
    ensures AllWellFormed(limits, ops + [ttl]) && Ordered(limits, ops + [ttl])
  {
    var longer := ops + [ttl];
    forall j: nat | j < |longer| ensures FollowsHit(limits, longer, j) {
      if j < |ops| {
        assert FollowsHit(limits, ops, j);
        if ops[j].SetTtl? {
          var i :| 0 <= i < j && ops[i].Hit? && OpKey(limits, ops[i]) == OpKey(limits, ops[j]);
          assert longer[i] == ops[i];
        }
      } else {
        assert longer[n] == ops[n];
      }
    }
  }
  /** The counter that an increment is about has not expired. */
  lemma HitFindsItsCounter(limits: map<string, Budget>, ops: seq<Op>, skew: int, delay: int, n: nat)
    requires AllWellFormed(limits, ops) && Disciplined(ops, skew, delay) && CoversSkew(limits, skew, delay)
    requires n < |ops| && ops[n].Hit? && CounterSound(limits, ops[..n], OpKey(limits, ops[n]))
    ensures Value(ApplyAll(limits, map[], ops[..n]), OpKey(limits, ops[n]), ops[n].at) == Hits(limits, ops[..n], OpKey(limits, ops[n]))
  {
    var init, key := ops[..n], OpKey(limits, ops[n]);
    var store := ApplyAll(limits, map[], init);
    if key in store && store[key].expiry.Some? {
      var i :| 0 <= i < n && init[i].Hit? && OpKey(limits, init[i]) == key
            && init[i].at + 2 * limits[init[i].caller].window <= store[key].expiry.value;
      assert ops[i] == init[i];
      SameWindowIsClose(limits, ops, skew, delay, i, n);
    }
  }

  /** A witness for the expiry in a shorter list is one in the longer. */
  lemma ExpiryWitnessStays(limits: map<string, Budget>, ops: seq<Op>, key: string, expiry: int)
    requires AllWellFormed(limits, ops) && ops != []
    requires var init := ops[..|ops| - 1];
      exists i :: 0 <= i < |init| && init[i].Hit? && OpKey(limits, init[i]) == key
               && init[i].at + 2 * limits[init[i].caller].window <= expiry
    ensures exists i :: 0 <= i < |ops| && ops[i].Hit? && OpKey(limits, ops[i]) == key
                     && ops[i].at + 2 * limits[ops[i].caller].window <= expiry
  {
    var init := ops[..|ops| - 1];
    var i :| 0 <= i < |init| && init[i].Hit? && OpKey(limits, init[i]) == key
          && init[i].at + 2 * limits[init[i].caller].window <= expiry;
    assert ops[i] == init[i];
  }

  /** A TTL is set on a key that was incremented no later. */
  lemma TtlHasAWitness(limits: map<string, Budget>, ops: seq<Op>, n: nat)
    requires AllWellFormed(limits, ops) && Ordered(limits, ops) && n < |ops| && ops[n].SetTtl?
    ensures exists i :: 0 <= i < |ops| && ops[i].Hit? && OpKey(limits, ops[i]) == OpKey(limits, ops[n])
                     && ops[i].at + 2 * limits[ops[i].caller].window <= ops[n].at + 2 * limits[ops[n].caller].window
  {
    assert FollowsHit(limits, ops, n);
    var i :| 0 <= i < n && ops[i].Hit? && OpKey(limits, ops[i]) == OpKey(limits, ops[n]);
    KeyInjective(ops[i].caller, Index(limits, ops[i]), ops[n].caller, ops[n].index);
  }

  lemma OpKeepsSound(limits: map<string, Budget>, ops: seq<Op>, skew: int, delay: int, key: string)
    requires AllWellFormed(limits, ops) && Ordered(limits, ops) && Disciplined(ops, skew, delay) && CoversSkew(limits, skew, delay)
    requires ops != [] && CounterSound(limits, ops[..|ops| - 1], key)
    ensures CounterSound(limits, ops, key)
  {
    var n := |ops| - 1;
    var store := ApplyAll(limits, map[], ops[..n]);
    if key in store && store[key].expiry.Some? {
      ExpiryWitnessStays(limits, ops, key, store[key].expiry.value);
    }
    if ops[n].Hit? && OpKey(limits, ops[n]) == key {
      HitFindsItsCounter(limits, ops, skew, delay, n);
    }
    if ops[n].SetTtl? && OpKey(limits, ops[n]) == key {
      TtlHasAWitness(limits, ops, n);
    }
  }

  lemma {:induction false} CountersSurvive(limits: map<string, Budget>, ops: seq<Op>, skew: int, delay: int, key: string)
    requires AllWellFormed(limits, ops) && Ordered(limits, ops) && Disciplined(ops, skew, delay) && CoversSkew(limits, skew, delay)
    ensures CounterSound(limits, ops, key)
    decreases |ops|
  {
    if ops != [] {
      PrefixLegal(limits, ops, skew, delay, |ops| - 1);
      CountersSurvive(limits, ops[..|ops| - 1], skew, delay, key);
      OpKeepsSound(limits, ops, skew, delay, key);
    }
  }

  lemma NoReset(limits: map<string, Budget>, ops: seq<Op>, skew: int, delay: int)
    requires AllWellFormed(limits, ops) && Ordered(limits, ops) && Disciplined(ops, skew, delay) && CoversSkew(limits, skew, delay)
    ensures NeverResets(limits, ops)
  {
    forall i | 0 <= i < |ops| && ops[i].Hit?
      ensures Value(ApplyAll(limits, map[], ops[..i]), OpKey(limits, ops[i]), ops[i].at) == Hits(limits, ops[..i], OpKey(limits, ops[i]))
    {
      PrefixLegal(limits, ops, skew, delay, i);
      CountersSurvive(limits, ops[..i], skew, delay, OpKey(limits, ops[i]));
      HitFindsItsCounter(limits, ops, skew, delay, i);
    }
  }

  /** A replica ahead by `skew` opens window 0 early; one on time closes it late and with `delay`. */
  function LateRun(caller: string, window: nat, skew: int, delay: int): seq<Op> {
    [Hit(caller, -skew, skew, -skew, true), SetTtl(caller, 0, -skew), Hit(caller, window - 1, 0, window - 1 + delay, true)]
  }

  lemma LastInWindowZero(window: nat)
    requires window > 0
    ensures (window - 1) / window == 0
  {
  }

  /** All three operations are about window 0. */
  lemma LateRunKeys(limits: map<string, Budget>, caller: string, skew: int, delay: int)
    requires KnownBudget(limits, caller) && skew >= 0 && delay >= 0
    ensures var ops := LateRun(caller, limits[caller].window, skew, delay);
      AllWellFormed(limits, ops) && forall i :: 0 <= i < 3 ==> OpKey(limits, ops[i]) == Key(caller, 0)
  {
    var ops := LateRun(caller, limits[caller].window, skew, delay);
    LastInWindowZero(limits[caller].window);
    assert Index(limits, ops[0]) == 0 && Index(limits, ops[2]) == 0;
  }

  lemma LateRunIsLegal(limits: map<string, Budget>, caller: string, skew: int, delay: int)
    requires KnownBudget(limits, caller) && skew >= 0 && delay >= 0
    ensures var ops := LateRun(caller, limits[caller].window, skew, delay);
      AllWellFormed(limits, ops) && Ordered(limits, ops) && Disciplined(ops, skew, delay)
  {
    var ops := LateRun(caller, limits[caller].window, skew, delay);
    LateRunKeys(limits, caller, skew, delay);
    assert ops[0].Hit? && OpKey(limits, ops[0]) == OpKey(limits, ops[1]);
    assert FollowsHit(limits, ops, 1);
  }

  /** The store when the late increment arrives: a counter whose TTL is up. */
  function LateStore(caller: string, window: nat, skew: int): Store {
    map[Key(caller, 0) := Counter(1, Some(2 * window - skew))]
  }

  lemma LateStoreReached(limits: map<string, Budget>, caller: string, skew: int, delay: int)
    requires KnownBudget(limits, caller) && skew >= 0 && delay >= 0
    ensures var ops := LateRun(caller, limits[caller].window, skew, delay);
      && AllWellFormed(limits, ops[..2])
      && ApplyAll(limits, map[], ops[..2]) == LateStore(caller, limits[caller].window, skew)
      && Hits(limits, ops[..2], Key(caller, 0)) == 1
  {
    var ops := LateRun(caller, limits[caller].window, skew, delay);
    LateRunKeys(limits, caller, skew, delay);
    var first := ops[..1];
    assert first[..0] == [] && ops[..2][..1] == first;
    assert ApplyAll(limits, map[], first[..0]) == map[] && Hits(limits, first[..0], Key(caller, 0)) == 0;
    assert ApplyAll(limits, map[], first) == map[Key(caller, 0) := Counter(1, None)] && Hits(limits, first, Key(caller, 0)) == 1;
  }

  /** Beyond the bound the late increment starts counting anew. */
  lemma LateRunResets(limits: map<string, Budget>, caller: string, skew: int, delay: int)
    requires KnownBudget(limits, caller) && skew >= 0 && delay >= 0 && skew + delay > limits[caller].window
    ensures var ops := LateRun(caller, limits[caller].window, skew, delay);
      && AllWellFormed(limits, ops) && Ordered(limits, ops) && Disciplined(ops, skew, delay)
      && !NeverResets(limits, ops)
  {
    var ops := LateRun(caller, limits[caller].window, skew, delay);
    LateRunIsLegal(limits, caller, skew, delay);
    LateRunKeys(limits, caller, skew, delay);
    LateStoreReached(limits, caller, skew, delay);
    assert Value(LateStore(caller, limits[caller].window, skew), Key(caller, 0), ops[2].at) == 0;
  }

  /** Twice the window as TTL covers clock skew plus delay exactly up to one window. */
  lemma SurvivalIff(limits: map<string, Budget>, skew: int, delay: int)
    requires limits != map[] && (forall c :: c in limits ==> KnownBudget(limits, c)) && skew >= 0 && delay >= 0
    ensures CoversSkew(limits, skew, delay) <==>
      forall ops :: AllWellFormed(limits, ops) && Ordered(limits, ops) && Disciplined(ops, skew, delay) ==> NeverResets(limits, ops)
  {
    if CoversSkew(limits, skew, delay) {
      forall ops | AllWellFormed(limits, ops) && Ordered(limits, ops) && Disciplined(ops, skew, delay)
        ensures NeverResets(limits, ops)
      {
        NoReset(limits, ops, skew, delay);
      }
    } else {
      var c :| c in limits && skew + delay > limits[c].window;
      LateRunResets(limits, c, skew, delay);
    }
  }
}
