/**
 What the shared counters are worth: how many submits get through in a window and in any
 stretch of time, that callers do not get in each other's way, and that the wait a
 rejected caller is told is long enough (internal/server/auth.go).
 */
module RateBound {
  import opened Prelude
  import opened RateLimiter

  /** The count that an increment reports, after what went before. */
  function CountSeen(limits: map<string, Budget>, before: seq<Op>, hit: Op): nat
    requires AllWellFormed(limits, before) && WellFormed(limits, hit)
  {
    Value(ApplyAll(limits, map[], before), OpKey(limits, hit), hit.at) + 1
  }

  /** Whether a submit goes through: its count is within the budget, or Redis did not answer. */
  predicate AdmitsNext(limits: map<string, Budget>, before: seq<Op>, op: Op)
    requires AllWellFormed(limits, before) && WellFormed(limits, op)
  {
    match op
    case Hit(caller, _, _, _, reported) => reported ==> CountSeen(limits, before, op) <= limits[caller].requests
    case Miss(_, _, _, _) => true
    case SetTtl(_, _, _) => false
  }

  predicate Admits(limits: map<string, Budget>, ops: seq<Op>, i: nat)
    requires AllWellFormed(limits, ops) && i < |ops|
  {
    AdmitsNext(limits, ops[..i], ops[i])
  }

  /** The i-th operation is a submit of the caller in its window k. */
  predicate InWindow(limits: map<string, Budget>, ops: seq<Op>, caller: string, k: nat, i: nat)
    requires AllWellFormed(limits, ops)
  {
    i < |ops| && !ops[i].SetTtl? && ops[i].caller == caller && Index(limits, ops[i]) == k
  }

  function Admitted(limits: map<string, Budget>, ops: seq<Op>, caller: string, k: nat): set<nat>
    requires AllWellFormed(limits, ops)
  {
    set i: nat | i < |ops| && InWindow(limits, ops, caller, k, i) && Admits(limits, ops, i)
  }

  /** Submits for which Redis counted nothing. */
  function Uncounted(limits: map<string, Budget>, ops: seq<Op>, caller: string, k: nat): set<nat>
    requires AllWellFormed(limits, ops)
  {
    set i: nat | i < |ops| && InWindow(limits, ops, caller, k, i) && ops[i].Miss?
  }

  /** Increments of a window. */
  function Counted(limits: map<string, Budget>, ops: seq<Op>, caller: string, k: nat): set<nat>
    requires AllWellFormed(limits, ops)
  {
    set i: nat | i < |ops| && InWindow(limits, ops, caller, k, i) && ops[i].Hit?
  }

  /** How many increments of the window came before the i-th operation. */
  function Rank(limits: map<string, Budget>, ops: seq<Op>, caller: string, k: nat, i: nat): nat
    requires AllWellFormed(limits, ops) && i <= |ops|
  {
    |Counted(limits, ops[..i], caller, k)|
  }

  /** Increments within the budget, counted by how many went before. */
  function Early(limits: map<string, Budget>, ops: seq<Op>, caller: string, k: nat, budget: nat): set<nat>
    requires AllWellFormed(limits, ops)
  {
    set i: nat | i in Counted(limits, ops, caller, k) && Rank(limits, ops, caller, k, i) < budget
  }

  /** Increments over the budget whose answer was lost. */
  function Excused(limits: map<string, Budget>, ops: seq<Op>, caller: string, k: nat, budget: nat): set<nat>
    requires AllWellFormed(limits, ops)
  {
    set i: nat | i in Counted(limits, ops, caller, k) && Rank(limits, ops, caller, k, i) >= budget && !ops[i].reported
  }

  lemma CountedGrows(limits: map<string, Budget>, ops: seq<Op>, caller: string, k: nat)
    requires AllWellFormed(limits, ops) && ops != []
    ensures var n := |ops| - 1;
      Counted(limits, ops, caller, k) ==
        Counted(limits, ops[..n], caller, k) + (if InWindow(limits, ops, caller, k, n) && ops[n].Hit? then {n} else {})
  {
    var n := |ops| - 1;
    assert forall i: nat :: i < n ==> ops[..n][i] == ops[i];
  }

  lemma EarlyGrows(limits: map<string, Budget>, ops: seq<Op>, caller: string, k: nat, budget: nat)
    requires AllWellFormed(limits, ops) && ops != []
    ensures var n := |ops| - 1;
      Early(limits, ops, caller, k, budget) ==
        Early(limits, ops[..n], caller, k, budget)
        + (if n in Counted(limits, ops, caller, k) && Rank(limits, ops, caller, k, n) < budget then {n} else {})
  {
    var n := |ops| - 1;
    CountedGrows(limits, ops, caller, k);
    assert forall i: nat :: i < n ==> ops[..n][..i] == ops[..i];
  }

  /** The budget lets exactly so many increments of a window by. */
  lemma {:induction false} EarlyCount(limits: map<string, Budget>, ops: seq<Op>, caller: string, k: nat, budget: nat)
    requires AllWellFormed(limits, ops)
    ensures |Early(limits, ops, caller, k, budget)| == Min(budget, |Counted(limits, ops, caller, k)|)
    decreases |ops|
  {
    if ops == [] {
      assert Counted(limits, ops, caller, k) == {} && Early(limits, ops, caller, k, budget) == {};
    } else {
      var n := |ops| - 1;
      EarlyCount(limits, ops[..n], caller, k, budget);
      EarlyGrows(limits, ops, caller, k, budget);
      CountedGrows(limits, ops, caller, k);
    }
  }

  /** The increments of a window are the increments of its key: no other caller's or window's count there. */
  lemma {:induction false} HitsAreTheWindows(limits: map<string, Budget>, ops: seq<Op>, caller: string, k: nat)
    requires AllWellFormed(limits, ops) && ':' !in caller
    ensures Hits(limits, ops, Key(caller, k)) == |Counted(limits, ops, caller, k)|
    decreases |ops|
  {
    if ops == [] {
      assert Counted(limits, ops, caller, k) == {};
    } else {
      var n := |ops| - 1;
      HitsAreTheWindows(limits, ops[..n], caller, k);
      CountedGrows(limits, ops, caller, k);
      if ops[n].Hit? && OpKey(limits, ops[n]) == Key(caller, k) {
        KeyInjective(ops[n].caller, Index(limits, ops[n]), caller, k);
      }
    }
  }

  /** While no counter resets, the count an increment reports is its place among the window's increments. */
  lemma CountIsRank(limits: map<string, Budget>, ops: seq<Op>, i: nat)
    requires AllWellFormed(limits, ops) && NeverResets(limits, ops) && i < |ops| && ops[i].Hit?
    ensures CountSeen(limits, ops[..i], ops[i]) == Rank(limits, ops, ops[i].caller, Index(limits, ops[i]), i) + 1
  {
    HitsAreTheWindows(limits, ops[..i], ops[i].caller, Index(limits, ops[i]));
  }

  /**
   Exactly what gets through in one window of one caller: as many increments as the budget allows, and every submit
   that Redis failed.
   */
  lemma WindowAdmits(limits: map<string, Budget>, ops: seq<Op>, caller: string, k: nat)
    requires AllWellFormed(limits, ops) && NeverResets(limits, ops) && KnownBudget(limits, caller)
    ensures var budget := limits[caller].requests;
      |Admitted(limits, ops, caller, k)| ==
        Min(budget, |Counted(limits, ops, caller, k)|)
        + |Uncounted(limits, ops, caller, k)| + |Excused(limits, ops, caller, k, budget)|
  {
    var budget := limits[caller].requests;
    AdmittedParts(limits, ops, caller, k);
    EarlyCount(limits, ops, caller, k, budget);
    var early, none, late := Early(limits, ops, caller, k, budget), Uncounted(limits, ops, caller, k),
      Excused(limits, ops, caller, k, budget);
    assert |early + none| == |early| + |none|;
    assert |(early + none) + late| == |early + none| + |late|;
  }

  lemma AdmittedParts(limits: map<string, Budget>, ops: seq<Op>, caller: string, k: nat)
    requires AllWellFormed(limits, ops) && NeverResets(limits, ops) && KnownBudget(limits, caller)
    ensures var budget := limits[caller].requests;
      Admitted(limits, ops, caller, k) ==
        (Early(limits, ops, caller, k, budget) + Uncounted(limits, ops, caller, k)) + Excused(limits, ops, caller, k, budget)
  {
    forall i: nat | i < |ops| && InWindow(limits, ops, caller, k, i) && ops[i].Hit?
      ensures CountSeen(limits, ops[..i], ops[i]) == Rank(limits, ops, caller, k, i) + 1
    {
      CountIsRank(limits, ops, i);
    }
  }

  // Any stretch of time.

  /** The caller's submits whose clock readings lie in a stretch of time. */
  predicate During(ops: seq<Op>, caller: string, from: int, length: int, i: nat) {
    i < |ops| && !ops[i].SetTtl? && ops[i].caller == caller && from <= ops[i].read + ops[i].skew < from + length
  }

  function AdmittedDuring(limits: map<string, Budget>, ops: seq<Op>, caller: string, from: int, length: int): set<nat>
    requires AllWellFormed(limits, ops)
  {
    set i: nat | i < |ops| && During(ops, caller, from, length, i) && Admits(limits, ops, i)
  }

  /** Those that got through because Redis did not answer. */
  function FailedOpen(ops: seq<Op>, caller: string, from: int, length: int): set<nat> {
    set i: nat | i < |ops| && During(ops, caller, from, length, i) && (ops[i].Hit? ==> !ops[i].reported)
  }

  function Union(sets: seq<set<nat>>): set<nat> {
    if sets == [] then {} else Union(sets[1..]) + sets[0]
  }

  lemma {:induction false} UnionHolds(sets: seq<set<nat>>, j: nat)
    requires j < |sets|
    ensures sets[j] <= Union(sets)
  {
    if j > 0 {
      UnionHolds(sets[1..], j - 1);
    }
  }

  lemma PairBound(a: set<nat>, b: set<nat>)
    ensures |a + b| <= |a| + |b|
  {
    assert a + b == a + (b - a);
    SubsetCount(b - a, b);
  }

  /** n times a number, by adding. */
  function Sum(n: nat, budget: nat): nat {
    if n == 0 then 0 else Sum(n - 1, budget) + budget
  }

  lemma {:induction false} SumIsProduct(n: nat, budget: nat)
    ensures Sum(n, budget) == n * budget
  {
    if n > 0 {
      SumIsProduct(n - 1, budget);
      assert n * budget == (n - 1) * budget + budget;
    }
  }

  lemma {:induction false} UnionBound(sets: seq<set<nat>>, budget: nat)
    requires forall j :: 0 <= j < |sets| ==> |sets[j]| <= budget
    ensures |Union(sets)| <= Sum(|sets|, budget)
  {
    if sets != [] {
      UnionBound(sets[1..], budget);
      PairBound(Union(sets[1..]), sets[0]);
    }
  }

  /** Length over window, rounded up. */
  function WindowsIn(length: nat, window: nat): nat
    requires window > 0
  {
    (length + window - 1) / window
  }

  lemma Scale(x: int, y: int, w: nat)
    requires x <= y
    ensures x * w <= y * w
  {
    assert (y - x) * w >= 0;
  }

  lemma FactorOut(x: int, y: int, w: nat)
    requires w > 0 && x * w < y * w
    ensures x < y
  {
    if x >= y {
      Scale(y, x, w);
    }
  }

  lemma DivBelow(a: nat, b: nat, w: nat, c: nat)
    requires w > 0 && a < b + c * w + 1
    ensures a / w <= b / w + c
  {
    assert a == (a / w) * w + a % w && b == (b / w) * w + b % w;
    assert (b / w + c + 1) * w == (b / w) * w + c * w + w;
    FactorOut(a / w, b / w + c + 1, w);
  }

  lemma CeilingCovers(length: nat, w: nat)
    requires w > 0
    ensures length <= WindowsIn(length, w) * w
  {
    var x := length + w - 1;
    assert x == (x / w) * w + x % w;
  }

  /** A reading in the stretch belongs to one of the windows the stretch can touch. */
  lemma WindowIsNear(from: nat, length: nat, w: nat, at: nat)
    requires w > 0 && from <= at < from + length
    ensures from / w <= at / w < from / w + WindowsIn(length, w) + 1
  {
    CeilingCovers(length, w);
    DivBelow(at, from, w, WindowsIn(length, w));
    DivBelow(from, at, w, 0);
  }

  /** An admitted submit is within its window's budget or was let through because Redis did not answer. */
  lemma AdmittedIsEarlyOrFailedOpen(limits: map<string, Budget>, ops: seq<Op>, caller: string, from: nat, length: nat, i: nat)
    requires AllWellFormed(limits, ops) && NeverResets(limits, ops) && KnownBudget(limits, caller)
    requires i in AdmittedDuring(limits, ops, caller, from, length) && i !in FailedOpen(ops, caller, from, length)
    ensures i in Early(limits, ops, caller, Index(limits, ops[i]), limits[caller].requests)
  {
    CountIsRank(limits, ops, i);
  }

  /** Windows first, ..., first + n - 1 are all that the caller's readings in the stretch can be in. */
  ghost predicate Spans(limits: map<string, Budget>, ops: seq<Op>, caller: string, from: nat, length: nat, first: nat, n: nat)
    requires AllWellFormed(limits, ops)
  {
    forall i :: 0 <= i < |ops| && During(ops, caller, from, length, i) ==> first <= Index(limits, ops[i]) < first + n
  }

  lemma SpansStretch(limits: map<string, Budget>, ops: seq<Op>, caller: string, from: nat, length: nat)
    requires AllWellFormed(limits, ops) && KnownBudget(limits, caller)
    ensures var w := limits[caller].window; Spans(limits, ops, caller, from, length, from / w, WindowsIn(length, w) + 1)
  {
    var w := limits[caller].window;
    forall i | 0 <= i < |ops| && During(ops, caller, from, length, i)
      ensures from / w <= Index(limits, ops[i]) < from / w + (WindowsIn(length, w) + 1)
    {
      WindowIsNear(from, length, w, ops[i].read + ops[i].skew);
    }
  }

  /** The increments within the budget, window by window. */
  function EarlyByWindow(limits: map<string, Budget>, ops: seq<Op>, caller: string, first: nat, n: nat, budget: nat): seq<set<nat>>
    requires AllWellFormed(limits, ops)
  {
    seq(n, j requires 0 <= j < n => Early(limits, ops, caller, first + j, budget))
  }

  lemma EarlyBound(limits: map<string, Budget>, ops: seq<Op>, caller: string, first: nat, n: nat, budget: nat)
    requires AllWellFormed(limits, ops)
    ensures |Union(EarlyByWindow(limits, ops, caller, first, n, budget))| <= Sum(n, budget)
  {
    var windows := EarlyByWindow(limits, ops, caller, first, n, budget);
    forall j | 0 <= j < n ensures |windows[j]| <= budget {
      EarlyCount(limits, ops, caller, first + j, budget);
    }
    UnionBound(windows, budget);
  }

  lemma SpannedIsEarly(limits: map<string, Budget>, ops: seq<Op>, caller: string, from: nat, length: nat, first: nat, n: nat, i: nat)
    requires AllWellFormed(limits, ops) && NeverResets(limits, ops) && KnownBudget(limits, caller)
    requires Spans(limits, ops, caller, from, length, first, n)
    requires i in AdmittedDuring(limits, ops, caller, from, length) && i !in FailedOpen(ops, caller, from, length)
    ensures i in Union(EarlyByWindow(limits, ops, caller, first, n, limits[caller].requests))
  {
    AdmittedIsEarlyOrFailedOpen(limits, ops, caller, from, length, i);
    UnionHolds(EarlyByWindow(limits, ops, caller, first, n, limits[caller].requests), Index(limits, ops[i]) - first);
  }

  lemma SpannedAdmits(limits: map<string, Budget>, ops: seq<Op>, caller: string, from: nat, length: nat, first: nat, n: nat)
    requires AllWellFormed(limits, ops) && NeverResets(limits, ops) && KnownBudget(limits, caller)
    requires Spans(limits, ops, caller, from, length, first, n)
    ensures |AdmittedDuring(limits, ops, caller, from, length)| <=
      Sum(n, limits[caller].requests) + |FailedOpen(ops, caller, from, length)|
  {
    var early := Union(EarlyByWindow(limits, ops, caller, first, n, limits[caller].requests));
    var open := FailedOpen(ops, caller, from, length);
    forall i | i in AdmittedDuring(limits, ops, caller, from, length) ensures i in early + open {
      if i !in open {
        SpannedIsEarly(limits, ops, caller, from, length, first, n, i);
      }
    }
    SubsetCount(AdmittedDuring(limits, ops, caller, from, length), early + open);
    PairBound(early, open);
    EarlyBound(limits, ops, caller, first, n, limits[caller].requests);
  }

  /** Any stretch of time admits one budget for each window it can touch, over all replicas, besides what failed open. */
  lemma StretchAdmits(limits: map<string, Budget>, ops: seq<Op>, caller: string, from: nat, length: nat)
    requires AllWellFormed(limits, ops) && NeverResets(limits, ops) && KnownBudget(limits, caller)
    ensures |AdmittedDuring(limits, ops, caller, from, length)| <=
      (WindowsIn(length, limits[caller].window) + 1) * limits[caller].requests + |FailedOpen(ops, caller, from, length)|
  {
    var w := limits[caller].window;
    SpansStretch(limits, ops, caller, from, length);
    SpannedAdmits(limits, ops, caller, from, length, from / w, WindowsIn(length, w) + 1);
    SumIsProduct(WindowsIn(length, w) + 1, limits[caller].requests);
  }

  /** While clock skew and delay stay within one window, replicas share one budget exactly as the two bounds say. */
  lemma BudgetIsShared(limits: map<string, Budget>, ops: seq<Op>, skew: int, delay: int, caller: string)
    requires AllWellFormed(limits, ops) && Ordered(limits, ops) && Disciplined(ops, skew, delay) && CoversSkew(limits, skew, delay)
    requires KnownBudget(limits, caller)
    ensures forall k: nat ::
      |Admitted(limits, ops, caller, k)| ==
        Min(limits[caller].requests, |Counted(limits, ops, caller, k)|)
        + |Uncounted(limits, ops, caller, k)| + |Excused(limits, ops, caller, k, limits[caller].requests)|
    ensures forall from: nat, length: nat ::
      |AdmittedDuring(limits, ops, caller, from, length)| <=
        (WindowsIn(length, limits[caller].window) + 1) * limits[caller].requests + |FailedOpen(ops, caller, from, length)|
  {
    NoReset(limits, ops, skew, delay);
    forall k: nat {
      WindowAdmits(limits, ops, caller, k);
    }
    forall from: nat, length: nat {
      StretchAdmits(limits, ops, caller, from, length);
    }
  }

  // Callers do not get in each other's way.

  /** The operations made for one caller. */
  function OwnOps(ops: seq<Op>, caller: string): seq<Op> {
    if ops == [] then []
    else
      var n := |ops| - 1;
      OwnOps(ops[..n], caller) + (if ops[n].caller == caller then [ops[n]] else [])
  }

  predicate SameCounter(a: Store, b: Store, key: string) {
    (key in a <==> key in b) && (key in a ==> a[key] == b[key])
  }

  /** Another caller's operation leaves the counter alone. */
  lemma OtherOpIsElsewhere(limits: map<string, Budget>, store: Store, op: Op, caller: string, k: nat)
    requires WellFormed(limits, op) && op.caller != caller && ':' !in caller
    ensures SameCounter(Apply(limits, store, op), store, Key(caller, k))
  {
    if !op.Miss? && OpKey(limits, op) == Key(caller, k) {
      KeyInjective(op.caller, if op.SetTtl? then op.index else Index(limits, op), caller, k);
    }
  }

  /** The caller's own operation does the same to equal counters. */
  lemma OwnOpIsLocal(limits: map<string, Budget>, a: Store, b: Store, op: Op, key: string)
    requires WellFormed(limits, op) && SameCounter(a, b, key)
    ensures SameCounter(Apply(limits, a, op), Apply(limits, b, op), key)
  {
  }

  /** Whatever others do, and whether or not counters expire, a caller's counters are as if it were alone. */
  lemma {:induction false} NoInterference(limits: map<string, Budget>, ops: seq<Op>, caller: string, k: nat)
    requires AllWellFormed(limits, ops) && ':' !in caller
    ensures AllWellFormed(limits, OwnOps(ops, caller))
    ensures SameCounter(ApplyAll(limits, map[], ops), ApplyAll(limits, map[], OwnOps(ops, caller)), Key(caller, k))
    decreases |ops|
  {
    if ops != [] {
      var n := |ops| - 1;
      var mine := OwnOps(ops[..n], caller);
      NoInterference(limits, ops[..n], caller, k);
      if ops[n].caller == caller {
        assert (mine + [ops[n]])[..|mine|] == mine;
        OwnOpIsLocal(limits, ApplyAll(limits, map[], ops[..n]), ApplyAll(limits, map[], mine), ops[n], Key(caller, k));
      } else {
        assert mine + [] == mine;
        OtherOpIsElsewhere(limits, ApplyAll(limits, map[], ops[..n]), ops[n], caller, k);
      }
    }
  }

  // What a rejected caller is told.

  /** window - elapsed, where the clock is read again after the increment. */
  function Wait(read: nat, reread: int, window: nat): int
    requires window > 0
  {
    window - (reread - (read / window) * window)
  }

  /** The wait in whole seconds, rounded up, and at least one. */
  function RetryAfter(wait: int): nat {
    var seconds := -((-wait) / NANOS_PER_SECOND);
    if seconds < 1 then 1 else seconds
  }

  /** The second reading is in the first one's window exactly if the wait is positive and at most a window. */
  lemma WaitTellsTheWindow(read: nat, reread: nat, window: nat)
    requires window > 0
    ensures 0 < Wait(read, reread, window) <= window <==> reread / window == read / window
  {
    var k, j := read / window, reread / window;
    assert reread == j * window + reread % window;
    assert (k + 1) * window == k * window + window && (j + 1) * window == j * window + window;
    if 0 < Wait(read, reread, window) <= window {
      FactorOut(k, j + 1, window);
      FactorOut(j, k + 1, window);
    }
  }

  /** Rounding up to whole seconds costs less than a second, except where the minimum of one second applies. */
  lemma RetryAfterRounds(wait: int)
    ensures var told := RetryAfter(wait) * NANOS_PER_SECOND;
      && told >= wait
      && (told < wait + NANOS_PER_SECOND || told == NANOS_PER_SECOND)
  {
  }

  /** The wait ends exactly where the next window begins. */
  lemma WaitEndsTheWindow(read: nat, reread: nat, window: nat)
    requires window > 0
    ensures var end := reread + Wait(read, reread, window); end % window == 0 && end / window == read / window + 1
  {
    var k := read / window;
    assert reread + Wait(read, reread, window) == (k + 1) * window by { assert (k + 1) * window == k * window + window; }
    Multiple(k + 1, window);
  }

  lemma Multiple(k: nat, window: nat)
    requires window > 0
    ensures (k * window) % window == 0 && (k * window) / window == k
  {
    LaterWindow(k, (k + 1) * window, window);
    assert k * window == ((k * window) / window) * window + (k * window) % window;
    FactorOut((k * window) / window, k + 1, window);
    DivBelow(k * window, 0, window, k);
    if k > 0 {
      LaterWindow(k - 1, k * window, window);
    }
  }

  lemma LaterWindow(k: nat, at: nat, window: nat)
    requires window > 0 && at >= (k + 1) * window
    ensures at / window > k
  {
    assert at == (at / window) * window + at % window;
    assert (at / window + 1) * window == (at / window) * window + window;
    FactorOut(k + 1, at / window + 1, window);
  }

  /** Whatever the second reading: who waits as long as told, counted from it, is in a later window. */
  lemma RetryAfterIsHonest(read: nat, reread: nat, window: nat)
    requires window > 0
    ensures (reread + RetryAfter(Wait(read, reread, window)) * NANOS_PER_SECOND) / window > read / window
  {
    var k := read / window;
    RetryAfterRounds(Wait(read, reread, window));
    assert (k + 1) * window == k * window + window;
    LaterWindow(k, reread + RetryAfter(Wait(read, reread, window)) * NANOS_PER_SECOND, window);
  }
}
