/**
 * The recursive hallucination detector service.
 *
 * Each scan samples a recursion depth and a thought pattern, keeps the ten
 * newest patterns and the five newest entropy readings, counts
 * self-referential thoughts, and decides from three rules whether the
 * system is hallucinating; a positive decision is delivered to every
 * registered listener and pauses monitoring.
 *
 * A thought pattern is a JavaScript object, modelled as the list of its
 * own properties (name and string or number value) in insertion order. The division `0 / 0` that compares two empty
 * patterns yields NaN in JavaScript; here it is `None`, and every threshold
 * comparison against it is false, as comparisons with NaN are. The
 * `Math.random` draws and the clock readings are parameters; the scan
 * interval is not modelled: each call of `ScanCronSystem` is one tick.
 */
module HallucinationDetection {
  import opened Common

  datatype Value = Str(s: string) | Num(n: int)

  /**
   * A thought object: its own properties in insertion order, as
   * `Object.keys` lists them. A property name occurs at most once in an
   * object, which `DistinctKeys` states.
   */
  type Pattern = seq<(string, Value)>

  const MinRecursionDepth: int := 8
  const EntropyThreshold: real := 0.75
  const SelfReferenceThreshold: int := 5
  const ScanInterval: int := 500
  const PatternMatchThreshold: real := 0.6
  /** Adjacent patterns less similar than this count towards a dimensional collapse. */
  const CollapseSimilarity: real := 0.3
  const DimensionalCollapseLimit: int := 3
  /** How many patterns and entropy readings the sliding windows keep. */
  const PatternWindow: nat := 10
  const EntropyWindow: nat := 5

  // ---------------------------------------------------------------------
  // Similarity
  // ---------------------------------------------------------------------

  /** `Object.keys(p)`. */
  function Keys(p: Pattern): (ks: seq<string>)
    ensures |ks| == |p| && forall i :: 0 <= i < |p| ==> ks[i] == p[i].0
  {
    seq(|p|, i requires 0 <= i < |p| => p[i].0)
  }

  predicate DistinctKeys(p: Pattern)
  {
    Distinct(Keys(p))
  }

  /** `p[k]`: the value of the property named `k`, `None` for `undefined`. */
  function Lookup(p: Pattern, k: string): (v: Option<Value>)
    ensures v.Some? <==> k in Keys(p)
    ensures v.Some? ==> (k, v.value) in p
  {
    if p == [] then None
    else if p[0].0 == k then Some(p[0].1)
    else
      assert Keys(p) == [p[0].0] + Keys(p[1..]);
      Lookup(p[1..], k)
  }

  /** Both patterns have property `k`, with strictly equal values. */
  predicate Agree(p1: Pattern, p2: Pattern, k: string)
  {
    k in Keys(p2) && Lookup(p1, k) == Lookup(p2, k)
  }

  /** How many of the names `ks` the two patterns agree on. */
  function MatchCount(ks: seq<string>, p1: Pattern, p2: Pattern): (c: nat)
    ensures c <= |ks|
  {
    if ks == [] then 0
    else MatchCount(ks[..|ks| - 1], p1, p2) + (if Agree(p1, p2, ks[|ks| - 1]) then 1 else 0)
  }

  /** The names among `ks` the patterns agree on. */
  function AgreedAmong(ks: seq<string>, p1: Pattern, p2: Pattern): (s: set<string>)
    ensures forall k :: k in s <==> k in ks && Agree(p1, p2, k)
  {
    set k | k in ks && Agree(p1, p2, k)
  }

  /** Over distinct names, the count is the number of names agreed on, so the visiting order does not matter. */
  lemma {:induction false} MatchCountCounts(ks: seq<string>, p1: Pattern, p2: Pattern)
    requires Distinct(ks)
    ensures MatchCount(ks, p1, p2) == |AgreedAmong(ks, p1, p2)|
  {
    if ks != [] {
      var init, last := ks[..|ks| - 1], ks[|ks| - 1];
      assert ks == init + [last];
      MatchCountCounts(init, p1, p2);
      assert last !in init;
      if Agree(p1, p2, last) {
        assert AgreedAmong(ks, p1, p2) == AgreedAmong(init, p1, p2) + {last};
      } else {
        assert AgreedAmong(ks, p1, p2) == AgreedAmong(init, p1, p2);
      }
    }
  }

  /** A pattern agrees with itself on every name it has. */
  lemma {:induction false} MatchCountWithItself(ks: seq<string>, p: Pattern)
    requires forall i :: 0 <= i < |ks| ==> ks[i] in Keys(p)
    ensures MatchCount(ks, p, p) == |ks|
  {
    if ks != [] {
      MatchCountWithItself(ks[..|ks| - 1], p);
    }
  }

  /**
   * A similarity score `num / den` kept as an exact fraction, so that the
   * threshold comparisons stay linear.
   */
  datatype Ratio = Ratio(num: nat, den: nat)
  {
    function Value(): real
      requires den > 0
    {
      (num as real) / (den as real)
    }
  }

  /**
   * The names of `p1` both patterns agree on, over the larger property
   * count; `None` stands for the NaN of two empty patterns.
   */
  function Similarity(p1: Pattern, p2: Pattern): (r: Option<Ratio>)
    ensures r == None <==> |p1| == 0 && |p2| == 0
    ensures r.Some? ==> 0 < r.value.den && r.value.num <= r.value.den
  {
    if |p1| == 0 && |p2| == 0 then None
    else Some(Ratio(MatchCount(Keys(p1), p1, p2), MaxI(|p1|, |p2|)))
  }

  /** A score lies in [0, 1]. */
  lemma {:induction false} SimilarityInUnit(p1: Pattern, p2: Pattern)
    requires |p1| > 0 || |p2| > 0
    ensures 0.0 <= Similarity(p1, p2).value.Value() <= 1.0
  {
    var r := Similarity(p1, p2).value;
    FractionInUnit(r.num as real, r.den as real);
  }

  /** For objects (distinct property names) the score does not depend on the order of the arguments. */
  lemma {:induction false} SimilaritySymmetric(p1: Pattern, p2: Pattern)
    requires DistinctKeys(p1) && DistinctKeys(p2)
    ensures Similarity(p1, p2) == Similarity(p2, p1)
  {
    MatchCountCounts(Keys(p1), p1, p2);
    MatchCountCounts(Keys(p2), p2, p1);
    assert AgreedAmong(Keys(p1), p1, p2) == AgreedAmong(Keys(p2), p2, p1);
  }

  lemma {:induction false} FullRatio(k: nat)
    requires k > 0
    ensures Ratio(k, k).Value() == 1.0
  {
  }

  /** A non-empty pattern is fully similar to itself. */
  lemma {:induction false} SimilarityWithItself(p: Pattern)
    requires |p| > 0
    ensures Similarity(p, p).Some? && Similarity(p, p).value.Value() == 1.0
  {
    MatchCountWithItself(Keys(p), p);
    assert Similarity(p, p).value == Ratio(|p|, |p|);
    FullRatio(|p|);
  }

  /** `score > 0.6` (the loop threshold): false for NaN; `num / den > 3 / 5` otherwise. */
  predicate Repeats(x: Option<Ratio>)
  {
    x.Some? && 5 * x.value.num > 3 * x.value.den
  }

  /** `score < 0.3` (the collapse threshold): false for NaN; `num / den < 3 / 10` otherwise. */
  predicate Diverges(x: Option<Ratio>)
  {
    x.Some? && 10 * x.value.num < 3 * x.value.den
  }

  /** The integer comparisons are the comparisons of the score itself with the two thresholds. */
  lemma {:induction false} ThresholdsOfScore(x: Option<Ratio>)
    requires x.Some? && x.value.den > 0
    ensures Repeats(x) <==> x.value.Value() > PatternMatchThreshold
    ensures Diverges(x) <==> x.value.Value() < CollapseSimilarity
  {
    FractionAbove(x.value.num, x.value.den, 3, 5);
    FractionBelow(x.value.num, x.value.den, 3, 10);
  }

  /** `num / den > a / b` exactly when `b * num > a * den`. */
  lemma {:induction false} FractionAbove(num: nat, den: nat, a: nat, b: nat)
    requires den > 0 && b > 0
    ensures (num as real) / (den as real) > (a as real) / (b as real) <==> b * num > a * den
  {
    var v, t := (num as real) / (den as real), (a as real) / (b as real);
    assert v * (den as real) == num as real;
    assert t * (b as real) == a as real;
    SignOfScaled(v - t, (den as real) * (b as real));
    assert (v - t) * ((den as real) * (b as real)) == (b * num - a * den) as real;
  }

  /** `num / den < a / b` exactly when `b * num < a * den`. */
  lemma {:induction false} FractionBelow(num: nat, den: nat, a: nat, b: nat)
    requires den > 0 && b > 0
    ensures (num as real) / (den as real) < (a as real) / (b as real) <==> b * num < a * den
  {
    var v, t := (num as real) / (den as real), (a as real) / (b as real);
    assert v * (den as real) == num as real;
    assert t * (b as real) == a as real;
    SignOfScaled(v - t, (den as real) * (b as real));
    assert (v - t) * ((den as real) * (b as real)) == (b * num - a * den) as real;
  }

  /** Scaling by a positive factor keeps the sign. */
  lemma {:induction false} SignOfScaled(a: real, d: real)
    requires d > 0.0
    ensures a > 0.0 <==> a * d > 0.0
    ensures a < 0.0 <==> a * d < 0.0
  {
  }

  /** Counts the names of `p1` that `p2` also has with a strictly equal value, in key order. */
  method CalculateSimilarity(p1: Pattern, p2: Pattern) returns (r: Option<Ratio>)
    ensures r == Similarity(p1, p2)
  {
    var keys1 := Keys(p1);
    var keys2 := Keys(p2);
    var matchCount := 0;
    for i := 0 to |keys1|
      invariant matchCount == MatchCount(keys1[..i], p1, p2)
    {
      assert keys1[..i + 1][..i] == keys1[..i];
      if keys1[i] in keys2 && Lookup(p1, keys1[i]) == Lookup(p2, keys1[i]) {
        matchCount := matchCount + 1;
      }
    }
    assert keys1[..|keys1|] == keys1;
    if |p1| == 0 && |p2| == 0 {
      r := None;
    } else {
      r := Some(Ratio(matchCount, MaxI(|keys1|, |keys2|)));
    }
  }

  // ---------------------------------------------------------------------
  // Sampling and per-pattern measures
  // ---------------------------------------------------------------------

  const MockTypes: seq<string> :=
    ["linear", "recursive", "self-reference", "meta", "loop", "emergence", "collapse"]

  const MockContents: seq<string> := [
    "Processing input",
    "Creating nested processing context",
    "Thinking about my own processing",
    "Simulating the simulation of thought",
    "Detecting pattern in recursive thought",
    "Detecting emergence in recursive loops",
    "Dimensional collapse in thought space"]

  /** The mock pattern chosen for a depth and a uniform draw in [0, 1). */
  function PatternIndex(depth: int, draw: real): (i: nat)
    requires depth >= 0 && 0.0 <= draw < 1.0
    ensures i < |MockTypes|
  {
    var bias := MinR(1.0, (depth as real) / 10.0);
    var raw := (bias * 6.0 + draw * 3.0).Floor;
    assert raw >= 0;
    raw % 7
  }

  /** Shallow depths draw from the three simplest patterns, depths of 10 or more from collapse, linear and recursive. */
  lemma {:induction false} PatternIndexBias(depth: int, draw: real)
    requires depth >= 0 && 0.0 <= draw < 1.0
    ensures depth == 0 ==> PatternIndex(depth, draw) <= 2
    ensures depth >= 10 ==> PatternIndex(depth, draw) in {6, 0, 1}
  {
    var raw := (MinR(1.0, (depth as real) / 10.0) * 6.0 + draw * 3.0).Floor;
    if depth >= 10 {
      assert MinR(1.0, (depth as real) / 10.0) == 1.0;
      assert 6 <= raw <= 8;
    }
  }

  /** The sampled pattern: the mock type and content, then the clock reading and the depth. */
  function SampledPattern(index: nat, now: int, depth: int): (p: Pattern)
    requires index < |MockTypes|
    ensures Keys(p) == ["type", "content", "timestamp", "depth"] && DistinctKeys(p)
    ensures Lookup(p, "type") == Some(Str(MockTypes[index]))
    ensures Lookup(p, "content") == Some(Str(MockContents[index]))
  {
    [("type", Str(MockTypes[index])), ("content", Str(MockContents[index])),
     ("timestamp", Num(now)), ("depth", Num(depth))]
  }

  /** The entropy table, in the order of `MockTypes`. */
  const MockEntropies: seq<real> := [0.1, 0.4, 0.6, 0.7, 0.8, 0.9, 1.0]

  /** The entropy of a pattern type: the table entry, 0.5 for a type not in the table. */
  function EntropyOfType(t: string): (e: real)
    ensures 0.1 <= e <= 1.0
    ensures forall i :: 0 <= i < |MockTypes| && MockTypes[i] == t ==> e == MockEntropies[i]
    ensures t !in MockTypes ==> e == 0.5
  {
    if t == "linear" then 0.1
    else if t == "recursive" then 0.4
    else if t == "self-reference" then 0.6
    else if t == "meta" then 0.7
    else if t == "loop" then 0.8
    else if t == "emergence" then 0.9
    else if t == "collapse" then 1.0
    else 0.5
  }

  /** `entropyMap[pattern.type] || 0.5`: a missing or non-string type reads 0.5. */
  function ThoughtEntropy(p: Pattern): (e: real)
    ensures 0.1 <= e <= 1.0
    ensures !(Lookup(p, "type").Some? && Lookup(p, "type").value.Str?) ==> e == 0.5
  {
    match Lookup(p, "type")
    case Some(Str(t)) => EntropyOfType(t)
    case _ => 0.5
  }

  /** The entropy of the mock patterns rises with their index. */
  lemma {:induction false} MockEntropyIncreases(i: nat, j: nat, now: int, depth: int)
    requires i < j < |MockTypes|
    ensures ThoughtEntropy(SampledPattern(i, now, depth)) < ThoughtEntropy(SampledPattern(j, now, depth))
  {
    assert ThoughtEntropy(SampledPattern(i, now, depth)) == MockEntropies[i];
    assert ThoughtEntropy(SampledPattern(j, now, depth)) == MockEntropies[j];
    MockEntropiesIncrease(i, j);
  }

  lemma {:induction false} MockEntropiesIncrease(i: nat, j: nat)
    requires i < j < |MockEntropies|
    ensures MockEntropies[i] < MockEntropies[j]
  {
  }

  const SelfReferentialTerms: seq<string> :=
    ["recursive", "self", "thinking about", "simulating", "loop",
     "cycle", "mirror", "reflection", "meta", "emergence"]

  function LowerChar(c: char): char
  {
    if 'A' <= c <= 'Z' then (c as int + 32) as char else c
  }

  /** `String.prototype.toLowerCase` on ASCII letters. */
  function Lower(s: string): (r: string)
    ensures |r| == |s|
    ensures forall i :: 0 <= i < |s| ==> r[i] == LowerChar(s[i])
  {
    seq(|s|, i requires 0 <= i < |s| => LowerChar(s[i]))
  }

  /** `t` occurs in `s` starting at index `i`. */
  predicate OccursAt(s: string, t: string, i: int)
  {
    0 <= i && i + |t| <= |s| && s[i..i + |t|] == t
  }

  /** `s.includes(t)`. */
  predicate Includes(s: string, t: string)
  {
    exists i :: 0 <= i <= |s| - |t| && OccursAt(s, t, i)
  }

  /**
   * A non-empty content that mentions one of the ten terms, ignoring case.
   * A content that is not a string reads as not self-referential here; the
   * source would throw on it instead, but every sampled mock content is a
   * string, so no pattern the detector records reaches that case.
   */
  predicate SelfReferential(p: Pattern)
  {
    match Lookup(p, "content")
    case Some(Str(c)) => c != [] && exists term :: term in SelfReferentialTerms && Includes(Lower(c), term)
    case _ => false
  }

  // ---------------------------------------------------------------------
  // Detection rules over the stored windows
  // ---------------------------------------------------------------------

  /** The newest pattern is more than 0.6 similar to one of the two before it. */
  predicate LoopDetected(patterns: seq<Pattern>)
  {
    |patterns| >= 3 &&
    (Repeats(Similarity(patterns[|patterns| - 1], patterns[|patterns| - 3])) ||
     Repeats(Similarity(patterns[|patterns| - 1], patterns[|patterns| - 2])))
  }

  /** How many adjacent pairs of `patterns` are less than 0.3 similar. */
  function CollapseCount(patterns: seq<Pattern>): (c: nat)
    ensures c <= MaxI(0, |patterns| - 1)
  {
    if |patterns| <= 1 then 0
    else
      CollapseCount(patterns[..|patterns| - 1]) +
      (if Diverges(Similarity(patterns[|patterns| - 2], patterns[|patterns| - 1])) then 1 else 0)
  }

  /** With fewer than four patterns there are fewer than three pairs, so no collapse. */
  lemma {:induction false} NoCollapseWithFewPatterns(patterns: seq<Pattern>)
    requires |patterns| < 4
    ensures CollapseCount(patterns) < DimensionalCollapseLimit
  {
  }

  function Sum(xs: seq<real>): real
  {
    if xs == [] then 0.0 else Sum(xs[..|xs| - 1]) + xs[|xs| - 1]
  }

  /** The mean of the readings, 0 for none. */
  function MeanEntropy(xs: seq<real>): real
  {
    Sum(xs) / (MaxI(1, |xs|) as real)
  }

  lemma {:induction false} SumBounds(xs: seq<real>, lo: real, hi: real)
    requires forall i :: 0 <= i < |xs| ==> lo <= xs[i] <= hi
    ensures (|xs| as real) * lo <= Sum(xs) <= (|xs| as real) * hi
  {
    if xs != [] {
      SumBounds(xs[..|xs| - 1], lo, hi);
    }
  }

  /** Readings between 0.1 and 1 average to at most 1. */
  lemma {:induction false} MeanEntropyAtMostOne(xs: seq<real>)
    requires forall i :: 0 <= i < |xs| ==> 0.1 <= xs[i] <= 1.0
    ensures MeanEntropy(xs) <= 1.0
  {
    SumBounds(xs, 0.1, 1.0);
    if |xs| > 0 {
      FractionInUnit(Sum(xs), |xs| as real);
    }
  }

  /** The three rules; the current entropy reading itself is not consulted. */
  predicate HallucinationState(depth: int, loopDetected: bool, entropies: seq<real>, selfReferences: int,
                               patterns: seq<Pattern>)
  {
    (loopDetected && depth > MinRecursionDepth) ||
    (MeanEntropy(entropies) > EntropyThreshold && (depth as real) > (MinRecursionDepth as real) / 2.0 &&
     selfReferences > SelfReferenceThreshold) ||
    (CollapseCount(patterns) >= DimensionalCollapseLimit && (depth as real) > (MinRecursionDepth as real) / 1.5)
  }

  /** Depth 4 and below never signals, whatever the windows hold. */
  lemma {:induction false} ShallowNeverHallucinates(depth: int, loopDetected: bool, entropies: seq<real>, selfReferences: int,
                                 patterns: seq<Pattern>)
    requires depth <= 4
    ensures !HallucinationState(depth, loopDetected, entropies, selfReferences, patterns)
  {
  }

  /** The newest `n` entries of `s`. */
  function Newest<T>(s: seq<T>, n: nat): (r: seq<T>)
    ensures |r| == MinI(|s|, n)
    ensures forall i :: 0 <= i < |r| ==> r[i] == s[|s| - |r| + i]
  {
    if |s| > n then s[|s| - n..] else s
  }

  // ---------------------------------------------------------------------
  // The detector object
  // ---------------------------------------------------------------------

  /** A value handed to `onHallucination`: only functions are accepted. */
  datatype Callback = FunctionValue(name: string) | OtherValue

  datatype HallucinationEvent = HallucinationEvent(
    recursionDepth: int, entropy: real, thoughtLoop: bool, selfReferenceCount: int, timestamp: int)

  /** One invocation of a listener with an event. */
  datatype Delivery = Delivery(listener: Callback, event: HallucinationEvent)

  /** One delivery of `event` to each listener, in registration order. */
  function DeliveriesTo(listeners: seq<Callback>, event: HallucinationEvent): (r: seq<Delivery>)
    ensures |r| == |listeners|
    ensures forall i :: 0 <= i < |r| ==> r[i] == Delivery(listeners[i], event)
  {
    if listeners == [] then []
    else DeliveriesTo(listeners[..|listeners| - 1], event) + [Delivery(listeners[|listeners| - 1], event)]
  }

  class RecursiveHallucinationDetector {
    var recursionDepth: int
    var thoughtPatterns: seq<Pattern>
    var entropyMeasures: seq<real>
    var selfReferenceCount: int
    /** Set by the constructor and never consulted. */
    const hallucinationThreshold: real
    var isMonitoring: bool
    var listeners: seq<Callback>
    /** Every listener invocation so far, in call order. */
    var deliveries: seq<Delivery>

    ghost predicate Valid()
      reads this
    {
      recursionDepth >= 0 && selfReferenceCount >= 0 &&
      |thoughtPatterns| <= PatternWindow && |entropyMeasures| <= EntropyWindow &&
      (forall i :: 0 <= i < |entropyMeasures| ==> 0.1 <= entropyMeasures[i] <= 1.0) &&
      (forall i :: 0 <= i < |listeners| ==> listeners[i].FunctionValue?)
    }

    constructor ()
      ensures Valid()
      ensures recursionDepth == 0 && thoughtPatterns == [] && entropyMeasures == [] && selfReferenceCount == 0
      ensures hallucinationThreshold == 0.85 && !isMonitoring && listeners == [] && deliveries == []
    {
      recursionDepth := 0;
      thoughtPatterns := [];
      entropyMeasures := [];
      selfReferenceCount := 0;
      hallucinationThreshold := 0.85;
      isMonitoring := false;
      listeners := [];
      deliveries := [];
    }

    /** Starting an already running monitor changes nothing. */
    method StartMonitoring()
      modifies this`isMonitoring
      ensures isMonitoring
    {
      if isMonitoring {
        return;
      }
      isMonitoring := true;
    }

    /** Stopping a stopped monitor changes nothing. */
    method StopMonitoring()
      modifies this`isMonitoring
      ensures !isMonitoring
    {
      if !isMonitoring {
        return;
      }
      isMonitoring := false;
    }

    method OnHallucination(callback: Callback) returns (accepted: bool)
      requires Valid()
      modifies this`listeners
      ensures Valid()
      ensures accepted <==> callback.FunctionValue?
      ensures listeners == if accepted then old(listeners) + [callback] else old(listeners)
    {
      if callback.FunctionValue? {
        listeners := listeners + [callback];
        return true;
      }
      return false;
    }

    /**
     * Calls every listener once, in registration order (a throwing listener
     * does not stop the others), then pauses monitoring.
     */
    method NotifyHallucination(data: HallucinationEvent)
      modifies this`deliveries, this`isMonitoring
      ensures |deliveries| == |old(deliveries)| + |listeners|
      ensures deliveries[..|old(deliveries)|] == old(deliveries)
      ensures forall i :: 0 <= i < |listeners| ==> deliveries[|old(deliveries)| + i] == Delivery(listeners[i], data)
      ensures deliveries == old(deliveries) + DeliveriesTo(listeners, data)
      ensures !isMonitoring
    {
      var i := 0;
      while i < |listeners|
        invariant i <= |listeners|
        invariant deliveries == old(deliveries) + DeliveriesTo(listeners[..i], data)
      {
        assert listeners[..i + 1][..i] == listeners[..i];
        deliveries := deliveries + [Delivery(listeners[i], data)];
        i := i + 1;
      }
      assert listeners[..i] == listeners;
      StopMonitoring();
    }

    /** Whether the newest stored pattern repeats one of the two before it. */
    method DetectThoughtLoop() returns (found: bool)
      ensures found == LoopDetected(thoughtPatterns)
    {
      var n := |thoughtPatterns|;
      if n < 3 {
        return false;
      }
      var recent := thoughtPatterns[n - 3..];
      var latest := recent[2];
      var i := 0;
      while i < |recent| - 1
        invariant 0 <= i <= |recent| - 1
        invariant forall j :: 0 <= j < i ==> !Repeats(Similarity(latest, recent[j]))
      {
        var similarity := CalculateSimilarity(latest, recent[i]);
        if Repeats(similarity) {
          assert recent[i] == thoughtPatterns[n - 3 + i];
          return true;
        }
        i := i + 1;
      }
      assert recent[0] == thoughtPatterns[n - 3] && recent[1] == thoughtPatterns[n - 2];
      return false;
    }

    /** Whether at least three adjacent stored pairs are less than 0.3 similar. */
    method DetectDimensionalCollapse() returns (collapsed: bool)
      ensures collapsed <==> CollapseCount(thoughtPatterns) >= DimensionalCollapseLimit
    {
      var collapseCount := 0;
      var i := 1;
      while i < |thoughtPatterns|
        invariant 1 <= i <= MaxI(1, |thoughtPatterns|)
        invariant collapseCount == CollapseCount(thoughtPatterns[..MinI(i, |thoughtPatterns|)])
      {
        var similarity := CalculateSimilarity(thoughtPatterns[i - 1], thoughtPatterns[i]);
        assert thoughtPatterns[..i + 1][..i] == thoughtPatterns[..i];
        if Diverges(similarity) {
          collapseCount := collapseCount + 1;
        }
        i := i + 1;
      }
      assert thoughtPatterns[..MinI(i, |thoughtPatterns|)] == thoughtPatterns;
      collapsed := collapseCount >= DimensionalCollapseLimit;
    }

    /** The three-way rule over the stored windows and the self-reference count. */
    method DetermineHallucinationState(depth: int, entropy: real, loopDetected: bool) returns (hallucinating: bool)
      ensures hallucinating == HallucinationState(depth, loopDetected, entropyMeasures, selfReferenceCount, thoughtPatterns)
    {
      if loopDetected && depth > MinRecursionDepth {
        return true;
      }
      var avgEntropy := Sum(entropyMeasures) / (MaxI(1, |entropyMeasures|) as real);
      if avgEntropy > EntropyThreshold && (depth as real) > (MinRecursionDepth as real) / 2.0 &&
         selfReferenceCount > SelfReferenceThreshold {
        return true;
      }
      var collapsed := DetectDimensionalCollapse();
      if collapsed && (depth as real) > (MinRecursionDepth as real) / 1.5 {
        return true;
      }
      return false;
    }

    /**
     * One scan: the depth grows by one when the draw exceeds 0.7, the
     * sampled pattern and its entropy enter their windows, a
     * self-referential content is counted, and a positive decision is
     * delivered to the listeners.
     */
    method ScanCronSystem(depthDraw: real, patternDraw: real, now: int, clock: int) returns (hallucinating: bool)
      requires Valid() && 0.0 <= patternDraw < 1.0
      modifies this`recursionDepth, this`thoughtPatterns, this`entropyMeasures, this`selfReferenceCount,
               this`deliveries, this`isMonitoring
      ensures Valid()
      ensures Observed(depthDraw, patternDraw, now)
      ensures hallucinating == HallucinationState(recursionDepth, LoopDetected(thoughtPatterns), entropyMeasures,
                                                  selfReferenceCount, thoughtPatterns)
      ensures hallucinating ==> !isMonitoring && |deliveries| == |old(deliveries)| + |listeners|
      ensures hallucinating ==>
        var p := SampledPattern(PatternIndex(recursionDepth, patternDraw), now, recursionDepth);
        var event := HallucinationEvent(recursionDepth, ThoughtEntropy(p), LoopDetected(thoughtPatterns),
                                        selfReferenceCount, clock);
        deliveries == old(deliveries) + DeliveriesTo(listeners, event)
      ensures !hallucinating ==> isMonitoring == old(isMonitoring) && deliveries == old(deliveries)
    {
      var currentRecursionDepth, currentEntropy := Observe(depthDraw, patternDraw, now);
      hallucinating := Assess(currentRecursionDepth, currentEntropy, clock);
    }

    /**
     * The windows after one sample: the depth grown by one when the draw
     * exceeds 0.7, the sampled pattern and its entropy appended to their
     * windows, and a self-referential content counted.
     */
    twostate predicate Observed(depthDraw: real, patternDraw: real, now: int)
      reads this`recursionDepth, this`thoughtPatterns, this`entropyMeasures, this`selfReferenceCount
      requires old(recursionDepth) >= 0 && 0.0 <= patternDraw < 1.0
    {
      recursionDepth == old(recursionDepth) + (if depthDraw > 0.7 then 1 else 0) &&
      var p := SampledPattern(PatternIndex(recursionDepth, patternDraw), now, recursionDepth);
      thoughtPatterns == Newest(old(thoughtPatterns) + [p], PatternWindow) &&
      entropyMeasures == Newest(old(entropyMeasures) + [ThoughtEntropy(p)], EntropyWindow) &&
      selfReferenceCount == old(selfReferenceCount) + (if SelfReferential(p) then 1 else 0)
    }

    /** The deciding half of a scan: the state classified, and a positive decision delivered. */
    method Assess(depth: int, entropy: real, clock: int) returns (hallucinating: bool)
      requires Valid() && depth == recursionDepth
      modifies this`deliveries, this`isMonitoring
      ensures Valid()
      ensures hallucinating == HallucinationState(recursionDepth, LoopDetected(thoughtPatterns), entropyMeasures,
                                                  selfReferenceCount, thoughtPatterns)
      ensures hallucinating ==> !isMonitoring && |deliveries| == |old(deliveries)| + |listeners|
      ensures hallucinating ==>
        var event := HallucinationEvent(depth, entropy, LoopDetected(thoughtPatterns), selfReferenceCount, clock);
        deliveries == old(deliveries) + DeliveriesTo(listeners, event)
      ensures !hallucinating ==> isMonitoring == old(isMonitoring) && deliveries == old(deliveries)
    {
      var loopDetected := DetectThoughtLoop();
      hallucinating := DetermineHallucinationState(depth, entropy, loopDetected);
      if hallucinating {
        NotifyHallucination(HallucinationEvent(depth, entropy, loopDetected, selfReferenceCount, clock));
      }
    }

    /** The sampling half of a scan: the depth, the pattern and its entropy, recorded in the windows. */
    method Observe(depthDraw: real, patternDraw: real, now: int) returns (depth: int, entropy: real)
      requires Valid() && 0.0 <= patternDraw < 1.0
      modifies this`recursionDepth, this`thoughtPatterns, this`entropyMeasures, this`selfReferenceCount
      ensures Valid()
      ensures Observed(depthDraw, patternDraw, now) && depth == recursionDepth
      ensures entropy == ThoughtEntropy(SampledPattern(PatternIndex(recursionDepth, patternDraw), now, recursionDepth))
    {
      depth := SampleRecursionDepth(depthDraw);
      var currentThoughtPattern := SampleThoughtPattern(patternDraw, now);
      entropy := RecordPattern(currentThoughtPattern);
    }

    /**
     * Pushes a pattern and its entropy onto their windows, dropping the
     * oldest entry of a full window, and counts a self-referential content.
     */
    method RecordPattern(p: Pattern) returns (entropy: real)
      requires Valid()
      modifies this`thoughtPatterns, this`entropyMeasures, this`selfReferenceCount
      ensures Valid()
      ensures entropy == ThoughtEntropy(p)
      ensures thoughtPatterns == Newest(old(thoughtPatterns) + [p], PatternWindow)
      ensures entropyMeasures == Newest(old(entropyMeasures) + [entropy], EntropyWindow)
      ensures selfReferenceCount == old(selfReferenceCount) + (if SelfReferential(p) then 1 else 0)
    {
      PushPattern(p);
      entropy := ThoughtEntropy(p);
      PushEntropy(entropy);
      if SelfReferential(p) {
        selfReferenceCount := selfReferenceCount + 1;
      }
    }

    /** `thoughtPatterns.push(p)`, then `shift()` once the window holds more than ten. */
    method PushPattern(p: Pattern)
      requires |thoughtPatterns| <= PatternWindow
      modifies this`thoughtPatterns
      ensures thoughtPatterns == Newest(old(thoughtPatterns) + [p], PatternWindow)
      ensures |thoughtPatterns| <= PatternWindow
    {
      thoughtPatterns := thoughtPatterns + [p];
      if |thoughtPatterns| > PatternWindow {
        thoughtPatterns := thoughtPatterns[1..];
      }
    }

    /** `entropyMeasures.push(e)`, then `shift()` once the window holds more than five. */
    method PushEntropy(e: real)
      requires |entropyMeasures| <= EntropyWindow
      requires 0.1 <= e <= 1.0 && forall i :: 0 <= i < |entropyMeasures| ==> 0.1 <= entropyMeasures[i] <= 1.0
      modifies this`entropyMeasures
      ensures entropyMeasures == Newest(old(entropyMeasures) + [e], EntropyWindow)
      ensures |entropyMeasures| <= EntropyWindow
      ensures forall i :: 0 <= i < |entropyMeasures| ==> 0.1 <= entropyMeasures[i] <= 1.0
    {
      entropyMeasures := entropyMeasures + [e];
      if |entropyMeasures| > EntropyWindow {
        entropyMeasures := entropyMeasures[1..];
      }
    }

    /** One of the seven mock patterns, biased towards the later ones as the depth grows. */
    method SampleThoughtPattern(draw: real, now: int) returns (p: Pattern)
      requires recursionDepth >= 0 && 0.0 <= draw < 1.0
      ensures p == SampledPattern(PatternIndex(recursionDepth, draw), now, recursionDepth)
    {
      var index := PatternIndex(recursionDepth, draw);
      return SampledPattern(index, now, recursionDepth);
    }

    /** The depth rises by one on a draw above 0.7 and never falls. */
    method SampleRecursionDepth(draw: real) returns (depth: int)
      modifies this`recursionDepth
      ensures recursionDepth == old(recursionDepth) + (if draw > 0.7 then 1 else 0)
      ensures depth == recursionDepth
    {
      recursionDepth := recursionDepth + (if draw > 0.7 then 1 else 0);
      return recursionDepth;
    }

    /** Clears the counters and windows; a running monitor is restarted and keeps running. */
    method Reset()
      requires Valid()
      modifies this`recursionDepth, this`thoughtPatterns, this`entropyMeasures, this`selfReferenceCount,
               this`isMonitoring
      ensures Valid()
      ensures recursionDepth == 0 && thoughtPatterns == [] && entropyMeasures == [] && selfReferenceCount == 0
      ensures isMonitoring == old(isMonitoring)
    {
      recursionDepth := 0;
      thoughtPatterns := [];
      entropyMeasures := [];
      selfReferenceCount := 0;
      if isMonitoring {
        StopMonitoring();
        StartMonitoring();
      }
    }
  }
}
