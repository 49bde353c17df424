/** The search for three legs of shrinking momentum and progressing price. */
module Triplets {
  import opened Common
  import opened Histogram
  import opened Waves
  import opened Legs
  import opened Search

  // ---------- where a leg lies in a wave list ----------

  function FindEqual(waves: seq<Segment>, target: Segment, from: nat): (q: nat)
    requires from <= |waves|
    ensures from <= q <= |waves| && (q < |waves| ==> waves[q] == target)
    ensures forall i: nat {:trigger waves[i]} | from <= i < q :: waves[i] != target
    decreases |waves| - from
  {
    if from == |waves| || waves[from] == target then from else FindEqual(waves, target, from + 1)
  }

  predicate StartsLike(waves: seq<Segment>, target: Segment, i: nat)
    requires i < |waves|
  {
    waves[i].sign == target.sign && waves[i].startIdx == target.startIdx
  }

  predicate EndsLike(waves: seq<Segment>, target: Segment, i: nat)
    requires i < |waves|
  {
    waves[i].sign == target.sign && waves[i].endIdx == target.endIdx
  }

  function FindStart(waves: seq<Segment>, target: Segment, from: nat): (q: nat)
    requires from <= |waves|
    ensures from <= q <= |waves| && (q < |waves| ==> StartsLike(waves, target, q))
    ensures forall i: nat {:trigger StartsLike(waves, target, i)} | from <= i < q :: !StartsLike(waves, target, i)
    decreases |waves| - from
  {
    if from == |waves| || StartsLike(waves, target, from) then from else FindStart(waves, target, from + 1)
  }

  /** The last position below n that ends like the target, |waves| when there is none. */
  function FindEnd(waves: seq<Segment>, target: Segment, n: nat): (q: nat)
    requires n <= |waves|
    ensures q == |waves| || (q < n && EndsLike(waves, target, q))
    ensures forall i: nat {:trigger EndsLike(waves, target, i)} |
              i < n && (q == |waves| || q < i) :: !EndsLike(waves, target, i)
  {
    if n == 0 then |waves| else if EndsLike(waves, target, n - 1) then n - 1 else FindEnd(waves, target, n - 1)
  }

  /** None stands for the ValueError of the source. */
  function SpanIndices(waves: seq<Segment>, target: Segment): Option<(nat, nat)> {
    var q := FindEqual(waves, target, 0);
    if q < |waves| then Some((q, q)) else
      var s := FindStart(waves, target, 0);
      var e := FindEnd(waves, target, |waves|);
      if s < |waves| && e < |waves| && s <= e then Some((s, e)) else None
  }

  method WaveSpanIndices(waves: seq<Segment>, target: Segment) returns (span: Option<(nat, nat)>)
    ensures span == SpanIndices(waves, target)
  {
    var q: nat := 0;
    while q < |waves|
      invariant q <= |waves| && FindEqual(waves, target, 0) == FindEqual(waves, target, q)
    {
      if waves[q] == target {
        return Some((q, q));
      }
      q := q + 1;
    }
    var startIdx: Option<nat> := None;
    var endIdx: Option<nat> := None;
    q := 0;
    while q < |waves|
      invariant q <= |waves|
      invariant startIdx.None? ==> FindStart(waves, target, 0) == FindStart(waves, target, q)
      invariant startIdx.Some? ==> FindStart(waves, target, 0) == startIdx.value < q
      invariant FindEnd(waves, target, q) == if endIdx.Some? then endIdx.value else |waves|
      invariant endIdx.Some? ==> endIdx.value < q
    {
      if startIdx.None? && StartsLike(waves, target, q) {
        startIdx := Some(q);
      }
      if EndsLike(waves, target, q) {
        endIdx := Some(q);
      }
      q := q + 1;
    }
    if startIdx.Some? && endIdx.Some? && startIdx.value <= endIdx.value {
      return Some((startIdx.value, endIdx.value));
    }
    return None;
  }

  lemma StartsDistinct(p: Params, h: seq<Bar>, waves: seq<Segment>, i: nat, j: nat)
    requires WaveList(p, h, waves) && i < |waves| && j < |waves|
    requires waves[i].startIdx == waves[j].startIdx || waves[i].endIdx == waves[j].endIdx
    ensures i == j
  {
    assert WaveOk(p, h, waves[i]) && WaveOk(p, h, waves[j]);
    if i < j {
      StartsOrdered(p, h, waves, i, j);
    } else if j < i {
      StartsOrdered(p, h, waves, j, i);
    }
  }

  /** The lookup finds every leg, merged ones included, exactly at the block it covers. */
  lemma SpanOfLeg(p: Params, h: seq<Bar>, waves: seq<Segment>, sign: Sign, l: Leg)
    requires WaveList(p, h, waves) && LegOk(p, h, waves, sign, l)
    ensures SpanIndices(waves, l.wave) == Some((l.first, l.idx))
  {
    var q := FindEqual(waves, l.wave, 0);
    if q < |waves| {
      StartsDistinct(p, h, waves, q, l.first);
      StartsDistinct(p, h, waves, q, l.idx);
    } else {
      assert StartsLike(waves, l.wave, l.first) && EndsLike(waves, l.wave, l.idx);
      StartsDistinct(p, h, waves, FindStart(waves, l.wave, 0), l.first);
      StartsDistinct(p, h, waves, FindEnd(waves, l.wave, |waves|), l.idx);
    }
  }

  lemma ShiftLeg(p: Params, h: seq<Bar>, waves: seq<Segment>, s: nat, sign: Sign, l: Leg)
    requires s <= |waves| && LegOk(p, h, waves[s..], sign, l)
    ensures LegOk(p, h, waves, sign, Leg(l.wave, s + l.first, s + l.idx))
  {
  }

  /** A leg found in a suffix is found in the full list too, shifted. */
  lemma SpanOfWindowLeg(p: Params, h: seq<Bar>, waves: seq<Segment>, s: nat, sign: Sign, l: Leg)
    requires WaveList(p, h, waves) && s <= |waves| && LegOk(p, h, waves[s..], sign, l)
    ensures SpanIndices(waves[s..], l.wave) == Some((l.first, l.idx))
    ensures SpanIndices(waves, l.wave) == Some((s + l.first, s + l.idx))
  {
    SuffixIsWaveList(p, h, waves, s);
    SpanOfLeg(p, h, waves[s..], sign, l);
    ShiftLeg(p, h, waves, s, sign, l);
    SpanOfLeg(p, h, waves, sign, Leg(l.wave, s + l.first, s + l.idx));
  }

  // ---------- candidates ----------

  /** Price on the bar of the histogram extreme. */
  function CandidatePrice(h: seq<Bar>, w: Segment): real
    requires w.extremeIdx < |h|
  {
    PriceOf(w.sign, h[w.extremeIdx])
  }

  ghost predicate ExtremesInside(h: seq<Bar>, legs: seq<Leg>) {
    forall i: nat {:trigger legs[i]} | i < |legs| :: legs[i].wave.extremeIdx < |h|
  }

  /** The latest leg's price beats this leg's. */
  predicate Behind(p: Params, h: seq<Bar>, sign: Sign, legs: seq<Leg>, i: nat)
    requires i < |legs| && ExtremesInside(h, legs)
  {
    BeatsBy(sign, CandidatePrice(h, legs[|legs| - 1].wave), CandidatePrice(h, legs[i].wave), p.priceEps)
  }

  /** Where the run of legs that the latest one beats begins, looking back from n. */
  function Boundary(p: Params, h: seq<Bar>, sign: Sign, legs: seq<Leg>, n: nat): (b: nat)
    requires n < |legs| && ExtremesInside(h, legs)
    ensures b <= n
    ensures forall i: nat {:trigger Behind(p, h, sign, legs, i)} | b <= i < n :: Behind(p, h, sign, legs, i)
    ensures b > 0 ==> !Behind(p, h, sign, legs, b - 1)
  {
    if n == 0 || !Behind(p, h, sign, legs, n - 1) then n else Boundary(p, h, sign, legs, n - 1)
  }

  function Candidates(p: Params, h: seq<Bar>, sign: Sign, legs: seq<Leg>): seq<Leg>
    requires ExtremesInside(h, legs)
  {
    if legs == [] then [] else legs[Boundary(p, h, sign, legs, |legs| - 1)..]
  }

  lemma LegsExtremesInside(p: Params, h: seq<Bar>, waves: seq<Segment>, sign: Sign, legs: seq<Leg>)
    requires LegsOk(p, h, waves, sign, legs)
    ensures ExtremesInside(h, legs)
  {
    forall i: nat | i < |legs|
      ensures legs[i].wave.extremeIdx < |h|
    {
      assert LegOk(p, h, waves, sign, legs[i]);
    }
  }

  lemma CandidatesOk(p: Params, h: seq<Bar>, waves: seq<Segment>, sign: Sign, legs: seq<Leg>)
    requires LegsOk(p, h, waves, sign, legs) && ExtremesInside(h, legs)
    ensures LegsOk(p, h, waves, sign, Candidates(p, h, sign, legs))
  {
    if legs != [] {
      LegsSuffix(p, h, waves, sign, legs, Boundary(p, h, sign, legs, |legs| - 1));
    }
  }

  /** The candidates of a wave list. */
  ghost function CandidatesOf(p: Params, h: seq<Bar>, waves: seq<Segment>, sign: Sign): (c: seq<Leg>)
    requires WaveList(p, h, waves)
    ensures LegsOk(p, h, waves, sign, c)
  {
    LatestLegsOk(p, h, waves, sign);
    var legs := LatestLegs(p, h, waves, sign);
    LegsExtremesInside(p, h, waves, sign, legs);
    CandidatesOk(p, h, waves, sign, legs);
    Candidates(p, h, sign, legs)
  }

  /** Looks back from the latest leg to the first one it does not go further than. */
  method FindBoundary(p: Params, h: seq<Bar>, sign: Sign, legs: seq<Leg>) returns (boundaryIdx: nat)
    requires legs != [] && ExtremesInside(h, legs)
    ensures boundaryIdx == Boundary(p, h, sign, legs, |legs| - 1)
  {
    boundaryIdx := 0;
    var i: nat := |legs| - 1;
    while i > 0
      invariant i < |legs| && boundaryIdx == 0
      invariant Boundary(p, h, sign, legs, |legs| - 1) == Boundary(p, h, sign, legs, i)
    {
      if !Behind(p, h, sign, legs, i - 1) {
        return i;
      }
      i := i - 1;
    }
  }

  method PriceDivergenceCandidates(p: Params, h: seq<Bar>, waves: seq<Segment>, sign: Sign) returns (c: seq<Leg>)
    requires WaveList(p, h, waves)
    ensures c == CandidatesOf(p, h, waves, sign)
  {
    var sameSign := LatestSameSignWaves(p, h, waves, sign);
    LatestLegsOk(p, h, waves, sign);
    LegsExtremesInside(p, h, waves, sign, sameSign);
    if sameSign == [] {
      return [];
    }
    var boundaryIdx := FindBoundary(p, h, sign, sameSign);
    c := sameSign[boundaryIdx..];
  }

  // ---------- the checks on three legs ----------

  predicate BeginsRun(waves: seq<Segment>, sign: Sign, a: nat, i: nat)
    requires a <= i < |waves|
  {
    waves[i].sign == sign && (i == a || waves[i - 1].sign != sign)
  }

  /** Positions in waves[a..b], both ends included, where a run of this sign begins. */
  function RunStarts(waves: seq<Segment>, sign: Sign, a: nat, b: nat): set<nat>
    requires b < |waves|
  {
    set i: nat | a <= i <= b && BeginsRun(waves, sign, a, i)
  }

  method SameSignSegmentCount(waves: seq<Segment>, sign: Sign, a: nat, b: nat) returns (count: nat)
    requires b < |waves|
    ensures count == |RunStarts(waves, sign, a, b)|
  {
    count := 0;
    var previousSameSign := false;
    var i: nat := a;
    ghost var seen: set<nat> := {};
    while i <= b
      invariant a <= i && (i <= b + 1 || i == a)
      invariant seen == set j: nat | a <= j < i && j <= b && BeginsRun(waves, sign, a, j)
      invariant count == |seen|
      invariant previousSameSign <==> i > a && waves[i - 1].sign == sign
    {
      var isSameSign := waves[i].sign == sign;
      if isSameSign && !previousSameSign {
        assert i !in seen;
        seen := seen + {i};
        count := count + 1;
      }
      previousSameSign := isSameSign;
      i := i + 1;
    }
    assert seen == RunStarts(waves, sign, a, b);
  }

  predicate OwnsAdjacentPriceProgression(
    p: Params, h: seq<Bar>, waves: seq<Segment>, sign: Sign, first: nat, wave: Segment)
    requires first < |waves| && InRange(h, wave) && (first > 0 ==> InRange(h, waves[first - 1]))
  {
    first == 0
    || BeatsBy(sign, DirectionalExtreme(h, sign, wave), DirectionalExtreme(h, sign, waves[first - 1]), p.priceEps)
  }

  /** Each leg's histogram extreme is smaller than the one before, and the price on it goes further. */
  predicate StructureOk(p: Params, h: seq<Bar>, sign: Sign, a: Segment, b: Segment, c: Segment)
    requires a.extremeIdx < |h| && b.extremeIdx < |h| && c.extremeIdx < |h|
  {
    && Abs(a.extremeVal) > Abs(b.extremeVal) + p.macdEps
    && Abs(b.extremeVal) > Abs(c.extremeVal) + p.macdEps
    && BeatsBy(sign, CandidatePrice(h, b), CandidatePrice(h, a), p.priceEps)
    && BeatsBy(sign, CandidatePrice(h, c), CandidatePrice(h, b), p.priceEps)
  }

  /** Best price from the start of the leg up to its histogram extreme. */
  function StructurePrice(h: seq<Bar>, w: Segment): real
    requires w.startIdx <= w.extremeIdx < |h|
  {
    BestPrice(h, w.sign, w.startIdx, w.extremeIdx)
  }

  /** A pivot of the leg: its extreme, or an inner bar no smaller, up to macdEps, than both neighbours. */
  predicate IsPivot(p: Params, h: seq<Bar>, w: Segment, i: nat)
    requires InRange(h, w)
  {
    || i == w.extremeIdx
    || (w.startIdx < i < w.endIdx
        && !BeatsBy(w.sign, h[i - 1].hist, h[i].hist, p.macdEps)
        && !BeatsBy(w.sign, h[i + 1].hist, h[i].hist, p.macdEps))
  }

  /** First bar of the stretch since the last pivot before n, or the start of the leg. */
  function SinceLastPivot(p: Params, h: seq<Bar>, w: Segment, n: nat): (s: nat)
    requires InRange(h, w) && w.startIdx <= n
    ensures w.startIdx <= s <= n
    ensures forall i: nat {:trigger IsPivot(p, h, w, i)} | s <= i < n :: !IsPivot(p, h, w, i)
    ensures s > w.startIdx ==> IsPivot(p, h, w, s - 1)
  {
    if n == w.startIdx || IsPivot(p, h, w, n - 1) then n else SinceLastPivot(p, h, w, n - 1)
  }

  function TriggerPriceExtreme(p: Params, h: seq<Bar>, w: Segment, trigger: nat): real
    requires InRange(h, w) && w.startIdx <= trigger < |h|
  {
    BestPrice(h, w.sign, SinceLastPivot(p, h, w, trigger), trigger)
  }

  predicate TriggerPriceOk(p: Params, h: seq<Bar>, sign: Sign, a: Segment, b: Segment, c: Segment, trigger: nat)
    requires a.startIdx <= a.extremeIdx < |h| && b.startIdx <= b.extremeIdx < |h|
    requires InRange(h, c) && c.startIdx <= trigger < |h|
  {
    && BeatsBy(sign, StructurePrice(h, b), StructurePrice(h, a), p.priceEps)
    && BeatsBy(sign, TriggerPriceExtreme(p, h, c, trigger), StructurePrice(h, b), p.priceEps)
  }

  lemma LegInside(p: Params, h: seq<Bar>, waves: seq<Segment>, sign: Sign, l: Leg)
    requires WaveList(p, h, waves) && LegOk(p, h, waves, sign, l)
    ensures InRange(h, l.wave) && l.wave.startIdx <= l.wave.extremeIdx <= l.wave.endIdx
    ensures l.first > 0 ==> InRange(h, waves[l.first - 1])
  {
    if l.first > 0 {
      assert WaveOk(p, h, waves[l.first - 1]);
    }
  }

  /** Three legs of a window pass every check. */
  ghost predicate Qualifies(
    p: Params, h: seq<Bar>, waves: seq<Segment>, sign: Sign, trigger: Option<nat>, a: Leg, b: Leg, c: Leg)
    requires WaveList(p, h, waves)
    requires LegOk(p, h, waves, sign, a) && LegOk(p, h, waves, sign, b) && LegOk(p, h, waves, sign, c)
    requires trigger.Some? ==> c.wave.startIdx <= trigger.value < |h|
  {
    LegInside(p, h, waves, sign, a);
    LegInside(p, h, waves, sign, b);
    LegInside(p, h, waves, sign, c);
    && |RunStarts(waves, sign, a.first, c.idx)| <= p.maxSameSignWaves
    && OwnsAdjacentPriceProgression(p, h, waves, sign, b.first, b.wave)
    && OwnsAdjacentPriceProgression(p, h, waves, sign, c.first, c.wave)
    && StructureOk(p, h, sign, a.wave, b.wave, c.wave)
    && (trigger.Some? ==> TriggerPriceOk(p, h, sign, a.wave, b.wave, c.wave, trigger.value))
  }

  /** No wave of the list starts after the trigger bar. */
  ghost predicate TriggerFits(h: seq<Bar>, waves: seq<Segment>, trigger: Option<nat>) {
    trigger.Some? ==>
      trigger.value < |h| && forall i: nat {:trigger waves[i]} | i < |waves| :: waves[i].startIdx <= trigger.value
  }

  lemma LastThree(p: Params, h: seq<Bar>, waves: seq<Segment>, sign: Sign, trigger: Option<nat>, c: seq<Leg>)
    requires WaveList(p, h, waves) && LegsOk(p, h, waves, sign, c) && |c| >= 3 && TriggerFits(h, waves, trigger)
    ensures LegOk(p, h, waves, sign, c[|c| - 3]) && LegOk(p, h, waves, sign, c[|c| - 2])
    ensures LegOk(p, h, waves, sign, c[|c| - 1])
    ensures c[|c| - 3].first <= c[|c| - 1].idx
    ensures trigger.Some? ==> c[|c| - 1].wave.startIdx <= trigger.value < |h|
  {
    LegsOrdered(p, h, waves, sign, c, |c| - 3, |c| - 1);
  }

  /** The last three candidates, when they qualify. */
  ghost function LastThreeIfOk(
    p: Params, h: seq<Bar>, waves: seq<Segment>, sign: Sign, trigger: Option<nat>, c: seq<Leg>): Option<seq<Leg>>
    requires WaveList(p, h, waves) && TriggerFits(h, waves, trigger) && LegsOk(p, h, waves, sign, c)
  {
    if |c| < 3 then None else
      LastThree(p, h, waves, sign, trigger, c);
      if Qualifies(p, h, waves, sign, trigger, c[|c| - 3], c[|c| - 2], c[|c| - 1]) then Some(c[|c| - 3..]) else None
  }

  /** The triplet of a window. */
  ghost function TripletOf(
    p: Params, h: seq<Bar>, waves: seq<Segment>, sign: Sign, trigger: Option<nat>): Option<seq<Leg>>
    requires WaveList(p, h, waves) && TriggerFits(h, waves, trigger)
  {
    LastThreeIfOk(p, h, waves, sign, trigger, CandidatesOf(p, h, waves, sign))
  }

  lemma SuffixTriggerFits(h: seq<Bar>, waves: seq<Segment>, trigger: Option<nat>, s: nat)
    requires s <= |waves| && TriggerFits(h, waves, trigger)
    ensures TriggerFits(h, waves[s..], trigger)
  {
  }

  /** What the search finds from position s on. */
  ghost function TripletFrom(
    p: Params, h: seq<Bar>, waves: seq<Segment>, sign: Sign, trigger: Option<nat>, s: nat): Option<seq<Leg>>
    requires WaveList(p, h, waves) && TriggerFits(h, waves, trigger) && s <= |waves|
  {
    SuffixIsWaveList(p, h, waves, s);
    SuffixTriggerFits(h, waves, trigger, s);
    TripletOf(p, h, waves[s..], sign, trigger)
  }

  /**
   Three ordered, disjoint waves of the sign, with strictly shrinking histogram extremes and prices that go
   strictly further; all three are found by the span lookup, in the window from s and in the full list.
   */
  ghost predicate SoundTriplet(
    p: Params, h: seq<Bar>, waves: seq<Segment>, s: nat, sign: Sign, a: Segment, b: Segment, c: Segment)
    requires s <= |waves|
  {
    && SoundLeg(p, h, waves, s, sign, a) && SoundLeg(p, h, waves, s, sign, b) && SoundLeg(p, h, waves, s, sign, c)
    && a.endIdx < b.startIdx && b.endIdx < c.startIdx
    && StructureOk(p, h, sign, a, b, c)
  }

  ghost predicate SoundLeg(p: Params, h: seq<Bar>, waves: seq<Segment>, s: nat, sign: Sign, w: Segment)
    requires s <= |waves|
  {
    && w.sign == sign
    && ExtremesOk(p, h, w)
    && SpanIndices(waves[s..], w).Some?
    && SpanIndices(waves, w) == Some((s + SpanIndices(waves[s..], w).value.0, s + SpanIndices(waves[s..], w).value.1))
  }

  lemma WindowLegSound(p: Params, h: seq<Bar>, waves: seq<Segment>, s: nat, sign: Sign, l: Leg)
    requires WaveList(p, h, waves) && s <= |waves| && LegOk(p, h, waves[s..], sign, l)
    ensures SoundLeg(p, h, waves, s, sign, l.wave)
  {
    SpanOfWindowLeg(p, h, waves, s, sign, l);
  }

  /** Every triplet the search can return is sound. */
  lemma TripletSound(p: Params, h: seq<Bar>, waves: seq<Segment>, sign: Sign, trigger: Option<nat>, s: nat)
    requires WaveList(p, h, waves) && TriggerFits(h, waves, trigger) && s <= |waves|
    requires TripletFrom(p, h, waves, sign, trigger, s).Some?
    ensures var t := TripletFrom(p, h, waves, sign, trigger, s).value;
            && |t| == 3
            && SoundTriplet(p, h, waves, s, sign, t[0].wave, t[1].wave, t[2].wave)
            && (trigger.Some? ==>
                  && t[2].wave.startIdx <= trigger.value < |h|
                  && TriggerPriceOk(p, h, sign, t[0].wave, t[1].wave, t[2].wave, trigger.value))
  {
    SuffixIsWaveList(p, h, waves, s);
    SuffixTriggerFits(h, waves, trigger, s);
    var c := CandidatesOf(p, h, waves[s..], sign);
    var n := |c| - 3;
    LastThree(p, h, waves[s..], sign, trigger, c);
    LegsOrdered(p, h, waves[s..], sign, c, n, n + 1);
    LegsOrdered(p, h, waves[s..], sign, c, n + 1, n + 2);
    WindowLegSound(p, h, waves, s, sign, c[n]);
    WindowLegSound(p, h, waves, s, sign, c[n + 1]);
    WindowLegSound(p, h, waves, s, sign, c[n + 2]);
  }

  /** The checks on three legs, with the span lookups the source performs; none of those can fail. */
  method CheckTriplet(
    p: Params, h: seq<Bar>, window: seq<Segment>, sign: Sign, trigger: Option<nat>, a: Leg, b: Leg, c: Leg)
    returns (ok: bool)
    requires WaveList(p, h, window)
    requires LegOk(p, h, window, sign, a) && LegOk(p, h, window, sign, b) && LegOk(p, h, window, sign, c)
    requires a.first <= c.idx
    requires trigger.Some? ==> c.wave.startIdx <= trigger.value < |h|
    ensures ok == Qualifies(p, h, window, sign, trigger, a, b, c)
  {
    LegInside(p, h, window, sign, a);
    LegInside(p, h, window, sign, b);
    LegInside(p, h, window, sign, c);
    SpanOfLeg(p, h, window, sign, a);
    SpanOfLeg(p, h, window, sign, b);
    SpanOfLeg(p, h, window, sign, c);
    var spanA := WaveSpanIndices(window, a.wave);
    var spanB := WaveSpanIndices(window, b.wave);
    var spanC := WaveSpanIndices(window, c.wave);
    var count := SameSignSegmentCount(window, sign, spanA.value.0, spanC.value.1);
    if count > p.maxSameSignWaves {
      return false;
    }
    if !OwnsAdjacentPriceProgression(p, h, window, sign, spanB.value.0, b.wave) {
      return false;
    }
    if !OwnsAdjacentPriceProgression(p, h, window, sign, spanC.value.0, c.wave) {
      return false;
    }
    if !StructureOk(p, h, sign, a.wave, b.wave, c.wave) {
      return false;
    }
    ok := trigger.None? || TriggerPriceOk(p, h, sign, a.wave, b.wave, c.wave, trigger.value);
  }

  method CheckLastThree(p: Params, h: seq<Bar>, window: seq<Segment>, sign: Sign, trigger: Option<nat>, c: seq<Leg>)
    returns (t: Option<seq<Leg>>)
    requires WaveList(p, h, window) && TriggerFits(h, window, trigger) && LegsOk(p, h, window, sign, c)
    ensures t == LastThreeIfOk(p, h, window, sign, trigger, c)
  {
    if |c| < 3 {
      return None;
    }
    LastThree(p, h, window, sign, trigger, c);
    var ok := CheckTriplet(p, h, window, sign, trigger, c[|c| - 3], c[|c| - 2], c[|c| - 1]);
    t := if ok then Some(c[|c| - 3..]) else None;
  }

  /** The checks of one window. */
  method CheckWindow(p: Params, h: seq<Bar>, window: seq<Segment>, sign: Sign, trigger: Option<nat>)
    returns (t: Option<seq<Leg>>)
    requires WaveList(p, h, window) && TriggerFits(h, window, trigger)
    ensures t == TripletOf(p, h, window, sign, trigger)
  {
    var candidates := PriceDivergenceCandidates(p, h, window, sign);
    t := CheckLastThree(p, h, window, sign, trigger, candidates);
  }

  /** What the search finds at each start; beyond the list there is nothing to find. */
  ghost function SearchAt(
    p: Params, h: seq<Bar>, waves: seq<Segment>, sign: Sign, trigger: Option<nat>): nat -> Option<seq<Leg>>
    requires WaveList(p, h, waves) && TriggerFits(h, waves, trigger)
  {
    (s: nat) => if s <= |waves| then TripletFrom(p, h, waves, sign, trigger, s) else None
  }

  /** The triplet of the shortest suffix of the waves that has one. */
  ghost function ShortestWindow(
    p: Params, h: seq<Bar>, waves: seq<Segment>, sign: Sign, trigger: Option<nat>): Option<Hit<seq<Leg>>>
    requires WaveList(p, h, waves) && TriggerFits(h, waves, trigger)
  {
    LastHit(SearchAt(p, h, waves, sign, trigger), |waves|)
  }

  ghost predicate SearchedAt(
    f: nat -> Option<seq<Leg>>, p: Params, h: seq<Bar>, waves: seq<Segment>, sign: Sign, trigger: Option<nat>, s: nat)
    requires WaveList(p, h, waves) && TriggerFits(h, waves, trigger) && s <= |waves|
  {
    f(s) == TripletFrom(p, h, waves, sign, trigger, s)
  }

  /** f is the search, for all that its loop needs to know. */
  ghost predicate IsSearch(
    f: nat -> Option<seq<Leg>>, p: Params, h: seq<Bar>, waves: seq<Segment>, sign: Sign, trigger: Option<nat>)
    requires WaveList(p, h, waves) && TriggerFits(h, waves, trigger)
  {
    forall s: nat {:trigger SearchedAt(f, p, h, waves, sign, trigger, s)} | s <= |waves| ::
      SearchedAt(f, p, h, waves, sign, trigger, s)
  }

  method TryStart(p: Params, h: seq<Bar>, waves: seq<Segment>, sign: Sign, trigger: Option<nat>, start: nat,
                  ghost f: nat -> Option<seq<Leg>>) returns (t: Option<seq<Leg>>)
    requires WaveList(p, h, waves) && TriggerFits(h, waves, trigger) && start <= |waves|
    requires IsSearch(f, p, h, waves, sign, trigger)
    ensures t == f(start)
  {
    SuffixIsWaveList(p, h, waves, start);
    SuffixTriggerFits(h, waves, trigger, start);
    t := CheckWindow(p, h, waves[start..], sign, trigger);
    assert SearchedAt(f, p, h, waves, sign, trigger, start);
  }

  /** Windows are tried from the shortest suffix of the waves to the whole list; the first that qualifies wins. */
  method SearchDown(p: Params, h: seq<Bar>, waves: seq<Segment>, sign: Sign, trigger: Option<nat>,
                    ghost f: nat -> Option<seq<Leg>>) returns (found: Option<Hit<seq<Leg>>>)
    requires WaveList(p, h, waves) && TriggerFits(h, waves, trigger)
    requires IsSearch(f, p, h, waves, sign, trigger)
    ensures found == LastHit(f, |waves|)
  {
    var start: nat := |waves|;
    while start > 0
      invariant start <= |waves|
      invariant LastHit(f, |waves|) == LastHit(f, start)
    {
      start := start - 1;
      var triplet := TryStart(p, h, waves, sign, trigger, start, f);
      if triplet.Some? {
        return Some(Hit(start, triplet.value));
      }
    }
    found := None;
  }

  method FindTriplet(p: Params, h: seq<Bar>, waves: seq<Segment>, sign: Sign, trigger: Option<nat>)
    returns (found: Option<Hit<seq<Leg>>>)
    requires WaveList(p, h, waves) && TriggerFits(h, waves, trigger)
    ensures found == ShortestWindow(p, h, waves, sign, trigger)
  {
    SearchAtIsSearch(p, h, waves, sign, trigger);
    found := SearchDown(p, h, waves, sign, trigger, SearchAt(p, h, waves, sign, trigger));
  }

  lemma SearchAtIsSearch(p: Params, h: seq<Bar>, waves: seq<Segment>, sign: Sign, trigger: Option<nat>)
    requires WaveList(p, h, waves) && TriggerFits(h, waves, trigger)
    ensures IsSearch(SearchAt(p, h, waves, sign, trigger), p, h, waves, sign, trigger)
  {
  }

  /** A hit of the search is a sound triplet of the window it was found in, and the trigger price fits it. */
  ghost predicate HitOk(
    p: Params, h: seq<Bar>, waves: seq<Segment>, sign: Sign, trigger: Option<nat>, hit: Hit<seq<Leg>>)
  {
    && hit.at < |waves|
    && |hit.value| == 3
    && SoundTriplet(p, h, waves, hit.at, sign, hit.value[0].wave, hit.value[1].wave, hit.value[2].wave)
    && (trigger.Some? ==>
          && hit.value[2].wave.startIdx <= trigger.value < |h|
          && TriggerPriceOk(p, h, sign, hit.value[0].wave, hit.value[1].wave, hit.value[2].wave, trigger.value))
  }

  lemma AnyHitOk(p: Params, h: seq<Bar>, waves: seq<Segment>, sign: Sign, trigger: Option<nat>, s: nat)
    requires WaveList(p, h, waves) && TriggerFits(h, waves, trigger) && s < |waves|
    requires SearchAt(p, h, waves, sign, trigger)(s).Some?
    ensures HitOk(p, h, waves, sign, trigger, Hit(s, SearchAt(p, h, waves, sign, trigger)(s).value))
  {
    TripletSound(p, h, waves, sign, trigger, s);
  }

  /** What the search finds is sound. */
  lemma FoundSound(p: Params, h: seq<Bar>, waves: seq<Segment>, sign: Sign, trigger: Option<nat>)
    requires WaveList(p, h, waves) && TriggerFits(h, waves, trigger)
    ensures var found := ShortestWindow(p, h, waves, sign, trigger);
            found.Some? ==> HitOk(p, h, waves, sign, trigger, found.value)
  {
    var found := LastHit(SearchAt(p, h, waves, sign, trigger), |waves|);
    if found.Some? {
      AnyHitOk(p, h, waves, sign, trigger, found.value.at);
    }
  }
}
