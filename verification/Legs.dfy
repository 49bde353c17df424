/** From waves to the legs of one sign: weak waves dropped, price progress enforced, split legs merged. */
module Legs {
  import opened Common
  import opened Histogram
  import opened Segmentation
  import opened Waves

  /**
   A leg and the block of waves it covers. The source keeps only the wave and its last position (idx); the
   first position is carried along here so that the block can be named.
   */
  datatype Leg = Leg(wave: Segment, first: nat, idx: nat)

  predicate InRange(h: seq<Bar>, w: Segment) {
    w.startIdx <= w.endIdx < |h|
  }

  /** Lowest low, or highest high, of h[lo..hi], both ends included. */
  function BestPrice(h: seq<Bar>, sign: Sign, lo: nat, hi: nat): (r: real)
    requires lo <= hi < |h|
    ensures forall i: nat | lo <= i <= hi :: !Beats(sign, PriceOf(sign, h[i]), r)
    ensures exists i: nat :: lo <= i <= hi && r == PriceOf(sign, h[i])
    decreases hi
  {
    if lo == hi then PriceOf(sign, h[hi]) else
      var b := BestPrice(h, sign, lo, hi - 1);
      if Beats(sign, PriceOf(sign, h[hi]), b) then PriceOf(sign, h[hi]) else b
  }

  lemma BestPriceWider(h: seq<Bar>, sign: Sign, lo: nat, hi: nat, lo': nat, hi': nat)
    requires lo' <= lo <= hi <= hi' < |h|
    ensures !Beats(sign, BestPrice(h, sign, lo, hi), BestPrice(h, sign, lo', hi'))
  {
  }

  function DirectionalExtreme(h: seq<Bar>, sign: Sign, w: Segment): real
    requires InRange(h, w)
  {
    BestPrice(h, sign, w.startIdx, w.endIdx)
  }

  predicate AdvancesPrice(p: Params, h: seq<Bar>, sign: Sign, previous: Segment, current: Segment)
    requires InRange(h, previous) && InRange(h, current)
  {
    BeatsBy(sign, DirectionalExtreme(h, sign, current), DirectionalExtreme(h, sign, previous), p.priceEps)
  }

  predicate ExtendsMacdExtreme(p: Params, sign: Sign, previous: Segment, current: Segment) {
    BeatsBy(sign, current.extremeVal, previous.extremeVal, p.macdEps)
  }

  predicate IsTinyOppositeSeparator(p: Params, separator: Segment, left: Segment, right: Segment) {
    && separator.sign != Zero
    && separator.sign != left.sign
    && Abs(separator.extremeVal) <= Min(Abs(left.extremeVal), Abs(right.extremeVal)) * p.noiseClusterRatio + p.macdEps
  }

  function Merge(left: Segment, right: Segment): Segment {
    var takesMacd := Beats(left.sign, right.extremeVal, left.extremeVal);
    var takesPrice := Beats(left.sign, right.priceExtreme, left.priceExtreme);
    Segment(
      left.startIdx, right.endIdx, left.sign,
      if takesMacd then right.extremeVal else left.extremeVal,
      if takesMacd then right.extremeIdx else left.extremeIdx,
      if takesPrice then right.priceExtreme else left.priceExtreme,
      if takesPrice then right.priceExtremeIdx else left.priceExtremeIdx)
  }

  /** A merged leg's extremes are the first best over everything it spans, the bars between the halves included. */
  lemma MergeExtremes(p: Params, h: seq<Bar>, left: Segment, right: Segment)
    requires ExtremesOk(p, h, left) && ExtremesOk(p, h, right)
    requires left.sign == right.sign && left.endIdx < right.startIdx
    requires forall k: nat | left.endIdx < k < right.startIdx :: !HasSign(p, h, k, left.sign)
    ensures ExtremesOk(p, h, Merge(left, right))
  {
    FirstBestJoin(p, h, Macd, left.sign, left.startIdx, left.endIdx + 1, right.startIdx, right.endIdx + 1,
                  left.extremeIdx, right.extremeIdx);
    FirstBestJoin(p, h, Price, left.sign, left.startIdx, left.endIdx + 1, right.startIdx, right.endIdx + 1,
                  left.priceExtremeIdx, right.priceExtremeIdx);
  }

  // ---------- weak waves ----------

  /** Too small next to the last wave kept. */
  predicate IsWeak(p: Params, previous: Segment, current: Segment) {
    Abs(previous.extremeVal) <= 0.0 || Abs(current.extremeVal) / Abs(previous.extremeVal) < p.weakWaveFilterRatio
  }

  /** The first and the latest position of a sign, |waves| when there is none. */
  function FirstOf(waves: seq<Segment>, sign: Sign, from: nat): (q: nat)
    requires from <= |waves|
    ensures from <= q <= |waves|
    ensures q < |waves| ==> waves[q].sign == sign
    ensures forall i: nat | from <= i < q :: waves[i].sign != sign
    decreases |waves| - from
  {
    if from == |waves| || waves[from].sign == sign then from else FirstOf(waves, sign, from + 1)
  }

  function LatestOf(waves: seq<Segment>, sign: Sign, n: nat): (q: nat)
    requires n <= |waves|
    ensures q == |waves| || (q < n && waves[q].sign == sign)
    ensures forall i: nat | i < n && (q == |waves| || q < i) :: waves[i].sign != sign
  {
    if n == 0 then |waves| else if waves[n - 1].sign == sign then n - 1 else LatestOf(waves, sign, n - 1)
  }

  /** A wave is kept after the one at s when it is the latest of its sign or not weak next to that one. */
  predicate KeepsAfter(p: Params, waves: seq<Segment>, sign: Sign, s: nat, q: nat) {
    && s < q < |waves|
    && waves[q].sign == sign
    && (q == LatestOf(waves, sign, |waves|) || !IsWeak(p, waves[s], waves[q]))
  }

  function KeepRule(p: Params, waves: seq<Segment>, sign: Sign): (nat, nat) -> bool {
    (s: nat, q: nat) => KeepsAfter(p, waves, sign, s, q)
  }

  /** Increasing positions of waves of one sign. */
  ghost predicate PositionsOk(waves: seq<Segment>, sign: Sign, ids: seq<nat>) {
    forall k: nat {:trigger PositionOk(waves, sign, ids, k)} | k < |ids| :: PositionOk(waves, sign, ids, k)
  }

  predicate PositionOk(waves: seq<Segment>, sign: Sign, ids: seq<nat>, k: nat)
    requires k < |ids|
  {
    ids[k] < |waves| && waves[ids[k]].sign == sign && (k > 0 ==> ids[k - 1] < ids[k])
  }

  lemma SegmentationPositions(p: Params, waves: seq<Segment>, sign: Sign, first: nat, r: seq<nat>)
    requires first == FirstOf(waves, sign, 0) < |waves|
    requires IsSegmentation(KeepRule(p, waves, sign), first, |waves|, r)
    ensures PositionsOk(waves, sign, r)
  {
    forall k: nat | k < |r|
      ensures PositionOk(waves, sign, r, k)
    {
      StartsBelow(KeepRule(p, waves, sign), first, |waves|, r, k);
      if k > 0 {
        assert OpensPiece(KeepRule(p, waves, sign), r, k);
      }
    }
  }

  /** Positions the filter keeps. */
  function Kept(p: Params, waves: seq<Segment>, sign: Sign): (r: seq<nat>)
    ensures PositionsOk(waves, sign, r)
  {
    var first := FirstOf(waves, sign, 0);
    var r := Greedy(KeepRule(p, waves, sign), first, |waves|);
    if first == |waves| then r else
      GreedyIsSegmentation(KeepRule(p, waves, sign), first, |waves|);
      SegmentationPositions(p, waves, sign, first, r);
      r
  }

  /**
   What the filter keeps: the first wave of the sign, and then, again and again, the next one that is not
   weak next to the wave kept before it, or is the latest. This fixes the list (Segmentation.Unique). The
   latest wave of the sign survives, whatever its size.
   */
  lemma KeptMeaning(p: Params, waves: seq<Segment>, sign: Sign)
    ensures var r := Kept(p, waves, sign);
            var first := FirstOf(waves, sign, 0);
            if first == |waves| then r == [] else
              && IsSegmentation(KeepRule(p, waves, sign), first, |waves|, r)
              && r[|r| - 1] == LatestOf(waves, sign, |waves|)
  {
    var first := FirstOf(waves, sign, 0);
    if first < |waves| {
      GreedyIsSegmentation(KeepRule(p, waves, sign), first, |waves|);
      LastKeptIsLatest(p, waves, sign, Kept(p, waves, sign));
    }
  }

  lemma LastKeptIsLatest(p: Params, waves: seq<Segment>, sign: Sign, r: seq<nat>)
    requires FirstOf(waves, sign, 0) < |waves| && PositionsOk(waves, sign, r)
    requires IsSegmentation(KeepRule(p, waves, sign), FirstOf(waves, sign, 0), |waves|, r)
    ensures r[|r| - 1] == LatestOf(waves, sign, |waves|)
  {
    var s := r[|r| - 1];
    var latest := LatestOf(waves, sign, |waves|);
    assert PositionOk(waves, sign, r, |r| - 1);
    assert s < latest < |waves| ==> InPiece(KeepRule(p, waves, sign), r, |r| - 1, latest);
  }

  /** One more position: a wave of the sign is kept when it is the first, the latest, or not weak next to the last. */
  lemma GreedyStep(p: Params, waves: seq<Segment>, sign: Sign, kept: seq<nat>, q: nat)
    requires q < |waves| && kept == Greedy(KeepRule(p, waves, sign), FirstOf(waves, sign, 0), q)
    ensures kept != [] ==> kept[|kept| - 1] < q
    ensures Greedy(KeepRule(p, waves, sign), FirstOf(waves, sign, 0), q + 1)
            == if waves[q].sign == sign
                  && (kept == [] || q == LatestOf(waves, sign, |waves|)
                      || !IsWeak(p, waves[kept[|kept| - 1]], waves[q]))
               then kept + [q] else kept
  {
  }

  method FilteredSameSignWaves(p: Params, waves: seq<Segment>, sign: Sign) returns (filtered: seq<nat>)
    ensures filtered == Kept(p, waves, sign)
  {
    var latest := LatestOf(waves, sign, |waves|);
    ghost var first := FirstOf(waves, sign, 0);
    filtered := [];
    var q: nat := 0;
    while q < |waves|
      invariant q <= |waves|
      invariant filtered == Greedy(KeepRule(p, waves, sign), first, q)
    {
      GreedyStep(p, waves, sign, filtered, q);
      if waves[q].sign == sign {
        if filtered == [] {
          filtered := [q];
        } else if q == latest || !IsWeak(p, waves[filtered[|filtered| - 1]], waves[q]) {
          filtered := filtered + [q];
        }
      }
      q := q + 1;
    }
  }

  // ---------- legs ----------

  /** A well-formed leg over waves[first..idx]. */
  ghost predicate LegOk(p: Params, h: seq<Bar>, waves: seq<Segment>, sign: Sign, l: Leg) {
    && l.first <= l.idx < |waves|
    && l.wave.sign == sign
    && waves[l.first].sign == sign
    && waves[l.idx].sign == sign
    && l.wave.startIdx == waves[l.first].startIdx
    && l.wave.endIdx == waves[l.idx].endIdx
    && (l.first == l.idx ==> l.wave == waves[l.idx])
    && ExtremesOk(p, h, l.wave)
  }

  /**
   Successive legs are apart; when they are neighbours, or troughs with only a tiny opposite wave between
   them, the later one strictly advances the price.
   */
  ghost predicate PairOk(p: Params, h: seq<Bar>, waves: seq<Segment>, sign: Sign, a: Leg, b: Leg)
    requires InRange(h, a.wave) && InRange(h, b.wave) && b.first < |waves|
  {
    && a.idx < b.first
    && (b.first == a.idx + 1 || (sign == Negative && b.first == a.idx + 2
                                 && IsTinyOppositeSeparator(p, waves[a.idx + 1], a.wave, waves[b.first]))
        ==> AdvancesPrice(p, h, sign, a.wave, b.wave))
  }

  ghost predicate LegsOk(p: Params, h: seq<Bar>, waves: seq<Segment>, sign: Sign, legs: seq<Leg>) {
    && (forall i: nat {:trigger LegOk(p, h, waves, sign, legs[i])} | i < |legs| :: LegOk(p, h, waves, sign, legs[i]))
    && (forall i: nat {:trigger NextOk(p, h, waves, sign, legs, i)} | 0 < i < |legs| ::
          NextOk(p, h, waves, sign, legs, i))
  }

  ghost predicate NextOk(p: Params, h: seq<Bar>, waves: seq<Segment>, sign: Sign, legs: seq<Leg>, i: nat)
    requires 0 < i < |legs|
  {
    && InRange(h, legs[i - 1].wave)
    && InRange(h, legs[i].wave)
    && legs[i].first < |waves|
    && PairOk(p, h, waves, sign, legs[i - 1], legs[i])
  }

  /** A wave that has just been met, as a leg of its own. */
  function Single(waves: seq<Segment>, idx: nat): Leg
    requires idx < |waves|
  {
    Leg(waves[idx], idx, idx)
  }

  /** What one more wave does to the legs: nothing, a leg of its own, or growth of the last leg. */
  datatype Move = Skip | Append | Grow

  /** The leg ends where the wave at its last position does. */
  predicate Anchored(h: seq<Bar>, waves: seq<Segment>, l: Leg) {
    InRange(h, l.wave) && l.idx < |waves| && l.wave.endIdx == waves[l.idx].endIdx
  }

  function MoveFor(p: Params, h: seq<Bar>, waves: seq<Segment>, sign: Sign, previous: Leg, idx: nat): Move
    requires idx < |waves| && WaveList(p, h, waves) && InRange(h, previous.wave) && previous.idx < idx
  {
    var wave := waves[idx];
    assert WaveOk(p, h, wave) && WaveOk(p, h, waves[previous.idx + 1]);
    if idx == previous.idx + 1 then
      if AdvancesPrice(p, h, sign, previous.wave, wave) then Append else Skip
    else if sign == Negative && idx == previous.idx + 2
            && IsTinyOppositeSeparator(p, waves[previous.idx + 1], previous.wave, wave) then
      if !AdvancesPrice(p, h, sign, previous.wave, wave) then Skip
      else if ExtendsMacdExtreme(p, sign, previous.wave, wave)
              && AdvancesPrice(p, h, sign, waves[previous.idx + 1], wave) then Grow
      else Append
    else Append
  }

  function Grown(waves: seq<Segment>, previous: Leg, idx: nat): Leg
    requires idx < |waves|
  {
    Leg(Merge(previous.wave, waves[idx]), previous.first, idx)
  }

  /** The legs after one more wave, at position idx. */
  function NextLegs(p: Params, h: seq<Bar>, waves: seq<Segment>, sign: Sign, legs: seq<Leg>, idx: nat): (next: seq<Leg>)
    requires idx < |waves| && WaveList(p, h, waves)
    requires legs != [] ==> Anchored(h, waves, legs[|legs| - 1]) && legs[|legs| - 1].idx < idx
    ensures next != [] && Anchored(h, waves, next[|next| - 1]) && next[|next| - 1].idx <= idx
  {
    assert WaveOk(p, h, waves[idx]);
    if legs == [] then [Single(waves, idx)] else
      var previous := legs[|legs| - 1];
      match MoveFor(p, h, waves, sign, previous, idx)
      case Skip => legs
      case Append => legs + [Single(waves, idx)]
      case Grow =>
        StartsOrdered(p, h, waves, previous.idx, idx);
        legs[..|legs| - 1] + [Grown(waves, previous, idx)]
  }

  lemma SingleOk(p: Params, h: seq<Bar>, waves: seq<Segment>, sign: Sign, idx: nat)
    requires WaveList(p, h, waves) && idx < |waves| && waves[idx].sign == sign
    ensures LegOk(p, h, waves, sign, Single(waves, idx))
  {
    assert WaveOk(p, h, waves[idx]);
  }

  lemma MergedOk(p: Params, h: seq<Bar>, waves: seq<Segment>, sign: Sign, a: Leg, idx: nat)
    requires WaveList(p, h, waves) && idx < |waves| && waves[idx].sign == sign
    requires LegOk(p, h, waves, sign, a) && idx == a.idx + 2
    requires waves[a.idx + 1].sign != sign
    ensures LegOk(p, h, waves, sign, Leg(Merge(a.wave, waves[idx]), a.first, idx))
    ensures ExtremesOk(p, h, waves[idx])
  {
    var between := waves[a.idx + 1];
    assert WaveOk(p, h, between) && WaveOk(p, h, waves[idx]);
    assert Follows(waves, a.idx + 1) && Follows(waves, idx);
    forall k: nat | a.wave.endIdx < k < waves[idx].startIdx
      ensures !HasSign(p, h, k, sign)
    {
      assert HasSign(p, h, k, between.sign) || HasSign(p, h, k, Zero);
    }
    MergeExtremes(p, h, a.wave, waves[idx]);
  }

  lemma AppendLeg(p: Params, h: seq<Bar>, waves: seq<Segment>, sign: Sign, legs: seq<Leg>, l: Leg)
    requires LegsOk(p, h, waves, sign, legs) && LegOk(p, h, waves, sign, l)
    requires legs != [] ==> InRange(h, legs[|legs| - 1].wave) && PairOk(p, h, waves, sign, legs[|legs| - 1], l)
    ensures LegsOk(p, h, waves, sign, legs + [l])
  {
    var all := legs + [l];
    forall i: nat | i < |all|
      ensures LegOk(p, h, waves, sign, all[i])
    {
      if i < |legs| {
        assert LegOk(p, h, waves, sign, legs[i]);
      }
    }
    forall i: nat | 0 < i < |all|
      ensures NextOk(p, h, waves, sign, all, i)
    {
      if i < |legs| {
        assert NextOk(p, h, waves, sign, legs, i);
      }
    }
  }

  /** Growing a leg to the right keeps what it owed to the leg before it. */
  lemma GrownPairOk(p: Params, h: seq<Bar>, waves: seq<Segment>, sign: Sign, a: Leg, b: Leg, c: Leg)
    requires LegOk(p, h, waves, sign, a) && LegOk(p, h, waves, sign, b) && LegOk(p, h, waves, sign, c)
    requires PairOk(p, h, waves, sign, a, b)
    requires c.first == b.first && c.wave.startIdx == b.wave.startIdx && b.wave.endIdx <= c.wave.endIdx
    ensures PairOk(p, h, waves, sign, a, c)
  {
    BestPriceWider(h, sign, b.wave.startIdx, b.wave.endIdx, c.wave.startIdx, c.wave.endIdx);
  }

  lemma DropLastLeg(p: Params, h: seq<Bar>, waves: seq<Segment>, sign: Sign, legs: seq<Leg>)
    requires LegsOk(p, h, waves, sign, legs) && legs != []
    ensures LegsOk(p, h, waves, sign, legs[..|legs| - 1])
  {
    var front := legs[..|legs| - 1];
    forall i: nat | i < |front|
      ensures LegOk(p, h, waves, sign, front[i])
    {
      assert LegOk(p, h, waves, sign, legs[i]);
    }
    forall i: nat | 0 < i < |front|
      ensures NextOk(p, h, waves, sign, front, i)
    {
      assert NextOk(p, h, waves, sign, legs, i);
    }
  }

  lemma AppendedPairOk(p: Params, h: seq<Bar>, waves: seq<Segment>, sign: Sign, a: Leg, idx: nat)
    requires WaveList(p, h, waves) && idx < |waves| && waves[idx].sign == sign
    requires LegOk(p, h, waves, sign, a) && a.idx < idx
    requires MoveFor(p, h, waves, sign, a, idx) == Append
    ensures InRange(h, waves[idx]) && PairOk(p, h, waves, sign, a, Single(waves, idx))
  {
    assert WaveOk(p, h, waves[idx]);
  }

  lemma GrownNextOk(p: Params, h: seq<Bar>, waves: seq<Segment>, sign: Sign, legs: seq<Leg>, idx: nat)
    requires WaveList(p, h, waves) && idx < |waves|
    requires LegsOk(p, h, waves, sign, legs) && |legs| > 1 && legs[|legs| - 1].idx < idx
    requires LegOk(p, h, waves, sign, Grown(waves, legs[|legs| - 1], idx))
    ensures LegOk(p, h, waves, sign, legs[|legs| - 2])
    ensures PairOk(p, h, waves, sign, legs[|legs| - 2], Grown(waves, legs[|legs| - 1], idx))
  {
    var previous := legs[|legs| - 1];
    assert LegOk(p, h, waves, sign, previous) && LegOk(p, h, waves, sign, legs[|legs| - 2]);
    assert NextOk(p, h, waves, sign, legs, |legs| - 1);
    assert WaveOk(p, h, waves[idx]);
    StartsOrdered(p, h, waves, previous.idx, idx);
    GrownPairOk(p, h, waves, sign, legs[|legs| - 2], previous, Grown(waves, previous, idx));
  }

  lemma GrowLastLeg(p: Params, h: seq<Bar>, waves: seq<Segment>, sign: Sign, legs: seq<Leg>, idx: nat)
    requires WaveList(p, h, waves) && idx < |waves| && waves[idx].sign == sign
    requires LegsOk(p, h, waves, sign, legs) && legs != []
    requires idx == legs[|legs| - 1].idx + 2 && waves[idx - 1].sign != sign
    ensures LegsOk(p, h, waves, sign, legs[..|legs| - 1] + [Grown(waves, legs[|legs| - 1], idx)])
  {
    assert LegOk(p, h, waves, sign, legs[|legs| - 1]);
    MergedOk(p, h, waves, sign, legs[|legs| - 1], idx);
    DropLastLeg(p, h, waves, sign, legs);
    if |legs| > 1 {
      GrownNextOk(p, h, waves, sign, legs, idx);
    }
    AppendLeg(p, h, waves, sign, legs[..|legs| - 1], Grown(waves, legs[|legs| - 1], idx));
  }

  lemma NextLegsOk(p: Params, h: seq<Bar>, waves: seq<Segment>, sign: Sign, legs: seq<Leg>, idx: nat)
    requires WaveList(p, h, waves) && idx < |waves| && waves[idx].sign == sign
    requires LegsOk(p, h, waves, sign, legs)
    requires legs != [] ==> Anchored(h, waves, legs[|legs| - 1]) && legs[|legs| - 1].idx < idx
    ensures LegsOk(p, h, waves, sign, NextLegs(p, h, waves, sign, legs, idx))
  {
    if legs == [] {
      SingleOk(p, h, waves, sign, idx);
      AppendLeg(p, h, waves, sign, legs, Single(waves, idx));
      assert legs + [Single(waves, idx)] == [Single(waves, idx)];
    } else {
      var previous := legs[|legs| - 1];
      match MoveFor(p, h, waves, sign, previous, idx)
      case Skip =>
      case Append =>
        assert LegOk(p, h, waves, sign, previous);
        SingleOk(p, h, waves, sign, idx);
        AppendedPairOk(p, h, waves, sign, previous, idx);
        AppendLeg(p, h, waves, sign, legs, Single(waves, idx));
      case Grow =>
        assert LegOk(p, h, waves, sign, previous);
        GrowLastLeg(p, h, waves, sign, legs, idx);
    }
  }

  /** The legs after the first k of the given positions. */
  function LegsUpTo(p: Params, h: seq<Bar>, waves: seq<Segment>, sign: Sign, ids: seq<nat>, k: nat): (legs: seq<Leg>)
    requires WaveList(p, h, waves) && PositionsOk(waves, sign, ids) && k <= |ids|
    ensures legs == [] <==> k == 0
    ensures k > 0 ==> Anchored(h, waves, legs[|legs| - 1]) && legs[|legs| - 1].idx <= ids[k - 1]
    decreases k
  {
    if k == 0 then [] else
      assert PositionOk(waves, sign, ids, k - 1);
      NextLegs(p, h, waves, sign, LegsUpTo(p, h, waves, sign, ids, k - 1), ids[k - 1])
  }

  lemma LegsStep(p: Params, h: seq<Bar>, waves: seq<Segment>, sign: Sign, ids: seq<nat>, k: nat)
    requires WaveList(p, h, waves) && PositionsOk(waves, sign, ids) && k < |ids|
    ensures ids[k] < |waves|
    ensures var legs := LegsUpTo(p, h, waves, sign, ids, k);
            && (legs != [] ==> Anchored(h, waves, legs[|legs| - 1]) && legs[|legs| - 1].idx < ids[k])
            && LegsUpTo(p, h, waves, sign, ids, k + 1) == NextLegs(p, h, waves, sign, legs, ids[k])
  {
    assert PositionOk(waves, sign, ids, k);
  }

  lemma {:induction false} LegsUpToOk(p: Params, h: seq<Bar>, waves: seq<Segment>, sign: Sign, ids: seq<nat>, k: nat)
    requires WaveList(p, h, waves) && PositionsOk(waves, sign, ids) && k <= |ids|
    ensures LegsOk(p, h, waves, sign, LegsUpTo(p, h, waves, sign, ids, k))
  {
    if k > 0 {
      LegsUpToOk(p, h, waves, sign, ids, k - 1);
      assert PositionOk(waves, sign, ids, k - 1);
      NextLegsOk(p, h, waves, sign, LegsUpTo(p, h, waves, sign, ids, k - 1), ids[k - 1]);
    }
  }

  /** The last n elements as the source slices them: everything for n = 0, all but the first -n for n < 0. */
  function LastOnes<T>(s: seq<T>, n: int): (r: seq<T>)
    ensures |r| <= |s| && r == s[|s| - |r|..]
    ensures n > 0 ==> |r| == if n < |s| then n else |s|
  {
    if n > 0 then (if n < |s| then s[|s| - n..] else s)
    else if n == 0 || -n > |s| then (if n == 0 then s else []) else s[-n..]
  }

  function LatestLegs(p: Params, h: seq<Bar>, waves: seq<Segment>, sign: Sign): seq<Leg>
    requires WaveList(p, h, waves)
  {
    var ids := Kept(p, waves, sign);
    LastOnes(LegsUpTo(p, h, waves, sign, ids, |ids|), p.maxSameSignWaves)
  }

  lemma LegsSuffix(p: Params, h: seq<Bar>, waves: seq<Segment>, sign: Sign, legs: seq<Leg>, s: nat)
    requires LegsOk(p, h, waves, sign, legs) && s <= |legs|
    ensures LegsOk(p, h, waves, sign, legs[s..])
  {
    var tail := legs[s..];
    forall i: nat | i < |tail|
      ensures LegOk(p, h, waves, sign, tail[i])
    {
      assert LegOk(p, h, waves, sign, legs[s + i]);
    }
    forall i: nat | 0 < i < |tail|
      ensures NextOk(p, h, waves, sign, tail, i)
    {
      assert NextOk(p, h, waves, sign, legs, s + i);
    }
  }

  /** Every leg the search works with is well formed, and successive ones are ordered, apart and price-advancing. */
  lemma LatestLegsOk(p: Params, h: seq<Bar>, waves: seq<Segment>, sign: Sign)
    requires WaveList(p, h, waves)
    ensures LegsOk(p, h, waves, sign, LatestLegs(p, h, waves, sign))
  {
    var ids := Kept(p, waves, sign);
    var legs := LegsUpTo(p, h, waves, sign, ids, |ids|);
    LegsUpToOk(p, h, waves, sign, ids, |ids|);
    LegsSuffix(p, h, waves, sign, legs, |legs| - |LatestLegs(p, h, waves, sign)|);
  }

  lemma {:induction false} LegsOrdered(
    p: Params, h: seq<Bar>, waves: seq<Segment>, sign: Sign, legs: seq<Leg>, i: nat, j: nat)
    requires LegsOk(p, h, waves, sign, legs) && WaveList(p, h, waves) && i < j < |legs|
    ensures legs[i].idx < legs[j].first && legs[i].wave.endIdx < legs[j].wave.startIdx
    decreases j - i
  {
    assert NextOk(p, h, waves, sign, legs, j);
    assert LegOk(p, h, waves, sign, legs[j - 1]) && LegOk(p, h, waves, sign, legs[j]);
    assert LegOk(p, h, waves, sign, legs[i]);
    if i < j - 1 {
      LegsOrdered(p, h, waves, sign, legs, i, j - 1);
    }
    StartsOrdered(p, h, waves, legs[i].idx, legs[j].first);
  }

  /** The loop body of LatestSameSignWaves: one more kept wave. */
  method AddWave(p: Params, h: seq<Bar>, waves: seq<Segment>, sign: Sign, effective: seq<Leg>, idx: nat)
    returns (effective': seq<Leg>)
    requires idx < |waves| && WaveList(p, h, waves)
    requires effective != [] ==> Anchored(h, waves, effective[|effective| - 1]) && effective[|effective| - 1].idx < idx
    ensures effective' == NextLegs(p, h, waves, sign, effective, idx)
  {
    effective' := effective;
    var wave := waves[idx];
    assert WaveOk(p, h, wave);
    if effective == [] {
      return [Leg(wave, idx, idx)];
    }
    var previous := effective[|effective| - 1];
    if idx == previous.idx + 1 {
      if AdvancesPrice(p, h, sign, previous.wave, wave) {
        effective' := effective + [Leg(wave, idx, idx)];
      }
      return;
    }
    if sign == Negative && idx == previous.idx + 2 {
      var separator := waves[previous.idx + 1];
      assert WaveOk(p, h, separator);
      if IsTinyOppositeSeparator(p, separator, previous.wave, wave) {
        if !AdvancesPrice(p, h, sign, previous.wave, wave) {
          return;
        }
        if ExtendsMacdExtreme(p, sign, previous.wave, wave) && AdvancesPrice(p, h, sign, separator, wave) {
          effective' := effective[|effective| - 1 := Leg(Merge(previous.wave, wave), previous.first, idx)];
          return;
        }
      }
    }
    effective' := effective + [Leg(wave, idx, idx)];
  }

  method AddKept(p: Params, h: seq<Bar>, waves: seq<Segment>, sign: Sign, ids: seq<nat>, k: nat, effective: seq<Leg>)
    returns (effective': seq<Leg>)
    requires WaveList(p, h, waves) && PositionsOk(waves, sign, ids) && k < |ids|
    requires effective == LegsUpTo(p, h, waves, sign, ids, k)
    ensures effective' == LegsUpTo(p, h, waves, sign, ids, k + 1)
  {
    LegsStep(p, h, waves, sign, ids, k);
    effective' := AddWave(p, h, waves, sign, effective, ids[k]);
  }

  method EffectiveLegs(p: Params, h: seq<Bar>, waves: seq<Segment>, sign: Sign, sameSign: seq<nat>)
    returns (effective: seq<Leg>)
    requires WaveList(p, h, waves) && PositionsOk(waves, sign, sameSign)
    ensures effective == LegsUpTo(p, h, waves, sign, sameSign, |sameSign|)
  {
    effective := [];
    var k: nat := 0;
    while k < |sameSign|
      invariant k <= |sameSign|
      invariant effective == LegsUpTo(p, h, waves, sign, sameSign, k)
    {
      effective := AddKept(p, h, waves, sign, sameSign, k, effective);
      k := k + 1;
    }
  }

  method LatestSameSignWaves(p: Params, h: seq<Bar>, waves: seq<Segment>, sign: Sign) returns (legs: seq<Leg>)
    requires WaveList(p, h, waves)
    ensures legs == LatestLegs(p, h, waves, sign)
  {
    var sameSign := FilteredSameSignWaves(p, waves, sign);
    var effective := EffectiveLegs(p, h, waves, sign, sameSign);
    legs := LastOnes(effective, p.maxSameSignWaves);
  }
}
