/** Cutting the histogram into waves. */
module Waves {
  import opened Common
  import opened Histogram
  import opened Segmentation

  datatype Segment = Segment(
    startIdx: nat,
    endIdx: nat,
    sign: Sign,
    extremeVal: real,
    extremeIdx: nat,
    priceExtreme: real,
    priceExtremeIdx: nat)

  /**
   The extremes a segment carries are the first best histogram bar and the first best price bar among the
   bars of its own sign.
   */
  ghost predicate ExtremesOk(p: Params, h: seq<Bar>, w: Segment) {
    && w.startIdx <= w.endIdx < |h|
    && IsFirstBest(p, h, Macd, w.sign, w.startIdx, w.endIdx + 1, w.extremeIdx)
    && w.extremeVal == h[w.extremeIdx].hist
    && IsFirstBest(p, h, Price, w.sign, w.startIdx, w.endIdx + 1, w.priceExtremeIdx)
    && w.priceExtreme == PriceOf(w.sign, h[w.priceExtremeIdx])
  }

  /** One wave: it opens on a bar of its sign, and every bar in it has that sign or is near zero. */
  ghost predicate WaveOk(p: Params, h: seq<Bar>, w: Segment) {
    && w.sign != Zero
    && ExtremesOk(p, h, w)
    && HasSign(p, h, w.startIdx, w.sign)
    && forall i: nat | w.startIdx <= i <= w.endIdx :: HasSign(p, h, i, w.sign) || HasSign(p, h, i, Zero)
  }

  /** Bar j is down to the noise ratio of bar e. */
  predicate Faded(p: Params, h: seq<Bar>, e: nat, j: nat)
    requires e < |h| && j < |h|
  {
    Abs(h[j].hist) <= Abs(h[e].hist) * p.noiseClusterRatio
  }

  /** Some bar after e and before i faded. */
  ghost predicate FadedSince(p: Params, h: seq<Bar>, e: nat, i: nat)
    requires e < i <= |h|
  {
    exists j: nat :: e < j < i && Faded(p, h, e, j)
  }

  /** Bar i grows again over the bar before it. */
  predicate ReExpands(p: Params, h: seq<Bar>, i: nat)
    requires 0 < i < |h|
  {
    Abs(h[i].hist) > Abs(h[i - 1].hist) + p.macdEps
  }

  /**
   Bar i opens a new wave when the current one opened at s: it is off zero and either flips the sign, or
   some bar since the running extreme of h[s..i] faded and bar i re-expands.
   */
  ghost predicate Splits(p: Params, h: seq<Bar>, s: nat, i: nat)
    requires s < i < |h|
  {
    var sign := GetSign(p, h[s].hist);
    && !HasSign(p, h, i, Zero)
    && (HasSign(p, h, i, sign) ==>
          && ReExpands(p, h, i)
          && exists e: nat :: IsFirstBest(p, h, Macd, sign, s, i, e) && FadedSince(p, h, e, i))
  }

  ghost function SplitRule(p: Params, h: seq<Bar>): (nat, nat) -> bool {
    (s: nat, i: nat) => s < i < |h| && Splits(p, h, s, i)
  }

  /** Well-formed, back to back waves; this much survives taking a suffix. */
  ghost predicate WaveList(p: Params, h: seq<Bar>, waves: seq<Segment>) {
    && (forall k: nat {:trigger WaveOk(p, h, waves[k])} | k < |waves| :: WaveOk(p, h, waves[k]))
    && (forall k: nat {:trigger Follows(waves, k)} | 0 < k < |waves| :: Follows(waves, k))
  }

  predicate Follows(waves: seq<Segment>, k: nat)
    requires 0 < k < |waves|
  {
    waves[k].startIdx == waves[k - 1].endIdx + 1
  }

  function Starts(waves: seq<Segment>): (starts: seq<nat>)
    ensures |starts| == |waves|
    ensures forall k: nat | k < |waves| :: starts[k] == waves[k].startIdx
  {
    seq(|waves|, k requires 0 <= k < |waves| => var n: nat := waves[k].startIdx; n)
  }

  ghost predicate AllNearZero(p: Params, h: seq<Bar>, lo: nat, hi: nat)
    requires hi <= |h|
  {
    forall i: nat | lo <= i < hi :: HasSign(p, h, i, Zero)
  }

  /** The waves of h[lo..hi]: back to back, from the first bar off zero to hi, cut exactly where Splits says. */
  ghost predicate IsWaveCut(p: Params, h: seq<Bar>, lo: nat, hi: nat, waves: seq<Segment>)
    requires lo <= hi <= |h|
  {
    if waves == [] then AllNearZero(p, h, lo, hi) else
      && WaveList(p, h, waves)
      && lo <= waves[0].startIdx <= |h|
      && AllNearZero(p, h, lo, waves[0].startIdx)
      && waves[|waves| - 1].endIdx == hi - 1
      && IsSegmentation(SplitRule(p, h), waves[0].startIdx, hi, Starts(waves))
  }

  /** Starts never go back along a wave list. */
  lemma {:induction false} StartsOrdered(p: Params, h: seq<Bar>, waves: seq<Segment>, i: nat, j: nat)
    requires WaveList(p, h, waves) && i < j < |waves|
    ensures waves[i].endIdx < waves[j].startIdx
    decreases j - i
  {
    assert Follows(waves, j) && WaveOk(p, h, waves[j - 1]);
    if i < j - 1 {
      StartsOrdered(p, h, waves, i, j - 1);
    }
  }

  lemma SuffixIsWaveList(p: Params, h: seq<Bar>, waves: seq<Segment>, s: nat)
    requires WaveList(p, h, waves) && s <= |waves|
    ensures WaveList(p, h, waves[s..])
  {
    var tail := waves[s..];
    forall k: nat | k < |tail|
      ensures WaveOk(p, h, tail[k])
    {
      assert WaveOk(p, h, waves[s + k]);
    }
    forall k: nat | 0 < k < |tail|
      ensures Follows(tail, k)
    {
      assert Follows(waves, s + k);
    }
  }

  /** In a wave, the extreme is the first bar of largest magnitude, near-zero bars included. */
  lemma ExtremeIsFirstLargest(p: Params, h: seq<Bar>, w: Segment, j: nat)
    requires WaveOk(p, h, w) && w.startIdx <= j <= w.endIdx
    ensures Abs(h[j].hist) <= Abs(w.extremeVal)
    ensures j < w.extremeIdx ==> Abs(h[j].hist) < Abs(w.extremeVal)
  {
    assert HasSign(p, h, w.startIdx, w.sign);
    assert HasSign(p, h, j, w.sign) || HasSign(p, h, j, Zero);
  }

  lemma SameSpanSameWave(p: Params, h: seq<Bar>, v: Segment, w: Segment)
    requires WaveOk(p, h, v) && WaveOk(p, h, w)
    requires v.startIdx == w.startIdx && v.endIdx == w.endIdx
    ensures v == w
  {
  }

  lemma OffZeroStart(p: Params, h: seq<Bar>, lo: nat, hi: nat, a: seq<Segment>)
    requires lo <= hi <= |h| && a != [] && IsWaveCut(p, h, lo, hi, a)
    ensures lo <= a[0].startIdx < hi && !HasSign(p, h, a[0].startIdx, Zero)
    ensures AllNearZero(p, h, lo, a[0].startIdx)
  {
    assert WaveOk(p, h, a[0]) && WaveOk(p, h, a[|a| - 1]);
    if |a| > 1 {
      StartsOrdered(p, h, a, 0, |a| - 1);
    }
  }

  /** The description of a cut leaves no freedom: it fixes the whole list of waves. */
  lemma CutUnique(p: Params, h: seq<Bar>, lo: nat, hi: nat, a: seq<Segment>, b: seq<Segment>)
    requires lo <= hi <= |h|
    requires IsWaveCut(p, h, lo, hi, a) && IsWaveCut(p, h, lo, hi, b)
    ensures a == b
  {
    if a != [] {
      OffZeroStart(p, h, lo, hi, a);
    }
    if b != [] {
      OffZeroStart(p, h, lo, hi, b);
    }
    if a != [] && b != [] {
      assert a[0].startIdx == b[0].startIdx;
      Unique(SplitRule(p, h), a[0].startIdx, hi, Starts(a), Starts(b));
      SameStartsSameWaves(p, h, a, b);
    }
  }

  lemma SameStartsSameWaves(p: Params, h: seq<Bar>, a: seq<Segment>, b: seq<Segment>)
    requires WaveList(p, h, a) && WaveList(p, h, b) && Starts(a) == Starts(b) && a != []
    requires a[|a| - 1].endIdx == b[|b| - 1].endIdx
    ensures a == b
  {
    assert |Starts(a)| == |a| && |Starts(b)| == |b|;
    forall k: nat | k < |a|
      ensures a[k] == b[k]
    {
      assert Starts(a)[k] == Starts(b)[k];
      if k + 1 < |a| {
        assert Starts(a)[k + 1] == Starts(b)[k + 1];
        assert Follows(a, k + 1) && Follows(b, k + 1);
      }
      assert WaveOk(p, h, a[k]) && WaveOk(p, h, b[k]);
      SameSpanSameWave(p, h, a[k], b[k]);
    }
  }

  function NewWave(p: Params, h: seq<Bar>, i: nat): Segment
    requires i < |h|
  {
    var sign := GetSign(p, h[i].hist);
    Segment(i, i, sign, h[i].hist, i, PriceOf(sign, h[i]), i)
  }

  function Lookback(p: Params, h: seq<Bar>): (n: nat)
    requires |h| > 0
    ensures n < |h|
  {
    if p.maxLookbackBars <= 0 then 0 else if p.maxLookbackBars < |h| - 1 then p.maxLookbackBars else |h| - 1
  }

  /** The wave after one more bar that stays in it. */
  function Absorb(p: Params, h: seq<Bar>, w: Segment, i: nat): Segment
    requires i < |h|
  {
    var bar := h[i];
    var v := w.(endIdx := i);
    if GetSign(p, bar.hist) == Zero then v else
      var u := if Beats(w.sign, bar.hist, w.extremeVal) then v.(extremeVal := bar.hist, extremeIdx := i) else v;
      if Beats(w.sign, PriceOf(w.sign, bar), w.priceExtreme)
      then u.(priceExtreme := PriceOf(w.sign, bar), priceExtremeIdx := i) else u
  }

  lemma NewWaveOk(p: Params, h: seq<Bar>, i: nat)
    requires i < |h| && !HasSign(p, h, i, Zero)
    ensures WaveOk(p, h, NewWave(p, h, i))
  {
  }

  lemma AbsorbOk(p: Params, h: seq<Bar>, w: Segment, i: nat)
    requires WaveOk(p, h, w) && w.endIdx + 1 == i < |h|
    requires HasSign(p, h, i, w.sign) || HasSign(p, h, i, Zero)
    ensures WaveOk(p, h, Absorb(p, h, w, i))
  {
  }

  lemma StaySegmentation(p: Params, h: seq<Bar>, i: nat, a: seq<nat>)
    requires i < |h| && a != [] && a[|a| - 1] < i
    requires IsSegmentation(SplitRule(p, h), a[0], i, a)
    requires !Splits(p, h, a[|a| - 1], i)
    ensures IsSegmentation(SplitRule(p, h), a[0], i + 1, a)
  {
    ExtendLast(SplitRule(p, h), a[0], i, a);
  }

  lemma OpenSegmentation(p: Params, h: seq<Bar>, i: nat, a: seq<nat>)
    requires i < |h| && a != [] && a[|a| - 1] < i
    requires IsSegmentation(SplitRule(p, h), a[0], i, a)
    requires Splits(p, h, a[|a| - 1], i)
    ensures IsSegmentation(SplitRule(p, h), a[0], i + 1, a + [i])
  {
    OpenNext(SplitRule(p, h), a[0], i, a);
  }

  lemma CutStay(p: Params, h: seq<Bar>, lo: nat, i: nat, done: seq<Segment>, w: Segment, v: Segment)
    requires lo <= i < |h| && w.startIdx < i && w.startIdx == v.startIdx && v.endIdx == i
    requires IsWaveCut(p, h, lo, i, done + [w])
    requires WaveOk(p, h, v)
    requires !Splits(p, h, w.startIdx, i)
    ensures IsWaveCut(p, h, lo, i + 1, done + [v])
  {
    assert Starts(done + [w]) == Starts(done + [v]);
    StaySegmentation(p, h, i, Starts(done + [w]));
    ReplaceLast(p, h, done, w, v);
  }

  lemma ReplaceLast(p: Params, h: seq<Bar>, done: seq<Segment>, w: Segment, v: Segment)
    requires WaveList(p, h, done + [w]) && WaveOk(p, h, v) && v.startIdx == w.startIdx
    ensures WaveList(p, h, done + [v])
  {
    var a := done + [w];
    var b := done + [v];
    forall k: nat | 0 < k < |b|
      ensures Follows(b, k)
    {
      assert Follows(a, k);
    }
    forall k: nat | k < |b|
      ensures WaveOk(p, h, b[k])
    {
      assert WaveOk(p, h, a[k]);
    }
  }

  lemma CutOpen(p: Params, h: seq<Bar>, lo: nat, i: nat, done: seq<Segment>, w: Segment, v: Segment)
    requires lo <= i < |h| && w.startIdx < i && w.endIdx + 1 == i && v.startIdx == v.endIdx == i
    requires IsWaveCut(p, h, lo, i, done + [w])
    requires WaveOk(p, h, v)
    requires Splits(p, h, w.startIdx, i)
    ensures IsWaveCut(p, h, lo, i + 1, done + [w] + [v])
  {
    assert Starts(done + [w] + [v]) == Starts(done + [w]) + [i];
    OpenSegmentation(p, h, i, Starts(done + [w]));
    AppendWave(p, h, done + [w], v);
  }

  lemma AppendWave(p: Params, h: seq<Bar>, a: seq<Segment>, v: Segment)
    requires WaveList(p, h, a) && WaveOk(p, h, v) && a != [] && v.startIdx == a[|a| - 1].endIdx + 1
    ensures WaveList(p, h, a + [v])
  {
    var b := a + [v];
    forall k: nat | 0 < k < |b|
      ensures Follows(b, k)
    {
      if k < |a| {
        assert Follows(a, k);
      }
    }
    forall k: nat | k < |b|
      ensures WaveOk(p, h, b[k])
    {
      if k < |a| {
        assert WaveOk(p, h, a[k]);
      }
    }
  }

  /** Where the pass stands: the waves closed so far, the running wave, and whether it is ready to split. */
  datatype Scan = Scan(closed: seq<Segment>, current: Option<Segment>, readySplit: bool)

  ghost predicate Scanned(p: Params, h: seq<Bar>, lo: nat, pos: nat, s: Scan)
    requires lo <= pos <= |h|
  {
    match s.current
    case None => s.closed == [] && AllNearZero(p, h, lo, pos)
    case Some(w) =>
      && WaveOk(p, h, w)
      && w.endIdx + 1 == pos
      && IsWaveCut(p, h, lo, pos, s.closed + [w])
      && (s.readySplit <==> FadedSince(p, h, w.extremeIdx, pos))
  }

  function OpensWave(p: Params, h: seq<Bar>, w: Segment, readySplit: bool, pos: nat): bool
    requires 0 < pos < |h|
  {
    var sign := GetSign(p, h[pos].hist);
    sign != Zero && (sign != w.sign || (readySplit && w.extremeIdx < pos && ReExpands(p, h, pos)))
  }

  /** One bar of the pass. */
  function Step(p: Params, h: seq<Bar>, s: Scan, pos: nat): Scan
    requires pos < |h| && (s.current.Some? ==> s.current.value.extremeIdx < pos)
  {
    match s.current
    case None => if GetSign(p, h[pos].hist) == Zero then s else Scan(s.closed, Some(NewWave(p, h, pos)), false)
    case Some(w) =>
      if OpensWave(p, h, w, s.readySplit, pos) then Scan(s.closed + [w], Some(NewWave(p, h, pos)), false) else
        var v := Absorb(p, h, w, pos);
        Scan(s.closed, Some(v), v.extremeIdx < pos && (s.readySplit || Faded(p, h, v.extremeIdx, pos)))
  }

  lemma StaysUnsplit(p: Params, h: seq<Bar>, w: Segment, readySplit: bool, pos: nat)
    requires WaveOk(p, h, w) && w.endIdx + 1 == pos < |h|
    requires readySplit <==> FadedSince(p, h, w.extremeIdx, pos)
    ensures Splits(p, h, w.startIdx, pos) <==> OpensWave(p, h, w, readySplit, pos)
  {
  }

  lemma StaysFaded(p: Params, h: seq<Bar>, w: Segment, readySplit: bool, pos: nat)
    requires w.extremeIdx <= w.endIdx && w.endIdx + 1 == pos < |h|
    requires readySplit <==> FadedSince(p, h, w.extremeIdx, pos)
    ensures var v := Absorb(p, h, w, pos);
            v.extremeIdx <= pos
            && (v.extremeIdx < pos && (readySplit || Faded(p, h, v.extremeIdx, pos))
                <==> FadedSince(p, h, v.extremeIdx, pos + 1))
  {
  }

  lemma StayKeepsCut(p: Params, h: seq<Bar>, lo: nat, pos: nat, closed: seq<Segment>, w: Segment, readySplit: bool)
    requires lo <= pos < |h| && WaveOk(p, h, w) && w.endIdx + 1 == pos
    requires IsWaveCut(p, h, lo, pos, closed + [w])
    requires readySplit <==> FadedSince(p, h, w.extremeIdx, pos)
    requires !OpensWave(p, h, w, readySplit, pos)
    ensures WaveOk(p, h, Absorb(p, h, w, pos))
    ensures IsWaveCut(p, h, lo, pos + 1, closed + [Absorb(p, h, w, pos)])
  {
    StaysUnsplit(p, h, w, readySplit, pos);
    AbsorbOk(p, h, w, pos);
    CutStay(p, h, lo, pos, closed, w, Absorb(p, h, w, pos));
  }

  lemma StepStays(p: Params, h: seq<Bar>, lo: nat, pos: nat, s: Scan)
    requires lo <= pos < |h| && Scanned(p, h, lo, pos, s) && s.current.Some?
    requires !OpensWave(p, h, s.current.value, s.readySplit, pos)
    ensures Scanned(p, h, lo, pos + 1, Step(p, h, s, pos))
  {
    var w := s.current.value;
    StayKeepsCut(p, h, lo, pos, s.closed, w, s.readySplit);
    StaysFaded(p, h, w, s.readySplit, pos);
    var v := Absorb(p, h, w, pos);
    var t := Step(p, h, s, pos);
    assert t.closed == s.closed && t.current == Some(v);
    assert v.endIdx == pos;
    assert t.readySplit <==> FadedSince(p, h, v.extremeIdx, pos + 1);
  }

  lemma StepOpens(p: Params, h: seq<Bar>, lo: nat, pos: nat, s: Scan)
    requires lo <= pos < |h| && Scanned(p, h, lo, pos, s) && s.current.Some?
    requires OpensWave(p, h, s.current.value, s.readySplit, pos)
    ensures Scanned(p, h, lo, pos + 1, Step(p, h, s, pos))
  {
    var w := s.current.value;
    StaysUnsplit(p, h, w, s.readySplit, pos);
    NewWaveOk(p, h, pos);
    CutOpen(p, h, lo, pos, s.closed, w, NewWave(p, h, pos));
  }

  lemma StepStarts(p: Params, h: seq<Bar>, lo: nat, pos: nat, s: Scan)
    requires lo <= pos < |h| && Scanned(p, h, lo, pos, s) && s.current.None?
    ensures Scanned(p, h, lo, pos + 1, Step(p, h, s, pos))
  {
  }

  lemma StepOk(p: Params, h: seq<Bar>, lo: nat, pos: nat, s: Scan)
    requires lo <= pos < |h| && Scanned(p, h, lo, pos, s)
    ensures s.current.Some? ==> s.current.value.extremeIdx < pos
    ensures Scanned(p, h, lo, pos + 1, Step(p, h, s, pos))
  {
    if s.current.None? {
      StepStarts(p, h, lo, pos, s);
    } else if OpensWave(p, h, s.current.value, s.readySplit, pos) {
      StepOpens(p, h, lo, pos, s);
    } else {
      StepStays(p, h, lo, pos, s);
    }
  }

  /** The body of the pass, as assignments to its three variables. */
  method ScanBar(p: Params, h: seq<Bar>, pos: nat, waves: seq<Segment>, current: Option<Segment>, readySplit: bool)
    returns (waves': seq<Segment>, current': Option<Segment>, readySplit': bool)
    requires pos < |h| && (current.Some? ==> current.value.extremeIdx < pos)
    ensures Scan(waves', current', readySplit') == Step(p, h, Scan(waves, current, readySplit), pos)
  {
    waves', current', readySplit' := waves, current, readySplit;
    var bar := h[pos];
    var sign := GetSign(p, bar.hist);
    if current.None? {
      if sign != Zero {
        current' := Some(NewWave(p, h, pos));
        readySplit' := false;
      }
      return;
    }
    var w := current.value;
    if sign != Zero && (sign != w.sign || (readySplit && w.extremeIdx < pos && ReExpands(p, h, pos))) {
      waves' := waves + [w];
      current' := Some(NewWave(p, h, pos));
      readySplit' := false;
      return;
    }
    w := w.(endIdx := pos);
    if sign != Zero {
      if Beats(w.sign, bar.hist, w.extremeVal) {
        w := w.(extremeVal := bar.hist, extremeIdx := pos);
        readySplit' := false;
      }
      if Beats(w.sign, PriceOf(w.sign, bar), w.priceExtreme) {
        w := w.(priceExtreme := PriceOf(w.sign, bar), priceExtremeIdx := pos);
      }
    }
    if w.extremeIdx < pos && Faded(p, h, w.extremeIdx, pos) {
      readySplit' := true;
    }
    current' := Some(w);
  }

  /**
   One pass over the recent bars before the current one. The list returned is the only one that fits
   the description (CutUnique).
   */
  method BuildRecentWaves(p: Params, h: seq<Bar>) returns (waves: seq<Segment>)
    ensures |h| < 3 ==> waves == []
    ensures |h| >= 3 ==> IsWaveCut(p, h, |h| - 1 - Lookback(p, h), |h| - 1, waves)
  {
    if |h| < 3 {
      return [];
    }
    var lo := |h| - 1 - Lookback(p, h);
    waves := [];
    var current: Option<Segment> := None;
    var readySplit := false;
    var pos: nat := lo;
    while pos < |h| - 1
      invariant lo <= pos <= |h| - 1
      invariant Scanned(p, h, lo, pos, Scan(waves, current, readySplit))
    {
      StepOk(p, h, lo, pos, Scan(waves, current, readySplit));
      waves, current, readySplit := ScanBar(p, h, pos, waves, current, readySplit);
      pos := pos + 1;
    }
    if current.Some? {
      waves := waves + [current.value];
    }
  }
}
