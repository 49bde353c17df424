/**
 A history on which the detector, under any negative macd_eps and the strategy's other defaults, signals one
 structure twice although the price has not gone further.
 */
module RepeatedSignal {
  import opened Common
  import opened Histogram
  import opened Segmentation
  import opened Waves
  import opened Legs
  import opened Search
  import opened Triplets
  import opened Detector

  function Defaults(macdEps: real): Params {
    Params(0.1, 0.11, 0.1, 0.0001, 0.0, macdEps, 200, 5)
  }

  function HistAt(k: nat): real {
    if k == 0 then -1100.0
    else if k == 2 then -1000.0
    else if k == 4 then -109.0
    else if k == 6 then -108.0
    else if k < 8 then 1000.0
    else -102.0
  }

  function LowAt(k: nat): real {
    if k == 0 then 100.0
    else if k == 2 then 90.0
    else if k == 4 then 80.0
    else if k == 6 then 70.0
    else if k < 8 then 200.0
    else if k == 8 then 10.0
    else if k == 9 then 75.0
    else 20.0
  }

  /** Flat bars, then five troughs, ever smaller and at ever lower prices; only the last is longer than a bar. */
  function BarAt(lead: nat, i: nat): Bar {
    if i < lead then Bar(0.0, 0.0, 0.0) else Bar(HistAt(i - lead), 300.0, LowAt(i - lead))
  }

  function History(lead: nat, n: nat): (h: seq<Bar>)
    ensures |h| == n && forall i :: 0 <= i < n ==> h[i] == BarAt(lead, i)
  {
    seq(n, i requires 0 <= i < n => BarAt(lead, i))
  }

  /** The lengths of history the three checks see. */
  predicate Covers(lead: nat, n: nat) {
    lead + 10 <= n <= lead + 12
  }

  // ---- The waves ----

  /** Wave k of the bars before the current one; the last trough grows with the history. */
  function WaveAt(lead: nat, n: nat, k: nat): Segment
    requires k <= 8 && Covers(lead, n)
  {
    if k == 8 then Segment(lead + 8, n - 2, Negative, -102.0, lead + 8, 10.0, lead + 8)
    else if k % 2 == 0 then Segment(lead + k, lead + k, Negative, HistAt(k), lead + k, LowAt(k), lead + k)
    else Segment(lead + k, lead + k, Positive, HistAt(k), lead + k, 300.0, lead + k)
  }

  function Cut(lead: nat, n: nat): (w: seq<Segment>)
    requires Covers(lead, n)
    ensures |w| == 9 && forall k :: 0 <= k < 9 ==> w[k] == WaveAt(lead, n, k)
  {
    seq(9, k requires 0 <= k < 9 => WaveAt(lead, n, k))
  }

  lemma WaveAtOk(macdEps: real, lead: nat, n: nat, k: nat)
    requires Covers(lead, n) && k <= 8
    ensures WaveOk(Defaults(macdEps), History(lead, n), WaveAt(lead, n, k))
  {
  }

  lemma WaveAtFollows(lead: nat, n: nat, k: nat)
    requires Covers(lead, n) && 0 < k <= 8
    ensures Follows(Cut(lead, n), k)
  {
  }

  lemma CutIsWaveList(macdEps: real, lead: nat, n: nat)
    requires Covers(lead, n)
    ensures WaveList(Defaults(macdEps), History(lead, n), Cut(lead, n))
  {
    var p, h, w := Defaults(macdEps), History(lead, n), Cut(lead, n);
    forall k: nat | k < |w|
      ensures WaveOk(p, h, w[k])
    {
      WaveAtOk(macdEps, lead, n, k);
    }
    forall k: nat | 0 < k < |w|
      ensures Follows(w, k)
    {
      WaveAtFollows(lead, n, k);
    }
  }

  lemma Flips(macdEps: real, lead: nat, n: nat, k: nat)
    requires Covers(lead, n) && 0 < k <= 8
    ensures Splits(Defaults(macdEps), History(lead, n), lead + k - 1, lead + k)
  {
  }

  lemma LastTroughLasts(macdEps: real, lead: nat, n: nat, i: nat)
    requires Covers(lead, n) && lead + 8 < i < n - 1
    ensures !Splits(Defaults(macdEps), History(lead, n), lead + 8, i)
  {
    var p, h := Defaults(macdEps), History(lead, n);
    forall e: nat | IsFirstBest(p, h, Macd, Negative, lead + 8, i, e)
      ensures !FadedSince(p, h, e, i)
    {
    }
  }

  lemma CutWhereItSplits(macdEps: real, lead: nat, n: nat)
    requires Covers(lead, n)
    ensures IsSegmentation(SplitRule(Defaults(macdEps), History(lead, n)), lead, n - 1, Starts(Cut(lead, n)))
  {
    var rule, starts := SplitRule(Defaults(macdEps), History(lead, n)), Starts(Cut(lead, n));
    forall k: nat | 0 < k < |starts|
      ensures OpensPiece(rule, starts, k)
    {
      Flips(macdEps, lead, n, k);
    }
    forall k: nat, i: nat | k < |starts| && starts[k] < i < EndOf(starts, n - 1, k)
      ensures InPiece(rule, starts, k, i)
    {
      LastTroughLasts(macdEps, lead, n, i);
    }
  }

  lemma WavesHere(macdEps: real, lead: nat, n: nat)
    requires Covers(lead, n)
    ensures RecentWaves(Defaults(macdEps), History(lead, n), Cut(lead, n))
    ensures WaveList(Defaults(macdEps), History(lead, n), Cut(lead, n))
  {
    CutIsWaveList(macdEps, lead, n);
    CutWhereItSplits(macdEps, lead, n);
  }

  // ---- The legs of the whole list, and of the list from the trough at 4 on ----

  predicate Setting(macdEps: real, lead: nat, n: nat, s: nat) {
    macdEps < 0.0 && Covers(lead, n) && (s == 0 || s == 4)
  }

  /** The third leg is the last trough; in the whole list two much larger troughs make 4 and 6 weak. */
  function Third(s: nat): nat
    requires s <= 8
  {
    8 - s
  }

  lemma WeakHere(macdEps: real, lead: nat, n: nat, a: nat, b: nat)
    requires Covers(lead, n) && a < b <= 8 && a % 2 == 0 && b % 2 == 0
    ensures IsWeak(Defaults(macdEps), WaveAt(lead, n, a), WaveAt(lead, n, b)) <==> a <= 2 && b >= 4
  {
    assert Abs(HistAt(0)) == 1100.0 && Abs(HistAt(2)) == 1000.0 && Abs(HistAt(4)) == 109.0 && Abs(HistAt(6)) == 108.0;
  }

  lemma FirstAndLatest(lead: nat, n: nat, s: nat)
    requires Covers(lead, n) && (s == 0 || s == 4)
    ensures FirstOf(Cut(lead, n)[s..], Negative, 0) == 0
    ensures LatestOf(Cut(lead, n)[s..], Negative, 9 - s) == Third(s)
  {
    assert Cut(lead, n)[s..][0].sign == Negative && Cut(lead, n)[s..][8 - s].sign == Negative;
  }

  lemma KeepsHere(macdEps: real, lead: nat, n: nat, s: nat, a: nat, b: nat)
    requires Covers(lead, n) && (s == 0 || s == 4) && (a == 0 || a == 2) && a < b < 9 - s
    requires b > 2 ==> a == 2
    ensures KeepsAfter(Defaults(macdEps), Cut(lead, n)[s..], Negative, a, b) <==> b == 2 || b == Third(s)
  {
    var w := Cut(lead, n)[s..];
    FirstAndLatest(lead, n, s);
    assert w[a] == WaveAt(lead, n, s + a) && w[b] == WaveAt(lead, n, s + b);
    if b % 2 == 0 {
      WeakHere(macdEps, lead, n, s + a, s + b);
    }
  }

  function Ids(s: nat): seq<nat>
    requires s <= 8
  {
    [0, 2, Third(s)]
  }

  function IdsBelow(s: nat, q: nat): seq<nat>
    requires s == 0 || s == 4
  {
    if q <= 2 then [0] else if q <= Third(s) then [0, 2] else Ids(s)
  }

  lemma {:induction false} KeptBelow(macdEps: real, lead: nat, n: nat, s: nat, q: nat)
    requires Covers(lead, n) && (s == 0 || s == 4) && 0 < q <= 9 - s
    ensures Greedy(KeepRule(Defaults(macdEps), Cut(lead, n)[s..], Negative), 0, q) == IdsBelow(s, q)
  {
    if q > 1 {
      KeptBelow(macdEps, lead, n, s, q - 1);
      KeepsHere(macdEps, lead, n, s, if q - 1 <= 2 then 0 else 2, q - 1);
    }
  }

  lemma KeptHere(macdEps: real, lead: nat, n: nat, s: nat)
    requires Covers(lead, n) && (s == 0 || s == 4)
    ensures Kept(Defaults(macdEps), Cut(lead, n)[s..], Negative) == Ids(s)
  {
    FirstAndLatest(lead, n, s);
    KeptBelow(macdEps, lead, n, s, 9 - s);
  }

  lemma NotTiny(macdEps: real, lead: nat, n: nat, a: nat)
    requires Covers(lead, n) && macdEps < 0.0 && a % 2 == 0 && a + 2 <= 8
    ensures !IsTinyOppositeSeparator(Defaults(macdEps), WaveAt(lead, n, a + 1), WaveAt(lead, n, a),
                                     WaveAt(lead, n, a + 2))
  {
    assert Abs(HistAt(a + 1)) == 1000.0;
    assert Abs(WaveAt(lead, n, a).extremeVal) <= 1100.0;
  }

  lemma AppendsHere(macdEps: real, lead: nat, n: nat, s: nat, a: nat, b: nat)
    requires Setting(macdEps, lead, n, s) && ((a == 0 && b == 2) || (a == 2 && b == Third(s)))
    ensures var p, h, w := Defaults(macdEps), History(lead, n), Cut(lead, n)[s..];
            && WaveList(p, h, w) && InRange(h, w[a])
            && MoveFor(p, h, w, Negative, Single(w, a), b) == Append
  {
    var p, h, w := Defaults(macdEps), History(lead, n), Cut(lead, n)[s..];
    CutIsWaveList(macdEps, lead, n);
    SuffixIsWaveList(p, h, Cut(lead, n), s);
    WaveAtOk(macdEps, lead, n, s + a);
    assert w[a] == WaveAt(lead, n, s + a) && w[b] == WaveAt(lead, n, s + b) && w[a + 1] == WaveAt(lead, n, s + a + 1);
    if b == a + 2 {
      NotTiny(macdEps, lead, n, s + a);
    }
  }

  function ThreeLegs(lead: nat, n: nat, s: nat): seq<Leg>
    requires Covers(lead, n) && (s == 0 || s == 4)
  {
    var w := Cut(lead, n)[s..];
    [Single(w, 0), Single(w, 2), Single(w, Third(s))]
  }

  lemma LegWaves(lead: nat, n: nat, s: nat)
    requires Covers(lead, n) && (s == 0 || s == 4)
    ensures var legs := ThreeLegs(lead, n, s);
            && legs[0] == Leg(WaveAt(lead, n, s), 0, 0)
            && legs[1] == Leg(WaveAt(lead, n, s + 2), 2, 2)
            && legs[2] == Leg(WaveAt(lead, n, 8), 8 - s, 8 - s)
  {
  }

  lemma NextHere(macdEps: real, lead: nat, n: nat, s: nat, k: nat)
    requires Setting(macdEps, lead, n, s) && k < 3
    ensures var p, h, w := Defaults(macdEps), History(lead, n), Cut(lead, n)[s..];
            var legs := ThreeLegs(lead, n, s)[..k];
            && WaveList(p, h, w)
            && (k > 0 ==> Anchored(h, w, legs[k - 1]))
            && NextLegs(p, h, w, Negative, legs, Ids(s)[k]) == ThreeLegs(lead, n, s)[..k + 1]
  {
    var legs := ThreeLegs(lead, n, s);
    AppendsHere(macdEps, lead, n, s, 0, 2);
    if k > 0 {
      AppendsHere(macdEps, lead, n, s, Ids(s)[k - 1], Ids(s)[k]);
      assert legs[..k][k - 1] == legs[k - 1];
    }
    assert legs[..k + 1] == legs[..k] + [legs[k]];
  }

  lemma {:induction false} LegsUpToHere(macdEps: real, lead: nat, n: nat, s: nat, k: nat)
    requires Setting(macdEps, lead, n, s) && k <= 3
    requires PositionsOk(Cut(lead, n)[s..], Negative, Ids(s))
    ensures var p, h, w := Defaults(macdEps), History(lead, n), Cut(lead, n)[s..];
            WaveList(p, h, w) && LegsUpTo(p, h, w, Negative, Ids(s), k) == ThreeLegs(lead, n, s)[..k]
  {
    var p, h, w := Defaults(macdEps), History(lead, n), Cut(lead, n)[s..];
    if k == 0 {
      AppendsHere(macdEps, lead, n, s, 0, 2);
    } else {
      LegsUpToHere(macdEps, lead, n, s, k - 1);
      LegsStep(p, h, w, Negative, Ids(s), k - 1);
      NextHere(macdEps, lead, n, s, k - 1);
    }
  }

  lemma LegsHere(macdEps: real, lead: nat, n: nat, s: nat)
    requires Setting(macdEps, lead, n, s)
    ensures var p, h, w := Defaults(macdEps), History(lead, n), Cut(lead, n)[s..];
            WaveList(p, h, w) && LatestLegs(p, h, w, Negative) == ThreeLegs(lead, n, s)
  {
    KeptHere(macdEps, lead, n, s);
    LegsUpToHere(macdEps, lead, n, s, 3);
  }

  // ---- What the search finds ----

  ghost predicate AllCandidates(p: Params, h: seq<Bar>, w: seq<Segment>, sign: Sign, legs: seq<Leg>) {
    WaveList(p, h, w) && CandidatesOf(p, h, w, sign) == legs
  }

  lemma CandidatesHere(macdEps: real, lead: nat, n: nat, s: nat)
    requires Setting(macdEps, lead, n, s)
    ensures AllCandidates(Defaults(macdEps), History(lead, n), Cut(lead, n)[s..], Negative, ThreeLegs(lead, n, s))
  {
    var p, h, w := Defaults(macdEps), History(lead, n), Cut(lead, n)[s..];
    LegsHere(macdEps, lead, n, s);
    LatestLegsOk(p, h, w, Negative);
    LegsExtremesInside(p, h, w, Negative, ThreeLegs(lead, n, s));
    BoundaryHere(macdEps, lead, n, s);
  }

  lemma BoundaryHere(macdEps: real, lead: nat, n: nat, s: nat)
    requires Setting(macdEps, lead, n, s)
    ensures var p, h, legs := Defaults(macdEps), History(lead, n), ThreeLegs(lead, n, s);
            ExtremesInside(h, legs) && Boundary(p, h, Negative, legs, 2) == 0
  {
    var p, h, legs := Defaults(macdEps), History(lead, n), ThreeLegs(lead, n, s);
    assert legs[0].wave == WaveAt(lead, n, s) && legs[1].wave == WaveAt(lead, n, s + 2);
    assert legs[2].wave == WaveAt(lead, n, 8);
    assert Behind(p, h, Negative, legs, 0) && Behind(p, h, Negative, legs, 1);
  }

  /** The trigger bar is the first of the last trough, or no bar since that one is lower. */
  lemma PriceHere(macdEps: real, lead: nat, n: nat)
    requires macdEps < 0.0 && Covers(lead, n)
    ensures InRange(History(lead, n), WaveAt(lead, n, 8))
    ensures TriggerPriceExtreme(Defaults(macdEps), History(lead, n), WaveAt(lead, n, 8), n - 2) == LowAt(n - 2 - lead)
  {
    var p, h, w := Defaults(macdEps), History(lead, n), WaveAt(lead, n, 8);
    var s := SinceLastPivot(p, h, w, n - 2);
    assert n > lead + 10 ==> IsPivot(p, h, w, lead + 8);
    assert n == lead + 12 ==> !IsPivot(p, h, w, lead + 9);
    assert s == if n == lead + 10 then lead + 8 else lead + 9;
  }

  lemma RunsHere(lead: nat, n: nat, s: nat)
    requires Covers(lead, n) && (s == 0 || s == 4)
    ensures |RunStarts(Cut(lead, n)[s..], Negative, 0, 8 - s)| <= 5
  {
    var w := Cut(lead, n)[s..];
    forall i: nat | i <= 8 - s
      ensures BeginsRun(w, Negative, 0, i) <==> i % 2 == 0
    {
      assert w[i] == WaveAt(lead, n, s + i);
      assert i > 0 ==> w[i - 1] == WaveAt(lead, n, s + i - 1);
    }
    assert RunStarts(w, Negative, 0, 8 - s) == if s == 0 then {0, 2, 4, 6, 8} else {0, 2, 4};
  }

  /** The window that has the triplet: the short one, unless its trigger price falls behind. */
  predicate Fits(lead: nat, n: nat, s: nat) {
    Covers(lead, n) && s == if n == lead + 11 then 0 else 4
  }

  lemma StructureHere(macdEps: real, lead: nat, n: nat, s: nat)
    requires macdEps < 0.0 && Fits(lead, n, s)
    ensures var p, h, a, b, c := Defaults(macdEps), History(lead, n), WaveAt(lead, n, s), WaveAt(lead, n, s + 2),
                                 WaveAt(lead, n, 8);
            StructureOk.requires(p, h, Negative, a, b, c) && StructureOk(p, h, Negative, a, b, c)
  {
    assert Abs(WaveAt(lead, n, s).extremeVal) > Abs(WaveAt(lead, n, s + 2).extremeVal) > 102.0;
  }

  ghost predicate LegsPass(p: Params, h: seq<Bar>, w: seq<Segment>, sign: Sign, legs: seq<Leg>) {
    && |legs| == 3
    && AllCandidates(p, h, w, sign, legs)
    && legs[2].idx < |w|
    && |RunStarts(w, sign, legs[0].first, legs[2].idx)| <= p.maxSameSignWaves
  }

  ghost predicate Progresses(p: Params, h: seq<Bar>, w: seq<Segment>, sign: Sign, l: Leg) {
    && OwnsAdjacentPriceProgression.requires(p, h, w, sign, l.first, l.wave)
    && OwnsAdjacentPriceProgression(p, h, w, sign, l.first, l.wave)
  }

  ghost predicate PricesPass(p: Params, h: seq<Bar>, sign: Sign, trigger: nat, a: Segment, b: Segment, c: Segment) {
    && StructureOk.requires(p, h, sign, a, b, c)
    && StructureOk(p, h, sign, a, b, c)
    && TriggerPriceOk.requires(p, h, sign, a, b, c, trigger)
    && TriggerPriceOk(p, h, sign, a, b, c, trigger)
  }

  ghost predicate Passes(p: Params, h: seq<Bar>, w: seq<Segment>, sign: Sign, trigger: nat, legs: seq<Leg>) {
    && LegsPass(p, h, w, sign, legs)
    && Progresses(p, h, w, sign, legs[1])
    && Progresses(p, h, w, sign, legs[2])
    && PricesPass(p, h, sign, trigger, legs[0].wave, legs[1].wave, legs[2].wave)
  }

  lemma LegsPassHere(macdEps: real, lead: nat, n: nat, s: nat)
    requires Setting(macdEps, lead, n, s)
    ensures LegsPass(Defaults(macdEps), History(lead, n), Cut(lead, n)[s..], Negative, ThreeLegs(lead, n, s))
  {
    CandidatesHere(macdEps, lead, n, s);
    RunsHere(lead, n, s);
    LegWaves(lead, n, s);
  }

  lemma ProgressesHere(macdEps: real, lead: nat, n: nat, s: nat, b: nat)
    requires Setting(macdEps, lead, n, s) && (b == 2 || b == Third(s))
    ensures Progresses(Defaults(macdEps), History(lead, n), Cut(lead, n)[s..], Negative, Single(Cut(lead, n)[s..], b))
  {
    var h, w := History(lead, n), Cut(lead, n)[s..];
    assert w[b] == WaveAt(lead, n, s + b) && w[b - 1] == WaveAt(lead, n, s + b - 1);
    assert !Beats(Negative, PriceOf(Negative, h[lead + s + b]), DirectionalExtreme(h, Negative, w[b]));
    assert DirectionalExtreme(h, Negative, w[b]) < 200.0 == DirectionalExtreme(h, Negative, w[b - 1]);
  }

  lemma PricesPassHere(macdEps: real, lead: nat, n: nat, s: nat)
    requires macdEps < 0.0 && Fits(lead, n, s)
    ensures PricesPass(Defaults(macdEps), History(lead, n), Negative, n - 2,
                       WaveAt(lead, n, s), WaveAt(lead, n, s + 2), WaveAt(lead, n, 8))
  {
    StructureHere(macdEps, lead, n, s);
    PriceHere(macdEps, lead, n);
  }

  lemma PassesHere(macdEps: real, lead: nat, n: nat, s: nat)
    requires macdEps < 0.0 && Fits(lead, n, s)
    ensures Passes(Defaults(macdEps), History(lead, n), Cut(lead, n)[s..], Negative, n - 2, ThreeLegs(lead, n, s))
  {
    LegsPassHere(macdEps, lead, n, s);
    ProgressesHere(macdEps, lead, n, s, 2);
    ProgressesHere(macdEps, lead, n, s, Third(s));
    PricesPassHere(macdEps, lead, n, s);
    LegWaves(lead, n, s);
  }

  ghost predicate Listed(p: Params, h: seq<Bar>, waves: seq<Segment>, trigger: nat) {
    WaveList(p, h, waves) && TriggerFits(h, waves, Some(trigger))
  }

  ghost predicate HasTriplet(
    p: Params, h: seq<Bar>, waves: seq<Segment>, sign: Sign, trigger: nat, s: nat, legs: seq<Leg>)
  {
    && Listed(p, h, waves, trigger) && s < |waves|
    && TripletFrom(p, h, waves, sign, Some(trigger), s) == Some(legs)
  }

  /** Three legs that are all the candidates of a window are its triplet when they qualify. */
  lemma TripletIs(p: Params, h: seq<Bar>, waves: seq<Segment>, sign: Sign, trigger: nat, s: nat, legs: seq<Leg>)
    ensures && Listed(p, h, waves, trigger) && s < |waves|
            && Passes(p, h, waves[s..], sign, trigger, legs)
            ==> HasTriplet(p, h, waves, sign, trigger, s, legs)
  {
  }

  lemma WavesFit(macdEps: real, lead: nat, n: nat)
    requires Covers(lead, n)
    ensures Listed(Defaults(macdEps), History(lead, n), Cut(lead, n), n - 2)
  {
    CutIsWaveList(macdEps, lead, n);
  }

  lemma TripletHere(macdEps: real, lead: nat, n: nat, s: nat)
    requires macdEps < 0.0 && Fits(lead, n, s)
    ensures HasTriplet(Defaults(macdEps), History(lead, n), Cut(lead, n), Negative, n - 2, s, ThreeLegs(lead, n, s))
  {
    var p, h, waves, legs := Defaults(macdEps), History(lead, n), Cut(lead, n), ThreeLegs(lead, n, s);
    assert s < |waves|;
    TripletIs(p, h, waves, Negative, n - 2, s, legs);
    WavesFit(macdEps, lead, n);
    PassesHere(macdEps, lead, n, s);
  }

  /** Whatever leg a hit has, it starts on one of the troughs. */
  lemma StartsOnTrough(macdEps: real, lead: nat, n: nat, at: nat, w: Segment) returns (i: nat)
    requires Covers(lead, n) && at <= 9
    requires SoundLeg(Defaults(macdEps), History(lead, n), Cut(lead, n), at, Negative, w)
    ensures at <= i <= 8 && i % 2 == 0 && w.startIdx == lead + i
  {
    i := SpanIndices(Cut(lead, n), w).value.0;
    assert StartsLike(Cut(lead, n), w, i);
  }

  ghost predicate IsHit(p: Params, h: seq<Bar>, waves: seq<Segment>, sign: Sign, trigger: nat, hit: Hit<seq<Leg>>) {
    && Listed(p, h, waves, trigger)
    && ShortestWindow(p, h, waves, sign, Some(trigger)) == Some(hit)
  }

  ghost predicate StrongHit(p: Params, hit: Hit<seq<Leg>>) {
    |hit.value| == 3 && LatestLegStrong(p, hit.value[1].wave, hit.value[2].wave)
  }

  lemma HitFound(p: Params, h: seq<Bar>, waves: seq<Segment>, sign: Sign, trigger: nat, s: nat, legs: seq<Leg>)
    returns (hit: Hit<seq<Leg>>)
    requires HasTriplet(p, h, waves, sign, trigger, s, legs)
    ensures IsHit(p, h, waves, sign, trigger, hit) && HitOk(p, h, waves, sign, Some(trigger), hit)
    ensures s <= hit.at && (hit.at == s ==> hit.value == legs)
  {
    var f := SearchAt(p, h, waves, sign, Some(trigger));
    assert f(s) == Some(legs);
    hit := LastHit(f, |waves|).value;
    FoundSound(p, h, waves, sign, Some(trigger));
  }

  lemma ExtremeFrom(macdEps: real, lead: nat, n: nat, i: nat, w: Segment)
    requires Covers(lead, n) && i <= 8 && i % 2 == 0
    requires w.sign == Negative && w.startIdx == lead + i
    requires ExtremesOk(Defaults(macdEps), History(lead, n), w)
    ensures 102.0 <= Abs(w.extremeVal) && (i >= 2 ==> Abs(w.extremeVal) <= 1000.0)
    ensures i == 8 ==> w.extremeIdx == lead + 8
  {
    assert History(lead, n)[lead + i].hist == HistAt(i) <= -102.0;
    assert HasSign(Defaults(macdEps), History(lead, n), lead + i, Negative);
  }

  /** What any leg of a hit looks like. */
  predicate OnTrough(lead: nat, at: nat, w: Segment) {
    && lead + at <= w.startIdx <= lead + 8
    && (w.startIdx - lead) % 2 == 0
    && 102.0 <= Abs(w.extremeVal)
    && (w.startIdx >= lead + 2 ==> Abs(w.extremeVal) <= 1000.0)
    && (w.startIdx == lead + 8 ==> w.extremeIdx == lead + 8)
  }

  lemma LegOfHit(macdEps: real, lead: nat, n: nat, at: nat, w: Segment)
    requires Covers(lead, n) && at <= 9
    ensures SoundLeg(Defaults(macdEps), History(lead, n), Cut(lead, n), at, Negative, w) ==> OnTrough(lead, at, w)
  {
    if SoundLeg(Defaults(macdEps), History(lead, n), Cut(lead, n), at, Negative, w) {
      var i := StartsOnTrough(macdEps, lead, n, at, w);
      ExtremeFrom(macdEps, lead, n, i, w);
    }
  }

  ghost predicate OnTroughs(lead: nat, hit: Hit<seq<Leg>>) {
    && |hit.value| == 3
    && OnTrough(lead, hit.at, hit.value[0].wave)
    && OnTrough(lead, hit.at, hit.value[1].wave)
    && OnTrough(lead, hit.at, hit.value[2].wave)
    && hit.value[0].wave.startIdx < hit.value[1].wave.startIdx < hit.value[2].wave.startIdx
  }

  lemma LegsOfHit(macdEps: real, lead: nat, n: nat, hit: Hit<seq<Leg>>)
    requires Covers(lead, n)
    requires HitOk(Defaults(macdEps), History(lead, n), Cut(lead, n), Negative, Some(n - 2), hit)
    ensures OnTroughs(lead, hit)
  {
    LegOfHit(macdEps, lead, n, hit.at, hit.value[0].wave);
    LegOfHit(macdEps, lead, n, hit.at, hit.value[1].wave);
    LegOfHit(macdEps, lead, n, hit.at, hit.value[2].wave);
  }

  /** Three troughs follow from the position of a hit on, and the last is strong enough next to the one before. */
  lemma HitNotLater(macdEps: real, lead: nat, hit: Hit<seq<Leg>>)
    requires OnTroughs(lead, hit)
    ensures hit.at <= 4 && LatestLegStrong(Defaults(macdEps), hit.value[1].wave, hit.value[2].wave)
  {
    Ratio(Abs(hit.value[1].wave.extremeVal), Abs(hit.value[2].wave.extremeVal));
  }

  lemma Ratio(b: real, c: real)
    requires 0.0 < b <= 1000.0 && 102.0 <= c
    ensures c / b >= 0.1
  {
  }

  function KeyAt(lead: nat): StructureKey {
    StructureKey(lead + 4, lead + 4, lead + 6, lead + 6)
  }

  lemma FourthTroughPrice(lead: nat, n: nat, b: Segment)
    requires Covers(lead, n) && b.sign == Negative && b.startIdx <= b.extremeIdx < n
    ensures b.startIdx == b.extremeIdx == lead + 6 ==> StructurePrice(History(lead, n), b) == 70.0
  {
  }

  /** Once the last trough lasts a second bar, the structure of the troughs 4 and 6 is out of reach. */
  lemma OtherKey(macdEps: real, lead: nat, n: nat, hit: Hit<seq<Leg>>)
    requires macdEps < 0.0 && n == lead + 11 && OnTroughs(lead, hit)
    requires HitOk(Defaults(macdEps), History(lead, n), Cut(lead, n), Negative, Some(n - 2), hit)
    ensures KeyOf(hit.value[0].wave, hit.value[1].wave) != KeyAt(lead)
  {
    FourthTroughPrice(lead, n, hit.value[1].wave);
    if hit.value[2].wave.startIdx == lead + 8 {
      SecondBarPrice(macdEps, lead, hit.value[2].wave);
    }
  }

  lemma SecondBarPrice(macdEps: real, lead: nat, c: Segment)
    requires macdEps < 0.0 && c.sign == Negative && c.startIdx == c.extremeIdx == lead + 8
    requires InRange(History(lead, lead + 11), c)
    ensures TriggerPriceExtreme(Defaults(macdEps), History(lead, lead + 11), c, lead + 9) == 75.0
  {
    assert IsPivot(Defaults(macdEps), History(lead, lead + 11), c, lead + 8);
  }

  // ---- The signals of the three checks ----

  ghost predicate Triggers(p: Params, h: seq<Bar>, sign: Sign, waves: seq<Segment>)
    requires 3 <= |h|
  {
    && RecentWaves(p, h, waves) && WaveList(p, h, waves)
    && FirstShortening(p, h, sign)
    && TriggerInLatest(p, h, sign, CandidatesOf(p, h, waves, sign))
  }

  ghost predicate OfHit(p: Params, h: seq<Bar>, sign: Sign, hit: Hit<seq<Leg>>, signal: Signal) {
    && |hit.value| == 3 && |h| >= 2
    && signal.key == KeyOf(hit.value[0].wave, hit.value[1].wave)
    && InRange(h, hit.value[2].wave) && hit.value[2].wave.startIdx <= |h| - 2
    && signal.price == TriggerPriceExtreme(p, h, hit.value[2].wave, |h| - 2)
  }

  lemma SignalOfHit(p: Params, h: seq<Bar>, sign: Sign, waves: seq<Segment>, hit: Hit<seq<Leg>>)
    returns (signal: Signal)
    requires 3 <= |h| && RecentWaves(p, h, waves) && FirstShortening(p, h, sign)
    requires WaveList(p, h, waves) && TriggerInLatest(p, h, sign, CandidatesOf(p, h, waves, sign))
    requires TriggerFits(h, waves, Some(|h| - 2)) && ShortestWindow(p, h, waves, sign, Some(|h| - 2)) == Some(hit)
    requires |hit.value| == 3 && LatestLegStrong(p, hit.value[1].wave, hit.value[2].wave)
    ensures SignalOf(p, h, sign, waves) == Some(signal) && OfHit(p, h, sign, hit, signal)
  {
    FoundSound(p, h, waves, sign, Some(|h| - 2));
    SignalFromOk(p, h, waves, sign, hit);
    signal := SignalFrom(p, h, hit.value[0].wave, hit.value[1].wave, hit.value[2].wave).value;
  }

  /** Whatever the bar can be found to show satisfies ok. */
  ghost predicate OnlyShows(p: Params, h: seq<Bar>, minBars: nat, sign: Sign, ok: Signal -> bool) {
    forall found: Option<Signal> :: IsSignal(p, h, minBars, sign, found) ==> found.Some? && ok(found.value)
  }

  ghost predicate HitShows(p: Params, h: seq<Bar>, sign: Sign, hit: Hit<seq<Leg>>, ok: Signal -> bool) {
    forall signal: Signal :: OfHit(p, h, sign, hit, signal) ==> ok(signal)
  }

  lemma OnlyShowsIf(p: Params, h: seq<Bar>, minBars: nat, sign: Sign, waves: seq<Segment>, hit: Hit<seq<Leg>>,
                    ok: Signal -> bool)
    requires 3 <= |h| && minBars <= |h|
    ensures && Triggers(p, h, sign, waves) && IsHit(p, h, waves, sign, |h| - 2, hit) && StrongHit(p, hit)
            && HitShows(p, h, sign, hit, ok)
            ==> OnlyShows(p, h, minBars, sign, ok)
  {
    if Triggers(p, h, sign, waves) && IsHit(p, h, waves, sign, |h| - 2, hit) && StrongHit(p, hit)
       && HitShows(p, h, sign, hit, ok) {
      var signal := SignalOfHit(p, h, sign, waves, hit);
      forall found: Option<Signal> | IsSignal(p, h, minBars, sign, found)
        ensures found.Some? && ok(found.value)
      {
        SignalUnique(p, h, minBars, sign, found, Some(signal));
      }
    }
  }

  lemma ShortensHere(macdEps: real, lead: nat, n: nat)
    requires macdEps < 0.0 && Covers(lead, n)
    ensures FirstShortening(Defaults(macdEps), History(lead, n), Negative)
    ensures TriggerInLatest(Defaults(macdEps), History(lead, n), Negative, ThreeLegs(lead, n, 0))
  {
    LegWaves(lead, n, 0);
  }

  lemma HitHere(macdEps: real, lead: nat, n: nat) returns (hit: Hit<seq<Leg>>)
    requires macdEps < 0.0 && Covers(lead, n)
    ensures IsHit(Defaults(macdEps), History(lead, n), Cut(lead, n), Negative, n - 2, hit)
    ensures StrongHit(Defaults(macdEps), hit)
    ensures if n == lead + 11 then KeyOf(hit.value[0].wave, hit.value[1].wave) != KeyAt(lead)
            else hit.value == ThreeLegs(lead, n, 4)
  {
    var s := if n == lead + 11 then 0 else 4;
    TripletHere(macdEps, lead, n, s);
    hit := HitFound(Defaults(macdEps), History(lead, n), Cut(lead, n), Negative, n - 2, s, ThreeLegs(lead, n, s));
    LegsOfHit(macdEps, lead, n, hit);
    HitNotLater(macdEps, lead, hit);
    if n == lead + 11 {
      OtherKey(macdEps, lead, n, hit);
    }
  }

  /** The first and the third check see the troughs 4 and 6, at 10 and then at 20; the second sees another structure. */
  ghost predicate Shown(lead: nat, n: nat, signal: Signal)
    requires Covers(lead, n)
  {
    if n == lead + 11 then signal.key != KeyAt(lead)
    else signal.key == KeyAt(lead) && signal.price == LowAt(n - 2 - lead)
  }

  lemma TriggersHere(macdEps: real, lead: nat, n: nat)
    requires macdEps < 0.0 && Covers(lead, n)
    ensures Triggers(Defaults(macdEps), History(lead, n), Negative, Cut(lead, n))
  {
    WavesHere(macdEps, lead, n);
    ShortensHere(macdEps, lead, n);
    assert Cut(lead, n)[0..] == Cut(lead, n);
    CandidatesHere(macdEps, lead, n, 0);
  }

  ghost function ShownAt(lead: nat, n: nat): Signal -> bool
    requires Covers(lead, n)
  {
    (signal: Signal) => Shown(lead, n, signal)
  }

  lemma HitShowsHere(macdEps: real, lead: nat, n: nat, hit: Hit<seq<Leg>>)
    requires macdEps < 0.0 && Covers(lead, n) && |hit.value| == 3
    requires if n == lead + 11 then KeyOf(hit.value[0].wave, hit.value[1].wave) != KeyAt(lead)
             else hit.value == ThreeLegs(lead, n, 4)
    ensures HitShows(Defaults(macdEps), History(lead, n), Negative, hit, ShownAt(lead, n))
  {
    if n != lead + 11 {
      LegWaves(lead, n, 4);
      PriceHere(macdEps, lead, n);
    }
  }

  lemma OnlyShowsHere(macdEps: real, lead: nat, n: nat)
    requires macdEps < 0.0 && Covers(lead, n)
    ensures OnlyShows(Defaults(macdEps), History(lead, n), lead + 10, Negative, ShownAt(lead, n))
  {
    var hit := HitHere(macdEps, lead, n);
    TriggersHere(macdEps, lead, n);
    OnlyShowsIf(Defaults(macdEps), History(lead, n), lead + 10, Negative, Cut(lead, n), hit, ShownAt(lead, n));
    HitShowsHere(macdEps, lead, n, hit);
  }

  lemma HistoryGrows(lead: nat, m: nat, n: nat)
    requires m <= n
    ensures History(lead, m) <= History(lead, n)
  {
  }

  /** A check on a bar about whose signal ok is known. */
  method Check(d: TripleDivergence, h: seq<Bar>, ghost ok: Signal -> bool) returns (fired: bool, ghost signal: Signal)
    requires d.Valid() && d.seen <= h && d.longAt < |h| && OnlyShows(d.p, h, d.minBars, Negative, ok)
    modifies d
    ensures d.Valid() && d.seen == h && d.longAt == |h|
    ensures ok(signal)
    ensures fired <==> !Repeats(d.p, Negative, old(d.longMemory), signal) && !TooSoon(old(d.longMemory), |h| - 1)
    ensures d.signalEvents == old(d.signalEvents) + if fired then [EventOf(h, Negative, signal)] else []
    ensures d.longMemory == MemoryAfter(d.p, Negative, old(d.longMemory), signal, |h| - 1)
  {
    ghost var found;
    fired, found := d.Detect(h, Negative);
    signal := found.value;
  }

  method CheckHere(d: TripleDivergence, macdEps: real, lead: nat, n: nat) returns (fired: bool, ghost signal: Signal)
    requires macdEps < 0.0 && Covers(lead, n) && d.p == Defaults(macdEps) && d.minBars == lead + 10
    requires d.Valid() && d.seen == History(lead, n - 1) && d.longAt == n - 1
    modifies d
    ensures d.Valid() && d.seen == History(lead, n) && d.longAt == n
    ensures Shown(lead, n, signal)
    ensures fired <==> !Repeats(d.p, Negative, old(d.longMemory), signal) && !TooSoon(old(d.longMemory), n - 1)
    ensures d.signalEvents == old(d.signalEvents) + if fired then [EventOf(History(lead, n), Negative, signal)] else []
    ensures d.longMemory == MemoryAfter(d.p, Negative, old(d.longMemory), signal, n - 1)
  {
    HistoryGrows(lead, n - 1, n);
    OnlyShowsHere(macdEps, lead, n);
    fired, signal := Check(d, History(lead, n), ShownAt(lead, n));
  }

  /** What the memory makes of the three signals. */
  lemma Remembered(p: Params, lead: nat, first: Signal, other: Signal, again: Signal)
    requires p.priceEps == 0.0
    requires Shown(lead, lead + 10, first) && Shown(lead, lead + 11, other) && Shown(lead, lead + 12, again)
    ensures var m0, b := Memory(None, None, None), lead + 9;
            var m1 := MemoryAfter(p, Negative, m0, first, b);
            var m2 := MemoryAfter(p, Negative, m1, other, b + 1);
            && !Repeats(p, Negative, m0, first) && !TooSoon(m0, b)
            && !Repeats(p, Negative, m1, other) && TooSoon(m1, b + 1)
            && !Repeats(p, Negative, m2, again) && !TooSoon(m2, b + 2)
  {
  }

  lemma Stale(p: Params, first: Event, again: Event)
    requires p.priceEps == 0.0 && first.sign == again.sign == Negative
    requires first.key == again.key && first.price == 10.0 && again.price == 20.0
    ensures !FreshEvent(p, [first, again], 1)
  {
    assert LastEvent([first, again], Negative, 1) == 0;
  }

  /** The method below up to the bar before the first signal. */
  method Warm(macdEps: real, minBars: nat) returns (d: TripleDivergence)
    requires minBars >= 10
    ensures fresh(d) && d.Valid() && d.p == Defaults(macdEps) && d.minBars == minBars
    ensures d.seen == History(minBars - 10, minBars - 1) && d.longAt == minBars - 1
    ensures d.signalEvents == [] && d.longMemory == Memory(None, None, None)
  {
    d := new TripleDivergence(Defaults(macdEps), minBars);
    var lead: nat := minBars - 10;
    var n: nat := 0;
    while n < minBars - 1
      invariant n <= minBars - 1
      invariant fresh(d) && d.Valid() && d.p == Defaults(macdEps) && d.minBars == minBars
      invariant d.seen == History(lead, n) && d.longAt == n
      invariant d.signalEvents == [] && d.longMemory == Memory(None, None, None)
    {
      HistoryGrows(lead, n, n + 1);
      n := n + 1;
      var fired, found := d.Detect(History(lead, n), Negative);
    }
  }

  /**
   With any negative macd_eps, the other parameters at their defaults, and any minimum length from 10 bars on: asked
   for longs on every bar, the detector signals the same structure twice, the second time at a higher low.
   */
  method Replay(macdEps: real, minBars: nat) returns (d: TripleDivergence)
    requires macdEps < 0.0 && minBars >= 10
    ensures fresh(d) && d.Valid() && d.p == Defaults(macdEps) && d.minBars == minBars
    ensures d.seen == History(minBars - 10, minBars + 2) && d.longAt == minBars + 2
    ensures |d.signalEvents| == 2 && !FreshEvent(d.p, d.signalEvents, 1)
    ensures d.signalEvents[0].key == d.signalEvents[1].key
    ensures d.signalEvents[0].price == 10.0 && d.signalEvents[1].price == 20.0
  {
    d := Warm(macdEps, minBars);
    var lead: nat := minBars - 10;
    var fired, first := CheckHere(d, macdEps, lead, minBars);
    ghost var other;
    fired, other := CheckHere(d, macdEps, lead, minBars + 1);
    ghost var again;
    fired, again := CheckHere(d, macdEps, lead, minBars + 2);
    Remembered(d.p, lead, first, other, again);
    Stale(d.p, d.signalEvents[0], d.signalEvents[1]);
  }
}
