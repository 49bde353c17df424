/** MACD histogram bars, their sign, and what "the first best bar" of a stretch means. */
module Histogram {
  import opened Common

  datatype Sign = Negative | Zero | Positive

  datatype Bar = Bar(hist: real, high: real, low: real)

  datatype Params = Params(
    noiseClusterRatio: real,
    weakWaveFilterRatio: real,
    triggerLatestLegMinRatio: real,
    zeroEps: real,
    priceEps: real,
    macdEps: real,
    maxLookbackBars: int,
    maxSameSignWaves: int)

  /** A bar can be ranked by its histogram value or by its price. */
  datatype Measure = Macd | Price

  function GetSign(p: Params, x: real): Sign {
    if Abs(x) <= p.zeroEps then Zero else if x > 0.0 then Positive else Negative
  }

  /** Troughs are looked for downwards, peaks upwards. */
  predicate Beats(sign: Sign, x: real, y: real) {
    if sign == Negative then x < y else x > y
  }

  predicate BeatsBy(sign: Sign, x: real, y: real, eps: real) {
    if sign == Negative then x < y - eps else x > y + eps
  }

  function PriceOf(sign: Sign, bar: Bar): real {
    if sign == Negative then bar.low else bar.high
  }

  function Value(m: Measure, sign: Sign, bar: Bar): real {
    match m
    case Macd => bar.hist
    case Price => PriceOf(sign, bar)
  }

  predicate HasSign(p: Params, h: seq<Bar>, i: nat, sign: Sign)
    requires i < |h|
  {
    GetSign(p, h[i].hist) == sign
  }

  /** Bar i is the first best bar, by the given measure, among the bars of this sign in h[lo..hi]. */
  ghost predicate IsFirstBest(p: Params, h: seq<Bar>, m: Measure, sign: Sign, lo: nat, hi: nat, i: nat)
    requires hi <= |h|
  {
    && lo <= i < hi
    && HasSign(p, h, i, sign)
    && (forall j: nat | lo <= j < hi && HasSign(p, h, j, sign) ::
          !Beats(sign, Value(m, sign, h[j]), Value(m, sign, h[i])))
    && (forall j: nat | lo <= j < i && HasSign(p, h, j, sign) ::
          Beats(sign, Value(m, sign, h[i]), Value(m, sign, h[j])))
  }

  /**
   Two stretches with no bar of this sign between them: the first best of the whole is the left one
   unless the right one strictly beats it.
   */
  lemma FirstBestJoin(
    p: Params, h: seq<Bar>, m: Measure, sign: Sign, lo: nat, mid: nat, next: nat, hi: nat, i: nat, j: nat)
    requires lo <= mid <= next <= hi <= |h|
    requires IsFirstBest(p, h, m, sign, lo, mid, i) && IsFirstBest(p, h, m, sign, next, hi, j)
    requires forall k: nat | mid <= k < next :: !HasSign(p, h, k, sign)
    ensures IsFirstBest(p, h, m, sign, lo, hi, if Beats(sign, Value(m, sign, h[j]), Value(m, sign, h[i])) then j else i)
  {
  }
}
