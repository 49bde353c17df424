/** The divergence detector: one check per bar, and the memory that suppresses repeats. */
module Detector {
  import opened Common
  import opened Histogram
  import opened Waves
  import opened Legs
  import opened Search
  import opened Triplets

  /** The bar before the current one is a fresh local extreme, and the current bar is the first to shrink. */
  predicate FirstShortening(p: Params, h: seq<Bar>, sign: Sign) {
    && |h| >= 3
    && sign != Zero
    && var beforePrevious, previous, current := h[|h| - 3].hist, h[|h| - 2].hist, h[|h| - 1].hist;
       if sign == Positive then
         previous > p.zeroEps && previous > beforePrevious + p.macdEps && current < previous - p.macdEps
       else
         previous < -p.zeroEps && previous < beforePrevious - p.macdEps && current > previous + p.macdEps
  }

  /** The test cannot hold on two bars in a row, for any history, exactly when the tolerance is not negative. */
  lemma NeverTwiceInARow(p: Params, sign: Sign)
    requires sign != Zero
    ensures (forall h: seq<Bar>, bar: Bar :: !(FirstShortening(p, h, sign) && FirstShortening(p, h + [bar], sign)))
            <==> p.macdEps >= 0.0
  {
    if p.macdEps < 0.0 {
      var x := if p.zeroEps < 0.0 then 1.0 else p.zeroEps + 1.0;
      var bar := if sign == Positive then Bar(x, 0.0, 0.0) else Bar(-x, 0.0, 0.0);
      var h := [bar, bar, bar];
      assert h + [bar] == [bar, bar, bar, bar];
      assert FirstShortening(p, h, sign) && FirstShortening(p, h + [bar], sign);
    } else {
      forall h: seq<Bar>, bar: Bar
        ensures !(FirstShortening(p, h, sign) && FirstShortening(p, h + [bar], sign))
      {
        if |h| >= 3 {
          var g := h + [bar];
          assert g[|g| - 2] == h[|h| - 1] && g[|g| - 3] == h[|h| - 2];
        }
      }
    }
  }

  // ---------- one bar, without memory ----------

  /** A signal before the memory has its say: the two legs that identify the structure, and the trigger price. */
  datatype Signal = Signal(key: StructureKey, price: real, legs: seq<Segment>)

  datatype StructureKey = StructureKey(start1: nat, extreme1: nat, start2: nat, extreme2: nat)

  function KeyOf(a: Segment, b: Segment): StructureKey {
    StructureKey(a.startIdx, a.extremeIdx, b.startIdx, b.extremeIdx)
  }

  /** The waves of the bars before the current one. */
  ghost predicate RecentWaves(p: Params, h: seq<Bar>, waves: seq<Segment>)
    requires |h| >= 3
  {
    IsWaveCut(p, h, |h| - 1 - Lookback(p, h), |h| - 1, waves)
  }

  lemma RecentWavesFit(p: Params, h: seq<Bar>, waves: seq<Segment>)
    requires |h| >= 3 && RecentWaves(p, h, waves)
    ensures WaveList(p, h, waves) && TriggerFits(h, waves, Some(|h| - 2))
  {
    forall i: nat | i < |waves|
      ensures waves[i].startIdx <= |h| - 2
    {
      assert WaveOk(p, h, waves[i]) && WaveOk(p, h, waves[|waves| - 1]);
      if i < |waves| - 1 {
        StartsOrdered(p, h, waves, i, |waves| - 1);
      }
    }
  }

  /** The bar before the current one lies in the latest candidate leg and has its sign. */
  ghost predicate TriggerInLatest(p: Params, h: seq<Bar>, sign: Sign, c: seq<Leg>)
    requires |h| >= 3
  {
    && c != []
    && c[|c| - 1].wave.startIdx <= |h| - 2 <= c[|c| - 1].wave.endIdx
    && HasSign(p, h, |h| - 2, sign)
  }

  predicate LatestLegStrong(p: Params, b: Segment, c: Segment) {
    Abs(b.extremeVal) > 0.0 && Abs(c.extremeVal) / Abs(b.extremeVal) >= p.triggerLatestLegMinRatio
  }

  /** The signal three legs give, if the latest one is strong enough. */
  function SignalFrom(p: Params, h: seq<Bar>, a: Segment, b: Segment, c: Segment): Option<Signal>
    requires |h| >= 2 && InRange(h, c) && c.startIdx <= |h| - 2
  {
    if LatestLegStrong(p, b, c)
    then Some(Signal(KeyOf(a, b), TriggerPriceExtreme(p, h, c, |h| - 2), [a, b, c]))
    else None
  }

  /** What a signal owes its legs. */
  ghost predicate SignalOk(p: Params, h: seq<Bar>, waves: seq<Segment>, sign: Sign, signal: Signal) {
    && |h| >= 3
    && |signal.legs| == 3
    && (exists s: nat ::
          s < |waves| && SoundTriplet(p, h, waves, s, sign, signal.legs[0], signal.legs[1], signal.legs[2]))
    && signal.legs[2].startIdx <= |h| - 2
    && TriggerPriceOk.requires(p, h, sign, signal.legs[0], signal.legs[1], signal.legs[2], |h| - 2)
    && TriggerPriceOk(p, h, sign, signal.legs[0], signal.legs[1], signal.legs[2], |h| - 2)
    && signal.price == TriggerPriceExtreme(p, h, signal.legs[2], |h| - 2)
    && signal.key == KeyOf(signal.legs[0], signal.legs[1])
    && LatestLegStrong(p, signal.legs[1], signal.legs[2])
  }

  lemma SignalFromOk(p: Params, h: seq<Bar>, waves: seq<Segment>, sign: Sign, hit: Hit<seq<Leg>>)
    requires |h| >= 3 && HitOk(p, h, waves, sign, Some(|h| - 2), hit)
    ensures var a, b, c := hit.value[0].wave, hit.value[1].wave, hit.value[2].wave;
            && InRange(h, c)
            && var signal := SignalFrom(p, h, a, b, c);
               signal.Some? ==> SignalOk(p, h, waves, sign, signal.value)
  {
  }

  /** The signal of the current bar, given its waves. */
  ghost function SignalOf(p: Params, h: seq<Bar>, sign: Sign, waves: seq<Segment>): Option<Signal>
    requires |h| >= 3 && RecentWaves(p, h, waves)
  {
    RecentWavesFit(p, h, waves);
    if !FirstShortening(p, h, sign) || !TriggerInLatest(p, h, sign, CandidatesOf(p, h, waves, sign)) then None else
      match ShortestWindow(p, h, waves, sign, Some(|h| - 2))
      case None => None
      case Some(hit) =>
        FoundSound(p, h, waves, sign, Some(|h| - 2));
        SignalFromOk(p, h, waves, sign, hit);
        SignalFrom(p, h, hit.value[0].wave, hit.value[1].wave, hit.value[2].wave)
  }

  /**
   Every signal rests on three sound legs of the bar's waves, on a first shortening bar, and on prices that
   go strictly further from leg to leg up to the trigger.
   */
  lemma SignalSound(p: Params, h: seq<Bar>, sign: Sign, waves: seq<Segment>)
    requires |h| >= 3 && RecentWaves(p, h, waves) && SignalOf(p, h, sign, waves).Some?
    ensures FirstShortening(p, h, sign) && SignalOk(p, h, waves, sign, SignalOf(p, h, sign, waves).value)
  {
    RecentWavesFit(p, h, waves);
    FoundSound(p, h, waves, sign, Some(|h| - 2));
    SignalFromOk(p, h, waves, sign, ShortestWindow(p, h, waves, sign, Some(|h| - 2)).value);
  }

  method SignalOfLegs(p: Params, h: seq<Bar>, a: Segment, b: Segment, c: Segment) returns (signal: Option<Signal>)
    requires |h| >= 2 && InRange(h, c) && c.startIdx <= |h| - 2
    ensures signal == SignalFrom(p, h, a, b, c)
  {
    if Abs(b.extremeVal) <= 0.0 || Abs(c.extremeVal) / Abs(b.extremeVal) < p.triggerLatestLegMinRatio {
      return None;
    }
    signal := Some(Signal(KeyOf(a, b), TriggerPriceExtreme(p, h, c, |h| - 2), [a, b, c]));
  }

  method SearchSignal(p: Params, h: seq<Bar>, waves: seq<Segment>, sign: Sign) returns (signal: Option<Signal>)
    requires |h| >= 3 && RecentWaves(p, h, waves) && WaveList(p, h, waves) && TriggerFits(h, waves, Some(|h| - 2))
    requires FirstShortening(p, h, sign) && TriggerInLatest(p, h, sign, CandidatesOf(p, h, waves, sign))
    ensures signal == SignalOf(p, h, sign, waves)
  {
    var found := FindTriplet(p, h, waves, sign, Some(|h| - 2));
    if found.None? {
      return None;
    }
    FoundSound(p, h, waves, sign, Some(|h| - 2));
    SignalFromOk(p, h, waves, sign, found.value);
    var legs := found.value.value;
    signal := SignalOfLegs(p, h, legs[0].wave, legs[1].wave, legs[2].wave);
  }

  /** Whether the bar before the current one lies in the latest candidate. */
  method CheckTrigger(p: Params, h: seq<Bar>, waves: seq<Segment>, sign: Sign) returns (ok: bool)
    requires |h| >= 3 && WaveList(p, h, waves)
    ensures ok == TriggerInLatest(p, h, sign, CandidatesOf(p, h, waves, sign))
  {
    var candidates := PriceDivergenceCandidates(p, h, waves, sign);
    if candidates == [] {
      return false;
    }
    var latest := candidates[|candidates| - 1].wave;
    return latest.startIdx <= |h| - 2 <= latest.endIdx && GetSign(p, h[|h| - 2].hist) == sign;
  }

  method EvaluateWaves(p: Params, h: seq<Bar>, waves: seq<Segment>, sign: Sign) returns (signal: Option<Signal>)
    requires |h| >= 3 ==> RecentWaves(p, h, waves)
    ensures if |h| < 3 then signal.None? else signal == SignalOf(p, h, sign, waves)
    ensures signal.Some? ==> FirstShortening(p, h, sign)
  {
    if !FirstShortening(p, h, sign) {
      return None;
    }
    RecentWavesFit(p, h, waves);
    var triggered := CheckTrigger(p, h, waves, sign);
    if !triggered {
      return None;
    }
    signal := SearchSignal(p, h, waves, sign);
  }

  /** What the current bar shows in one direction, once enough bars are there. */
  ghost predicate IsSignal(p: Params, h: seq<Bar>, minBars: nat, sign: Sign, signal: Option<Signal>) {
    if |h| < 3 || |h| < minBars then signal.None?
    else exists waves :: RecentWaves(p, h, waves) && signal == SignalOf(p, h, sign, waves)
  }

  lemma WavesUnique(p: Params, h: seq<Bar>, v: seq<Segment>, w: seq<Segment>)
    requires |h| >= 3 && RecentWaves(p, h, v) && RecentWaves(p, h, w)
    ensures v == w
  {
    CutUnique(p, h, |h| - 1 - Lookback(p, h), |h| - 1, v, w);
  }

  /** There is one answer, since there is one way to cut the waves. */
  lemma SignalUnique(p: Params, h: seq<Bar>, minBars: nat, sign: Sign, a: Option<Signal>, b: Option<Signal>)
    requires IsSignal(p, h, minBars, sign, a) && IsSignal(p, h, minBars, sign, b)
    ensures a == b
  {
    if |h| >= 3 && |h| >= minBars {
      var v :| RecentWaves(p, h, v) && a == SignalOf(p, h, sign, v);
      var w :| RecentWaves(p, h, w) && b == SignalOf(p, h, sign, w);
      WavesUnique(p, h, v, w);
    }
  }

  method Evaluate(p: Params, h: seq<Bar>, minBars: nat, sign: Sign) returns (signal: Option<Signal>)
    requires sign != Zero
    ensures IsSignal(p, h, minBars, sign, signal)
    ensures signal.Some? ==> FirstShortening(p, h, sign)
  {
    if |h| < minBars {
      return None;
    }
    var waves := BuildRecentWaves(p, h);
    signal := EvaluateWaves(p, h, waves, sign);
  }

  // ---------- memory ----------

  datatype Event = Event(sign: Sign, bar: nat, key: StructureKey, price: real, legs: seq<Segment>)

  /** What one direction remembers of its last signal. */
  datatype Memory = Memory(bar: Option<nat>, key: Option<StructureKey>, price: Option<real>)

  /** Position of the last event of a direction among the first n, -1 when there is none. */
  function LastEvent(events: seq<Event>, sign: Sign, n: nat): (i: int)
    requires n <= |events|
    ensures -1 <= i < n
    ensures i >= 0 ==> events[i].sign == sign
    ensures forall j: nat {:trigger events[j]} | i < j < n :: events[j].sign != sign
  {
    if n == 0 then -1 else if events[n - 1].sign == sign then n - 1 else LastEvent(events, sign, n - 1)
  }

  /** The memory of a direction is exactly its last event. */
  ghost predicate Remembers(events: seq<Event>, sign: Sign, m: Memory) {
    var i := LastEvent(events, sign, |events|);
    if i < 0 then m == Memory(None, None, None)
    else m == Memory(Some(events[i].bar), Some(events[i].key), Some(events[i].price))
  }

  /** What the gap guard may leave of it: the bar alone. */
  ghost predicate Wiped(events: seq<Event>, sign: Sign, m: Memory) {
    var i := LastEvent(events, sign, |events|);
    i >= 0 && m == Memory(Some(events[i].bar), None, None)
  }

  ghost predicate Tracks(events: seq<Event>, sign: Sign, m: Memory) {
    Remembers(events, sign, m) || Wiped(events, sign, m)
  }

  /** Event n is at least two bars after the event of its direction just before it. */
  ghost predicate SpacedEvent(events: seq<Event>, n: nat)
    requires n < |events|
  {
    var i := LastEvent(events, events[n].sign, n);
    i >= 0 ==> events[i].bar + 2 <= events[n].bar
  }

  /** When it continues the structure of that event, its price goes further by more than the tolerance. */
  ghost predicate FreshEvent(p: Params, events: seq<Event>, n: nat)
    requires n < |events|
  {
    var i := LastEvent(events, events[n].sign, n);
    i >= 0 && events[i].key == events[n].key ==> BeatsBy(events[n].sign, events[n].price, events[i].price, p.priceEps)
  }

  ghost predicate AllSpaced(events: seq<Event>) {
    forall n: nat {:trigger SpacedEvent(events, n)} | n < |events| :: SpacedEvent(events, n)
  }

  ghost predicate AllFresh(p: Params, events: seq<Event>) {
    forall n: nat {:trigger FreshEvent(p, events, n)} | n < |events| :: FreshEvent(p, events, n)
  }

  /** The histories examined so far are prefixes of this one, and an event's bar passed the shortening test. */
  ghost predicate Justified(p: Params, h: seq<Bar>, e: Event) {
    e.bar < |h| && FirstShortening(p, h[..e.bar + 1], e.sign)
  }

  ghost predicate AllJustified(p: Params, h: seq<Bar>, events: seq<Event>) {
    forall n: nat {:trigger Justified(p, h, events[n])} | n < |events| :: Justified(p, h, events[n])
  }

  lemma LastEventPrefix(a: seq<Event>, b: seq<Event>, sign: Sign, n: nat)
    requires n <= |a| && n <= |b| && a[..n] == b[..n]
    ensures LastEvent(a, sign, n) == LastEvent(b, sign, n)
  {
  }

  lemma FreshAppend(p: Params, events: seq<Event>, e: Event)
    requires AllFresh(p, events)
    requires var i := LastEvent(events, e.sign, |events|);
             i >= 0 && events[i].key == e.key ==> BeatsBy(e.sign, e.price, events[i].price, p.priceEps)
    ensures AllFresh(p, events + [e])
  {
    var all := events + [e];
    forall n: nat | n < |all|
      ensures FreshEvent(p, all, n)
    {
      assert all[..n] == events[..n];
      LastEventPrefix(all, events, all[n].sign, n);
      if n < |events| {
        assert FreshEvent(p, events, n);
      }
    }
  }

  lemma SpacedAppend(events: seq<Event>, e: Event, m: Memory)
    requires AllSpaced(events) && Tracks(events, e.sign, m) && !TooSoon(m, e.bar)
    ensures AllSpaced(events + [e])
  {
    var all := events + [e];
    forall n: nat | n < |all|
      ensures SpacedEvent(all, n)
    {
      assert all[..n] == events[..n];
      LastEventPrefix(all, events, all[n].sign, n);
      if n < |events| {
        assert SpacedEvent(events, n);
      }
    }
  }

  lemma TracksAppend(events: seq<Event>, e: Event, sign: Sign, m: Memory)
    requires Tracks(events, sign, m) && e.sign != sign
    ensures Tracks(events + [e], sign, m)
  {
    var all := events + [e];
    assert all[..|events|] == events[..|events|];
    LastEventPrefix(all, events, sign, |events|);
  }

  lemma RemembersAppend(events: seq<Event>, e: Event, sign: Sign, m: Memory)
    requires Remembers(events, sign, m)
    ensures Remembers(events + [e], sign, if e.sign == sign then Memory(Some(e.bar), Some(e.key), Some(e.price)) else m)
  {
    var all := events + [e];
    if e.sign != sign {
      assert all[..|events|] == events[..|events|];
      LastEventPrefix(all, events, sign, |events|);
    }
  }

  lemma JustifiedLater(p: Params, h: seq<Bar>, g: seq<Bar>, events: seq<Event>)
    requires AllJustified(p, h, events) && h <= g
    ensures AllJustified(p, g, events)
  {
    forall n: nat | n < |events|
      ensures Justified(p, g, events[n])
    {
      assert Justified(p, h, events[n]);
      assert g[..events[n].bar + 1] == h[..events[n].bar + 1];
    }
  }

  /** The remembered event is one of the list. */
  lemma RememberedJustified(p: Params, h: seq<Bar>, events: seq<Event>, sign: Sign, m: Memory)
    requires Tracks(events, sign, m) && AllJustified(p, h, events) && m.bar.Some?
    ensures m.bar.value < |h| && FirstShortening(p, h[..m.bar.value + 1], sign)
  {
    assert Justified(p, h, events[LastEvent(events, sign, |events|)]);
  }

  lemma NotAlsoBefore(p: Params, h: seq<Bar>, sign: Sign)
    requires p.macdEps >= 0.0 && sign != Zero && FirstShortening(p, h, sign)
    ensures !FirstShortening(p, h[..|h| - 1], sign)
  {
  }

  lemma MemoryBehind(p: Params, h: seq<Bar>, events: seq<Event>, sign: Sign, m: Memory)
    requires Tracks(events, sign, m) && AllJustified(p, h, events)
    ensures m.bar.Some? ==> m.bar.value < |h|
  {
    if m.bar.Some? {
      RememberedJustified(p, h, events, sign, m);
    }
  }

  /** The gap guard: the last signal was on this bar or the one before. */
  predicate TooSoon(m: Memory, bar: nat) {
    m.bar.Some? && bar - m.bar.value <= 1
  }

  /** With a tolerance that is not negative the gap guard has nothing left to do. */
  lemma GapGuardIdle(p: Params, h: seq<Bar>, events: seq<Event>, sign: Sign, m: Memory)
    requires p.macdEps >= 0.0 && sign != Zero && FirstShortening(p, h, sign)
    requires Tracks(events, sign, m) && AllJustified(p, h, events)
    requires m.bar.Some? ==> m.bar.value < |h| - 1
    ensures !TooSoon(m, |h| - 1)
  {
    if m.bar.Some? {
      RememberedJustified(p, h, events, sign, m);
      NotAlsoBefore(p, h, sign);
    }
  }

  /** The same structure again, at a price no further than the last time. */
  predicate Repeats(p: Params, sign: Sign, m: Memory, signal: Signal) {
    m.key == Some(signal.key) && m.price.Some? && !BeatsBy(sign, signal.price, m.price.value, p.priceEps)
  }

  /** Another structure makes the memory forget the last one, before the gap guard is asked. */
  function Forgotten(m: Memory, signal: Signal): Memory {
    if m.price.Some? && m.key != Some(signal.key) then Memory(m.bar, None, None) else m
  }

  function MemoryAfter(p: Params, sign: Sign, m: Memory, signal: Signal, bar: nat): Memory {
    if Repeats(p, sign, m, signal) then m
    else if TooSoon(m, bar) then Forgotten(m, signal)
    else Memory(Some(bar), Some(signal.key), Some(signal.price))
  }

  function EventOf(h: seq<Bar>, sign: Sign, signal: Signal): Event
    requires |h| > 0
  {
    Event(sign, |h| - 1, signal.key, signal.price, signal.legs)
  }

  /** The signal repeats the last event of its direction, whatever is left of the memory. */
  ghost predicate RepeatsLast(p: Params, events: seq<Event>, sign: Sign, signal: Signal) {
    var i := LastEvent(events, sign, |events|);
    i >= 0 && Repeats(p, sign, Memory(Some(events[i].bar), Some(events[i].key), Some(events[i].price)), signal)
  }

  /** A signal the memory lets pass is stale exactly when it repeats the last event and the memory was wiped. */
  lemma StaleExactly(p: Params, h: seq<Bar>, events: seq<Event>, sign: Sign, m: Memory, signal: Signal)
    requires |h| > 0 && Tracks(events, sign, m) && !Repeats(p, sign, m, signal)
    ensures !FreshEvent(p, events + [EventOf(h, sign, signal)], |events|)
            <==> Wiped(events, sign, m) && RepeatsLast(p, events, sign, signal)
  {
    var all := events + [EventOf(h, sign, signal)];
    assert all[..|events|] == events[..|events|];
    LastEventPrefix(all, events, sign, |events|);
  }

  lemma JustifiedAppend(p: Params, h: seq<Bar>, events: seq<Event>, e: Event)
    requires AllJustified(p, h, events) && |h| > 0 && e.bar == |h| - 1 && FirstShortening(p, h, e.sign)
    ensures AllJustified(p, h, events + [e])
  {
    var all := events + [e];
    forall n: nat | n < |all|
      ensures Justified(p, h, all[n])
    {
      if n < |events| {
        assert Justified(p, h, events[n]);
      } else {
        assert h[..|h|] == h;
      }
    }
  }

  /** What every run keeps, and what more it keeps when the tolerance is not negative. */
  ghost predicate Coherent(p: Params, h: seq<Bar>, events: seq<Event>, long: Memory, short: Memory) {
    && Tracks(events, Negative, long)
    && Tracks(events, Positive, short)
    && AllSpaced(events)
    && AllJustified(p, h, events)
    && (p.macdEps >= 0.0 ==>
          Remembers(events, Negative, long) && Remembers(events, Positive, short) && AllFresh(p, events))
  }

  /** A signal that is neither a repeat nor too soon extends the events and replaces the memory of its direction. */
  lemma EventAppend(p: Params, h: seq<Bar>, events: seq<Event>, long: Memory, short: Memory, sign: Sign, signal: Signal)
    requires sign != Zero && FirstShortening(p, h, sign) && Coherent(p, h, events, long, short)
    requires var m := if sign == Negative then long else short;
             !Repeats(p, sign, m, signal) && !TooSoon(m, |h| - 1)
    ensures var m := Memory(Some(|h| - 1), Some(signal.key), Some(signal.price));
            Coherent(p, h, events + [EventOf(h, sign, signal)],
                     if sign == Negative then m else long, if sign == Negative then short else m)
  {
    var e := EventOf(h, sign, signal);
    var m := if sign == Negative then long else short;
    SpacedAppend(events, e, m);
    JustifiedAppend(p, h, events, e);
    if sign == Negative {
      TracksAppend(events, e, Positive, short);
    } else {
      TracksAppend(events, e, Negative, long);
    }
    if p.macdEps >= 0.0 {
      FreshAppend(p, events, e);
      RemembersAppend(events, e, Negative, long);
      RemembersAppend(events, e, Positive, short);
    }
  }

  /** One the gap guard stops changes no event, and the memory only if the tolerance is negative. */
  lemma GuardKeeps(p: Params, h: seq<Bar>, events: seq<Event>, long: Memory, short: Memory, sign: Sign, signal: Signal)
    requires sign != Zero && FirstShortening(p, h, sign) && Coherent(p, h, events, long, short)
    requires var m := if sign == Negative then long else short;
             TooSoon(m, |h| - 1) && m.bar.value < |h| - 1
    ensures p.macdEps < 0.0
    ensures Coherent(p, h, events, if sign == Negative then Forgotten(long, signal) else long,
                     if sign == Negative then short else Forgotten(short, signal))
  {
    if p.macdEps >= 0.0 {
      GapGuardIdle(p, h, events, sign, if sign == Negative then long else short);
    }
  }

  /** With a tolerance that is not negative the gap guard has nothing to stop. */
  lemma GuardIdles(p: Params, h: seq<Bar>, events: seq<Event>, long: Memory, short: Memory, sign: Sign)
    requires sign != Zero && FirstShortening(p, h, sign) && Coherent(p, h, events, long, short) && p.macdEps >= 0.0
    requires var m := if sign == Negative then long else short;
             m.bar.Some? ==> m.bar.value < |h| - 1
    ensures !TooSoon(if sign == Negative then long else short, |h| - 1)
  {
    GapGuardIdle(p, h, events, sign, if sign == Negative then long else short);
  }

  lemma CoherentLater(p: Params, h: seq<Bar>, g: seq<Bar>, events: seq<Event>, long: Memory, short: Memory)
    requires Coherent(p, h, events, long, short) && h <= g
    ensures Coherent(p, g, events, long, short)
    ensures long.bar.Some? ==> long.bar.value < |h|
    ensures short.bar.Some? ==> short.bar.value < |h|
  {
    JustifiedLater(p, h, g, events);
    MemoryBehind(p, h, events, Negative, long);
    MemoryBehind(p, h, events, Positive, short);
  }

  /**
   The strategy's detector. The history only grows, and each direction is asked at most once per bar: seen is
   the longest history shown so far, longAt and shortAt its length when the direction was last asked.
   */
  class TripleDivergence {
    const p: Params
    const minBars: nat
    var longMemory: Memory
    var shortMemory: Memory
    var signalEvents: seq<Event>
    ghost var seen: seq<Bar>
    ghost var longAt: nat
    ghost var shortAt: nat

    function MemoryOf(sign: Sign): Memory
      reads this`longMemory, this`shortMemory
    {
      if sign == Negative then longMemory else shortMemory
    }

    ghost function AskedAt(sign: Sign): nat
      reads this`longAt, this`shortAt
    {
      if sign == Negative then longAt else shortAt
    }

    /** Over any run: repeats are suppressed (AllFresh), signals are justified, the memory is the last event. */
    ghost predicate Valid()
      reads this
    {
      && Coherent(p, seen, signalEvents, longMemory, shortMemory)
      && (longMemory.bar.Some? ==> longMemory.bar.value < longAt)
      && (shortMemory.bar.Some? ==> shortMemory.bar.value < shortAt)
    }

    constructor (p: Params, minBars: nat)
      ensures Valid() && signalEvents == [] && seen == [] && longAt == shortAt == 0
      ensures this.p == p && this.minBars == minBars
    {
      this.p := p;
      this.minBars := minBars;
      longMemory := Memory(None, None, None);
      shortMemory := Memory(None, None, None);
      signalEvents := [];
      seen, longAt, shortAt := [], 0, 0;
    }

    ghost method Show(h: seq<Bar>, sign: Sign)
      requires Valid() && sign != Zero && seen <= h && AskedAt(sign) < |h|
      modifies this`seen, this`longAt, this`shortAt
      ensures Valid() && seen == h
      ensures longAt == if sign == Negative then |h| else old(longAt)
      ensures shortAt == if sign == Negative then old(shortAt) else |h|
      ensures MemoryOf(sign).bar.Some? ==> MemoryOf(sign).bar.value < |h| - 1
    {
      CoherentLater(p, seen, h, signalEvents, longMemory, shortMemory);
      seen := h;
      if sign == Negative {
        longAt := |h|;
      } else {
        shortAt := |h|;
      }
    }

    /**
     One direction on one bar; signal is what the bar shows, whatever the memory says about it. The gap guard matters
     only under a negative tolerance.
     */
    method Detect(h: seq<Bar>, sign: Sign) returns (fired: bool, ghost signal: Option<Signal>)
      requires Valid() && sign != Zero && seen <= h && AskedAt(sign) < |h|
      modifies this
      ensures Valid() && seen == h
      ensures longAt == if sign == Negative then |h| else old(longAt)
      ensures shortAt == if sign == Negative then old(shortAt) else |h|
      ensures IsSignal(p, h, minBars, sign, signal)
      ensures fired <==> signal.Some? && !Repeats(p, sign, old(MemoryOf(sign)), signal.value) &&
                         !TooSoon(old(MemoryOf(sign)), |h| - 1)
      ensures p.macdEps >= 0.0 && signal.Some? ==> !TooSoon(old(MemoryOf(sign)), |h| - 1)
      ensures signalEvents == old(signalEvents) + if fired then [EventOf(h, sign, signal.value)] else []
      ensures fired ==> (!FreshEvent(p, signalEvents, |old(signalEvents)|)
                         <==> old(Wiped(signalEvents, sign, MemoryOf(sign)))
                              && RepeatsLast(p, old(signalEvents), sign, signal.value))
      ensures MemoryOf(sign) == if signal.None? then old(MemoryOf(sign))
                                else MemoryAfter(p, sign, old(MemoryOf(sign)), signal.value, |h| - 1)
      ensures if sign == Negative then shortMemory == old(shortMemory) else longMemory == old(longMemory)
    {
      var found := Evaluate(p, h, minBars, sign);
      signal := found;
      fired := Consider(h, sign, found);
      if fired {
        StaleExactly(p, h, old(signalEvents), sign, old(MemoryOf(sign)), found.value);
      }
    }

    /** What becomes of a bar's signal. */
    method Consider(h: seq<Bar>, sign: Sign, found: Option<Signal>) returns (fired: bool)
      requires Valid() && sign != Zero && seen <= h && AskedAt(sign) < |h|
      requires found.Some? ==> FirstShortening(p, h, sign)
      modifies this
      ensures Valid() && seen == h
      ensures longAt == if sign == Negative then |h| else old(longAt)
      ensures shortAt == if sign == Negative then old(shortAt) else |h|
      ensures fired <==> found.Some? && !Repeats(p, sign, old(MemoryOf(sign)), found.value) &&
                         !TooSoon(old(MemoryOf(sign)), |h| - 1)
      ensures p.macdEps >= 0.0 && found.Some? ==> !TooSoon(old(MemoryOf(sign)), |h| - 1)
      ensures signalEvents == old(signalEvents) + if fired then [EventOf(h, sign, found.value)] else []
      ensures MemoryOf(sign) == if found.None? then old(MemoryOf(sign))
                                else MemoryAfter(p, sign, old(MemoryOf(sign)), found.value, |h| - 1)
      ensures if sign == Negative then shortMemory == old(shortMemory) else longMemory == old(longMemory)
    {
      Show(h, sign);
      if found.None? {
        return false;
      }
      if p.macdEps >= 0.0 {
        GuardIdles(p, h, signalEvents, longMemory, shortMemory, sign);
      }
      fired := Remember(h, sign, found.value);
    }

    /** The memory's part of the check. */
    method Remember(h: seq<Bar>, sign: Sign, current: Signal) returns (fired: bool)
      requires sign != Zero && FirstShortening(p, h, sign)
      requires Coherent(p, h, signalEvents, longMemory, shortMemory)
      requires MemoryOf(sign).bar.Some? ==> MemoryOf(sign).bar.value < |h| - 1
      modifies this`longMemory, this`shortMemory, this`signalEvents
      ensures Coherent(p, h, signalEvents, longMemory, shortMemory)
      ensures fired <==> !Repeats(p, sign, old(MemoryOf(sign)), current) && !TooSoon(old(MemoryOf(sign)), |h| - 1)
      ensures signalEvents == old(signalEvents) + if fired then [EventOf(h, sign, current)] else []
      ensures MemoryOf(sign) == MemoryAfter(p, sign, old(MemoryOf(sign)), current, |h| - 1)
      ensures MemoryOf(sign).bar.Some? ==> MemoryOf(sign).bar.value < |h|
      ensures if sign == Negative then shortMemory == old(shortMemory) else longMemory == old(longMemory)
    {
      var m := MemoryOf(sign);
      if Repeats(p, sign, m, current) {
        return false;
      }
      if m.price.Some? && m.key != Some(current.key) {
        SetMemory(sign, Memory(m.bar, None, None));
      }
      if m.bar.Some? && |h| - 1 - m.bar.value <= 1 {
        GuardKeeps(p, h, signalEvents, old(longMemory), old(shortMemory), sign, current);
        return false;
      }
      EventAppend(p, h, signalEvents, old(longMemory), old(shortMemory), sign, current);
      SetMemory(sign, Memory(Some(|h| - 1), Some(current.key), Some(current.price)));
      signalEvents := signalEvents + [EventOf(h, sign, current)];
      return true;
    }

    method SetMemory(sign: Sign, m: Memory)
      modifies this`longMemory, this`shortMemory
      ensures longMemory == if sign == Negative then m else old(longMemory)
      ensures shortMemory == if sign == Negative then old(shortMemory) else m
    {
      if sign == Negative {
        longMemory := m;
      } else {
        shortMemory := m;
      }
    }
  }
}
