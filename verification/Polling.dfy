/** The polling market stream: rate-limited scheduling, and the candles each stream publishes. */
module Polling {
  import opened Arithmetic
  import opened Common
  import opened KlineStore
  import opened CandleRuns

  // ---- When a stream is polled next ----

  /** How many whole durations fit, as Python's floor division counts them. */
  function Periods(x: real, d: real): int
    requires d > 0.0
  {
    (x / d).Floor
  }

  function NextPollAt(latest: Option<int>, d: real, delay: real, now: real): real
    requires d > 0.0
  {
    var open := if latest.None? then Periods(now, d) as real * d else latest.value as real;
    var target := open + d + delay;
    if target <= now then target + (Periods(now - target, d) + 1) as real * d else target
  }

  lemma Scale(a: real, b: real, c: real)
    requires c > 0.0
    ensures a <= b ==> a * c <= b * c
    ensures a < b ==> a * c < b * c
  {
  }

  lemma OneMore(k: int, d: real)
    ensures (k + 1) as real * d == k as real * d + d
  {
  }

  lemma PeriodsMeaning(x: real, d: real)
    requires d > 0.0
    ensures Periods(x, d) as real * d <= x < Periods(x, d) as real * d + d
  {
    var q := x / d;
    var n := q.Floor;
    assert n == Periods(x, d) && q * d == x && n as real <= q < (n + 1) as real;
    Scale(n as real, q, d);
    Scale(q, (n + 1) as real, d);
    OneMore(n, d);
  }

  function PollPoint(latest: int, d: real, delay: real, k: int): real {
    latest as real + delay + k as real * d
  }

  function PollIndex(latest: int, d: real, delay: real, now: real): int
    requires d > 0.0
  {
    var target := latest as real + d + delay;
    if target <= now then Periods(now - target, d) + 2 else 1
  }

  lemma NextPollIsPoint(latest: int, d: real, delay: real, now: real)
    requires d > 0.0
    ensures NextPollAt(Some(latest), d, delay, now) == PollPoint(latest, d, delay, PollIndex(latest, d, delay, now))
    ensures NextPollAt(Some(latest), d, delay, now) > now
    ensures PollIndex(latest, d, delay, now) >= 1
    ensures PollIndex(latest, d, delay, now) > 1 ==>
              PollPoint(latest, d, delay, PollIndex(latest, d, delay, now) - 1) <= now
  {
    var target := latest as real + d + delay;
    if target <= now {
      var p := Periods(now - target, d);
      PeriodsMeaning(now - target, d);
      Scale((p + 1) as real, 0.0, d);
      OneMore(p, d);
      OneMore(p + 1, d);
    }
  }

  lemma PollPointsOrdered(latest: int, d: real, delay: real, j: int, k: int)
    requires d > 0.0
    ensures j <= k ==> PollPoint(latest, d, delay, j) <= PollPoint(latest, d, delay, k)
    ensures j < k ==> PollPoint(latest, d, delay, j) < PollPoint(latest, d, delay, k)
  {
    Scale(j as real, k as real, d);
  }

  /** With the newest open time known: the least L + delay + k·d, k >= 1, that lies after now. */
  lemma NextPollIsLeast(latest: int, d: real, delay: real, now: real, k: int)
    requires d > 0.0 && k >= 1
    ensures PollPoint(latest, d, delay, k) > now
            <==> NextPollAt(Some(latest), d, delay, now) <= PollPoint(latest, d, delay, k)
  {
    NextPollIsPoint(latest, d, delay, now);
    var n := PollIndex(latest, d, delay, now);
    if k < n {
      PollPointsOrdered(latest, d, delay, k, n - 1);
      PollPointsOrdered(latest, d, delay, k, n);
    } else {
      PollPointsOrdered(latest, d, delay, n, k);
    }
  }

  /** Without one, still after now. */
  lemma NextPollIsLater(d: real, delay: real, now: real)
    requires d > 0.0 && delay >= 0.0
    ensures now < NextPollAt(None, d, delay, now) <= now + d + delay
  {
    PeriodsMeaning(now, d);
  }

  // ---- What one successful poll publishes ----

  /** `published` lists the open times handed to the subscriber; `rank` orders the stream names. */
  datatype StreamState = StreamState(
    d: int, rank: nat, nextPollAt: real, baseline: bool, lastPublished: Option<int>, published: seq<int>)

  /** The first success only sets the baseline; later ones publish what closed after the last published candle. */
  function Publish(s: StreamState, fetched: seq<Kline>, now: int): StreamState {
    var closed := ClosedKlines(fetched, now);
    if !s.baseline then
      s.(baseline := true, lastPublished := if closed == [] then None else Some(closed[|closed| - 1].openTime))
    else
      var pending := NewAfter(closed, s.lastPublished);
      s.(published := s.published + Opens(pending),
         lastPublished := if pending == [] then s.lastPublished else Some(pending[|pending| - 1].openTime))
  }

  /** Candles come once each, and the closed ones are those of the grid from `oldest` to `newest`. */
  ghost predicate FetchesGrid(fetched: seq<Kline>, now: int, oldest: int, newest: int, d: int)
    requires d > 0
  {
    && Distinct(fetched)
    && forall t {:trigger FetchedClosed(fetched, now, t)} ::
         FetchedClosed(fetched, now, t) <==> OnGrid(t, oldest, newest, d)
  }

  /** How many candles of the grid opened after `last`, up to `newest`. */
  function NewCount(last: int, newest: int, d: int): nat
    requires d > 0
  {
    if newest <= last then 0 else (newest - last) / d
  }

  lemma GridAfter(t: int, oldest: int, newest: int, last: int, d: int)
    requires d > 0 && (newest - last) % d == 0 && (newest - oldest) % d == 0
    requires oldest <= last + d
    ensures OnGrid(t, oldest, newest, d) && t > last <==> OnRun(t, last + d, NewCount(last, newest, d), d)
    ensures NewCount(last, newest, d) * d == if newest <= last then 0 else newest - last
  {
    var c := NewCount(last, newest, d);
    assert newest > last ==> c * d == newest - last;
    Quotient(d, 1, d);
    Multiples(newest - oldest, newest - last, d);
    assert (newest - oldest) - (newest - last) == last - oldest;
    if OnGrid(t, oldest, newest, d) && t > last {
      Multiples(t - oldest, last - oldest, d);
      Multiples(t - last, d, d);
      StepAfter(t, last, d);
    }
    if OnRun(t, last + d, c, d) {
      SumOnGrid(t - last - d, d, d);
      SumOnGrid(t - last, last - oldest, d);
      Multiples(t - last, newest - last, d);
      Steps(((t - last) - (newest - last)) / d, d);
    }
  }

  /** A point of the grid after another is a whole step after it. */
  lemma StepAfter(t: int, last: int, d: int)
    requires d > 0 && (t - last) % d == 0 && t > last
    ensures t >= last + d
  {
  }

  /** The new candles of a poll that reaches back far enough are those of the run after the last published one. */
  lemma PendingOnRun(fetched: seq<Kline>, now: int, oldest: int, newest: int, last: int, d: int, t: int)
    requires d > 0 && FetchesGrid(fetched, now, oldest, newest, d)
    requires (newest - last) % d == 0 && (newest - oldest) % d == 0 && oldest <= last + d
    ensures HasOpen(NewAfter(ClosedKlines(fetched, now), Some(last)), t)
            <==> OnRun(t, last + d, NewCount(last, newest, d), d)
  {
    ClosedKlinesAscend(fetched, now);
    NewAfterMeaning(ClosedKlines(fetched, now), last);
    ClosedKlinesMeaning(fetched, now, t);
    GridAfter(t, oldest, newest, last, d);
    assert FetchedClosed(fetched, now, t) <==> OnGrid(t, oldest, newest, d);
  }

  lemma PendingIsRun(fetched: seq<Kline>, now: int, oldest: int, newest: int, last: int, d: int)
    requires d > 0 && FetchesGrid(fetched, now, oldest, newest, d)
    requires (newest - last) % d == 0 && (newest - oldest) % d == 0 && oldest <= last + d
    ensures Opens(NewAfter(ClosedKlines(fetched, now), Some(last))) == GridRun(last + d, NewCount(last, newest, d), d)
  {
    var pending := NewAfter(ClosedKlines(fetched, now), Some(last));
    ClosedKlinesAscend(fetched, now);
    NewAfterMeaning(ClosedKlines(fetched, now), last);
    forall t
      ensures HasOpen(pending, t) <==> OnRun(t, last + d, NewCount(last, newest, d), d)
    {
      PendingOnRun(fetched, now, oldest, newest, last, d, t);
    }
    AscendingIsRun(pending, last + d, NewCount(last, newest, d), d);
  }

  /** The last candle of a run. */
  lemma LastOfRun(ks: seq<Kline>, from: int, count: nat, d: int)
    requires Opens(ks) == GridRun(from, count, d)
    ensures |ks| == count
    ensures count > 0 ==> ks[count - 1].openTime == from + count * d - d
  {
    assert |Opens(ks)| == |GridRun(from, count, d)|;
    if count > 0 {
      assert ks[count - 1].openTime == Opens(ks)[count - 1] == from + (count - 1) * d;
      assert (count - 1) * d == count * d - d;
    }
  }

  /** A poll that reaches back to the candle after the last published one continues the run without a gap. */
  lemma PublishContinues(s: StreamState, fetched: seq<Kline>, now: int, oldest: int, newest: int)
    requires s.d > 0 && s.baseline && s.lastPublished.Some? && FetchesGrid(fetched, now, oldest, newest, s.d)
    requires var last := s.lastPublished.value;
             (newest - last) % s.d == 0 && (newest - oldest) % s.d == 0 && oldest <= last + s.d
    ensures var last := s.lastPublished.value;
            var c := NewCount(last, newest, s.d);
            && Publish(s, fetched, now).published == s.published + GridRun(last + s.d, c, s.d)
            && Publish(s, fetched, now).lastPublished == Some(last + c * s.d)
  {
    var last, d := s.lastPublished.value, s.d;
    var c := NewCount(last, newest, d);
    PendingIsRun(fetched, now, oldest, newest, last, d);
    LastOfRun(NewAfter(ClosedKlines(fetched, now), Some(last)), last + d, c, d);
  }

  /** The times published from position n on are all later than b, and so will be those of later polls. */
  predicate Above(s: StreamState, n: nat, b: int) {
    && s.baseline && s.lastPublished.Some? && s.lastPublished.value > b
    && n <= |s.published|
    && forall k :: n <= k < |s.published| ==> s.published[k] > b
  }

  lemma {:induction false} NewIsLater(ks: seq<Kline>, last: int, i: nat)
    requires i < |NewAfter(ks, Some(last))|
    ensures NewAfter(ks, Some(last))[i].openTime > last
  {
    var before := NewAfter(ks[..|ks| - 1], Some(last));
    if i < |before| {
      NewIsLater(ks[..|ks| - 1], last, i);
    }
  }

  /** Whatever is fetched, nothing at or before b is published once the stream is past b. */
  lemma PublishStaysAbove(s: StreamState, fetched: seq<Kline>, now: int, n: nat, b: int)
    requires Above(s, n, b)
    ensures Above(Publish(s, fetched, now), n, b) && s.published <= Publish(s, fetched, now).published
  {
    var closed := ClosedKlines(fetched, now);
    var pending := NewAfter(closed, s.lastPublished);
    var t := Publish(s, fetched, now);
    forall k | n <= k < |t.published|
      ensures t.published[k] > b
    {
      if k >= |s.published| {
        NewIsLater(closed, s.lastPublished.value, k - |s.published|);
      }
    }
    if pending != [] {
      NewIsLater(closed, s.lastPublished.value, |pending| - 1);
    }
  }

  /** A poll that does not reach back leaves a gap: what it publishes starts beyond the candle that was next. */
  lemma PublishSkips(s: StreamState, fetched: seq<Kline>, now: int, oldest: int, newest: int)
    requires s.d > 0 && s.baseline && s.lastPublished.Some? && FetchesGrid(fetched, now, oldest, newest, s.d)
    requires oldest > s.lastPublished.value + s.d && oldest <= newest
    ensures var p := Publish(s, fetched, now);
            && |p.published| > |s.published| && s.published <= p.published
            && Above(p, |s.published|, s.lastPublished.value + s.d)
  {
    var last, d := s.lastPublished.value, s.d;
    var closed := ClosedKlines(fetched, now);
    var pending := NewAfter(closed, s.lastPublished);
    ClosedKlinesAscend(fetched, now);
    NewAfterMeaning(closed, last);
    Quotient(0, 0, d);
    ClosedKlinesMeaning(fetched, now, oldest);
    assert FetchedClosed(fetched, now, oldest);
    assert HasOpen(pending, oldest);
    forall i | 0 <= i < |pending|
      ensures Opens(pending)[i] == pending[i].openTime >= oldest
    {
      var t := pending[i].openTime;
      assert HasOpen(pending, t);
      ClosedKlinesMeaning(fetched, now, t);
      assert FetchedClosed(fetched, now, t);
    }
  }

  // ---- Whole runs of polls ----

  /** A successful poll: what was fetched, and the clock its closed candles were told by. */
  datatype Poll = Poll(fetched: seq<Kline>, now: int)

  /** The oldest and the newest closed candle of a poll. */
  datatype Window = Window(oldest: int, newest: int)

  function AfterPolls(s: StreamState, polls: seq<Poll>): StreamState
    decreases |polls|
  {
    if polls == [] then s
    else
      var p := polls[|polls| - 1];
      Publish(AfterPolls(s, polls[..|polls| - 1]), p.fetched, p.now)
  }

  lemma {:induction false} PollsJoin(s: StreamState, a: seq<Poll>, b: seq<Poll>)
    ensures AfterPolls(s, a + b) == AfterPolls(AfterPolls(s, a), b)
    decreases |b|
  {
    if b == [] {
      assert a + b == a;
    } else {
      assert (a + b)[..|a + b| - 1] == a + b[..|b| - 1];
      PollsJoin(s, a, b[..|b| - 1]);
    }
  }

  lemma {:induction false} PollsStayAbove(s: StreamState, polls: seq<Poll>, n: nat, b: int)
    requires Above(s, n, b)
    ensures Above(AfterPolls(s, polls), n, b) && s.published <= AfterPolls(s, polls).published
    decreases |polls|
  {
    if polls != [] {
      var init, p := polls[..|polls| - 1], polls[|polls| - 1];
      PollsStayAbove(s, init, n, b);
      PublishStaysAbove(AfterPolls(s, init), p.fetched, p.now, n, b);
    }
  }

  /** The candle that a poll skips is never published, whatever later polls bring. */
  lemma SkippedForGood(
    s: StreamState, fetched: seq<Kline>, now: int, oldest: int, newest: int, later: seq<Poll>)
    requires s.d > 0 && s.baseline && s.lastPublished.Some? && FetchesGrid(fetched, now, oldest, newest, s.d)
    requires oldest > s.lastPublished.value + s.d && oldest <= newest
    ensures var skipped := s.lastPublished.value + s.d;
            var p := AfterPolls(Publish(s, fetched, now), later).published;
            && s.published < p
            && forall k :: |s.published| <= k < |p| ==> p[k] > skipped
  {
    PublishSkips(s, fetched, now, oldest, newest);
    PollsStayAbove(Publish(s, fetched, now), later, |s.published|, s.lastPublished.value + s.d);
  }

  function NewestSeen(last: int, windows: seq<Window>): int {
    if windows == [] then last else windows[|windows| - 1].newest
  }

  /**
   Each poll returns the newest `limit` candles of the grid, at most one of them still open, and at most limit - 1
   candles close from one successful poll to the next.
   */
  ghost predicate KeepsUp(last: int, polls: seq<Poll>, windows: seq<Window>, limit: int, d: int)
    requires d > 0 && |polls| == |windows|
    decreases |polls|
  {
    polls != [] ==>
      var p, w := polls[|polls| - 1], windows[|windows| - 1];
      var before := NewestSeen(last, windows[..|windows| - 1]);
      && KeepsUp(last, polls[..|polls| - 1], windows[..|windows| - 1], limit, d)
      && FetchesGrid(p.fetched, p.now, w.oldest, w.newest, d)
      && (w.newest - before) % d == 0 && (w.newest - w.oldest) % d == 0
      && w.oldest <= w.newest - (limit - 2) * d
      && before <= w.newest <= before + (limit - 1) * d
  }

  /** From the baseline on, the published times are the next ones of the grid, each once. */
  predicate Gapless(s: StreamState, base: int, newest: int) {
    && s.d > 0 && s.baseline && s.lastPublished == Some(newest)
    && newest == base + |s.published| * s.d
    && s.published == GridRun(base + s.d, |s.published|, s.d)
  }

  lemma {:induction false} RunIsGapless(
    s: StreamState, base: int, last: int, polls: seq<Poll>, windows: seq<Window>, limit: int)
    requires |polls| == |windows| && Gapless(s, base, last) && KeepsUp(last, polls, windows, limit, s.d)
    ensures Gapless(AfterPolls(s, polls), base, NewestSeen(last, windows)) && AfterPolls(s, polls).d == s.d
    decreases |polls|
  {
    if polls != [] {
      var init, p := polls[..|polls| - 1], polls[|polls| - 1];
      var past, w := windows[..|windows| - 1], windows[|windows| - 1];
      var before := NewestSeen(last, past);
      var r := AfterPolls(s, init);
      RunIsGapless(s, base, last, init, past, limit);
      assert (limit - 1) * s.d == (limit - 2) * s.d + s.d;
      PublishContinues(r, p.fetched, p.now, w.oldest, w.newest);
      RunsConcat(base, |r.published|, NewCount(before, w.newest, s.d), s.d);
      GridAfter(before, w.oldest, w.newest, before, s.d);
    }
  }

  lemma RunsConcat(base: int, m: nat, n: nat, d: int)
    ensures GridRun(base + d, m, d) + GridRun(base + m * d + d, n, d) == GridRun(base + d, m + n, d)
    ensures base + m * d + n * d == base + (m + n) * d
  {
  }

  // ---- From the first poll on ----

  /** Nothing published, and no candle known. */
  predicate Blank(s: StreamState) {
    s.d > 0 && s.lastPublished.None? && s.published == []
  }

  predicate NothingClosed(p: Poll) {
    ClosedKlines(p.fetched, p.now) == []
  }

  /** Polls that find nothing closed leave the stream blank; the first of them counts as its baseline. */
  lemma {:induction false} StaysBlank(s: StreamState, quiet: seq<Poll>)
    requires Blank(s) && forall q | q in quiet :: NothingClosed(q)
    ensures Blank(AfterPolls(s, quiet)) && AfterPolls(s, quiet).d == s.d
    ensures AfterPolls(s, quiet).baseline <==> s.baseline || quiet != []
    decreases |quiet|
  {
    if quiet != [] {
      StaysBlank(s, quiet[..|quiet| - 1]);
      assert NothingClosed(quiet[|quiet| - 1]);
    }
  }

  /** How many candles the grid has from `oldest` to `newest`. */
  function GridCount(oldest: int, newest: int, d: int): nat
    requires d > 0 && oldest <= newest
  {
    (newest - oldest) / d + 1
  }

  lemma GridIsRun(t: int, oldest: int, newest: int, d: int)
    requires d > 0 && oldest <= newest && (newest - oldest) % d == 0
    ensures OnGrid(t, oldest, newest, d) <==> OnRun(t, oldest, GridCount(oldest, newest, d), d)
    ensures GridCount(oldest, newest, d) * d == newest - oldest + d
  {
    Multiples(newest - oldest, 0, d);
    assert GridCount(oldest, newest, d) * d == (newest - oldest) / d * d + d;
    if OnRun(t, oldest, GridCount(oldest, newest, d), d) {
      Multiples(t - oldest, newest - oldest, d);
      Steps(((t - oldest) - (newest - oldest)) / d, d);
    }
  }

  lemma ClosedIsRun(fetched: seq<Kline>, now: int, oldest: int, newest: int, d: int)
    requires d > 0 && oldest <= newest && (newest - oldest) % d == 0 && FetchesGrid(fetched, now, oldest, newest, d)
    ensures Opens(ClosedKlines(fetched, now)) == GridRun(oldest, GridCount(oldest, newest, d), d)
  {
    var closed := ClosedKlines(fetched, now);
    ClosedKlinesAscend(fetched, now);
    forall t
      ensures HasOpen(closed, t) <==> OnRun(t, oldest, GridCount(oldest, newest, d), d)
    {
      ClosedKlinesMeaning(fetched, now, t);
      GridIsRun(t, oldest, newest, d);
      assert FetchedClosed(fetched, now, t) <==> OnGrid(t, oldest, newest, d);
    }
    AscendingIsRun(closed, oldest, GridCount(oldest, newest, d), d);
  }

  lemma {:induction false} AllAreNew(ks: seq<Kline>)
    ensures NewAfter(ks, None) == ks
    decreases |ks|
  {
    if ks != [] {
      AllAreNew(ks[..|ks| - 1]);
    }
  }

  /** The first closed candles are the baseline, or, after a baseline without any, are all published. */
  lemma FirstCandles(s: StreamState, fetched: seq<Kline>, now: int, oldest: int, newest: int)
    requires Blank(s) && FetchesGrid(fetched, now, oldest, newest, s.d)
    requires oldest <= newest && (newest - oldest) % s.d == 0
    ensures Gapless(Publish(s, fetched, now), if s.baseline then oldest - s.d else newest, newest)
  {
    var closed, c := ClosedKlines(fetched, now), GridCount(oldest, newest, s.d);
    ClosedIsRun(fetched, now, oldest, newest, s.d);
    GridIsRun(oldest, oldest, newest, s.d);
    LastOfRun(closed, oldest, c, s.d);
    AllAreNew(closed);
    if s.baseline {
      assert Publish(s, fetched, now).published == GridRun(oldest, c, s.d);
    }
  }

  /**
   From the very first poll: after any polls that find nothing closed, the first that does makes a baseline, and
   if the later ones keep up, what is published has no gap and no repeat.
   */
  lemma StartIsGapless(
    s: StreamState, quiet: seq<Poll>, first: Poll, w: Window, later: seq<Poll>, windows: seq<Window>, limit: int)
    requires Blank(s) && !s.baseline && forall q | q in quiet :: NothingClosed(q)
    requires FetchesGrid(first.fetched, first.now, w.oldest, w.newest, s.d)
    requires w.oldest <= w.newest && (w.newest - w.oldest) % s.d == 0
    requires |later| == |windows| && KeepsUp(w.newest, later, windows, limit, s.d)
    ensures Gapless(AfterPolls(s, quiet + [first] + later), if quiet == [] then w.newest else w.oldest - s.d,
                    NewestSeen(w.newest, windows))
  {
    var b := AfterPolls(s, quiet);
    StaysBlank(s, quiet);
    FirstCandles(b, first.fetched, first.now, w.oldest, w.newest);
    assert (quiet + [first])[..|quiet|] == quiet;
    PollsJoin(s, quiet + [first], later);
    RunIsGapless(Publish(b, first.fetched, first.now), if quiet == [] then w.newest else w.oldest - s.d, w.newest,
                 later, windows, limit);
  }

  /** A stream before its first poll. */
  function NewStream(d: int, rank: nat): StreamState {
    StreamState(d, rank, 0.0, false, None, [])
  }

  /** But for its next poll time, the stream is what these polls made of a new one. */
  predicate ComesFrom(s: StreamState, polls: seq<Poll>) {
    s.d > 0 && s == AfterPolls(NewStream(s.d, s.rank), polls).(nextPollAt := s.nextPollAt)
  }

  lemma {:induction false} PollsKeepKey(s: StreamState, polls: seq<Poll>)
    ensures AfterPolls(s, polls).d == s.d && AfterPolls(s, polls).rank == s.rank
    decreases |polls|
  {
    if polls != [] {
      PollsKeepKey(s, polls[..|polls| - 1]);
    }
  }

  lemma OneMorePoll(s: StreamState, polls: seq<Poll>, fetched: seq<Kline>, now: int, next: real)
    requires ComesFrom(s, polls)
    ensures ComesFrom(Publish(s, fetched, now).(nextPollAt := next), polls + [Poll(fetched, now)])
  {
    assert (polls + [Poll(fetched, now)])[..|polls|] == polls;
    PollsKeepKey(NewStream(s.d, s.rank), polls);
  }

  // ---- The scheduler ----

  /** One request to the exchange: when, and when its stream was due. */
  datatype Request = Request(at: real, dueAt: real)

  /** The order of the scheduler's choice: due first, then shorter intervals, then names. */
  predicate ChosenBefore(a: StreamState, b: StreamState, now: real) {
    var x := if a.nextPollAt <= now then 0.0 else a.nextPollAt;
    var y := if b.nextPollAt <= now then 0.0 else b.nextPollAt;
    x < y || (x == y && (a.d < b.d || (a.d == b.d && a.rank <= b.rank)))
  }

  predicate IsChoice(streams: seq<StreamState>, i: nat, n: nat, now: real)
    requires i < |streams| && n <= |streams|
  {
    forall j :: 0 <= j < n ==> ChosenBefore(streams[i], streams[j], now)
  }

  /** If any stream is due, the one chosen is, and no due stream has a shorter interval. */
  lemma ChoiceIsDue(streams: seq<StreamState>, i: nat, j: nat, now: real)
    requires i < |streams| && j < |streams| && now >= 0.0 && IsChoice(streams, i, |streams|, now)
    requires streams[j].nextPollAt <= now
    ensures streams[i].nextPollAt <= now && streams[i].d <= streams[j].d
  {
  }

  predicate RanksDiffer(streams: seq<StreamState>, i: nat, j: nat)
    requires i < |streams| && j < |streams|
  {
    streams[i].rank != streams[j].rank
  }

  /** Streams have one name each. */
  ghost predicate DistinctRanks(streams: seq<StreamState>) {
    forall i: nat, j: nat {:trigger RanksDiffer(streams, i, j)} :: i < j < |streams| ==> RanksDiffer(streams, i, j)
  }

  lemma SameRanks(before: seq<StreamState>, after: seq<StreamState>)
    requires DistinctRanks(before) && |after| == |before|
    requires forall i :: 0 <= i < |before| ==> after[i].rank == before[i].rank
    ensures DistinctRanks(after)
  {
    forall i: nat, j: nat | i < j < |after|
      ensures RanksDiffer(after, i, j)
    {
      assert RanksDiffer(before, i, j);
    }
  }

  predicate Spaced(requests: seq<Request>, i: nat, spacing: real)
    requires i < |requests|
  {
    && requests[i].dueAt <= requests[i].at
    && (i > 0 ==> requests[i].at >= requests[i - 1].at + spacing)
  }

  class CcxtPollingMarketStreamAdapter {
    const spacing: real
    const delay: real
    var streams: seq<StreamState>
    var lastRequestAt: Option<real>
    ghost var requests: seq<Request>
    /** The successful polls of each stream. */
    ghost var polls: seq<seq<Poll>>

    ghost predicate Valid()
      reads this
    {
      && spacing >= 0.0 && delay >= 0.0
      && (forall i :: 0 <= i < |streams| ==> streams[i].d > 0)
      && |polls| == |streams|
      && DistinctRanks(streams)
      && (forall i: nat {:trigger ComesFrom(streams[i], polls[i])} :: i < |streams| ==> ComesFrom(streams[i], polls[i]))
      && (lastRequestAt.None? <==> requests == [])
      && (requests != [] ==> lastRequestAt == Some(requests[|requests| - 1].at))
      && forall i: nat {:trigger Spaced(requests, i, spacing)} :: i < |requests| ==> Spaced(requests, i, spacing)
    }

    constructor (spacing: real, delay: real)
      ensures Valid() && streams == [] && requests == [] && polls == []
      ensures this.spacing == Max(0.0, spacing) && this.delay == Max(0.0, delay)
    {
      this.spacing, this.delay := Max(0.0, spacing), Max(0.0, delay);
      streams, lastRequestAt, requests, polls := [], None, [], [];
    }

    /** A new stream is due at once. */
    method Start(d: int, rank: nat, now: real)
      requires Valid() && d > 0
      modifies this
      ensures Valid() && requests == old(requests)
      ensures if exists i :: 0 <= i < |old(streams)| && old(streams)[i].rank == rank
              then streams == old(streams) && polls == old(polls)
              else streams == old(streams) + [NewStream(d, rank).(nextPollAt := now)] && polls == old(polls) + [[]]
    {
      if !exists i :: 0 <= i < |streams| && streams[i].rank == rank {
        ghost var s, p := streams, polls;
        streams, polls := streams + [NewStream(d, rank).(nextPollAt := now)], polls + [[]];
        forall i: nat | i < |streams|
          ensures ComesFrom(streams[i], polls[i])
        {
          assert i < |s| ==> ComesFrom(s[i], p[i]);
        }
        forall i: nat, j: nat | i < j < |streams|
          ensures RanksDiffer(streams, i, j)
        {
          assert j < |s| ==> RanksDiffer(s, i, j);
        }
      }
    }

    /** The stream of this name, if there is one, is gone; the spacing of requests goes on. */
    method Stop(rank: nat)
      requires Valid()
      modifies this
      ensures Valid() && requests == old(requests) && lastRequestAt == old(lastRequestAt)
      ensures forall j :: 0 <= j < |streams| ==> streams[j].rank != rank
      ensures (forall j :: 0 <= j < |old(streams)| ==> old(streams)[j].rank != rank) ==>
                streams == old(streams) && polls == old(polls)
      ensures forall i: nat :: i < |old(streams)| && old(streams)[i].rank == rank ==>
                && streams == old(streams)[..i] + old(streams)[i + 1..]
                && polls == old(polls)[..i] + old(polls)[i + 1..]
    {
      for k := 0 to |streams|
        invariant streams == old(streams) && polls == old(polls)
        invariant forall j :: 0 <= j < k ==> streams[j].rank != rank
      {
        if streams[k].rank == rank {
          Remove(k);
          return;
        }
      }
    }

    method Remove(k: nat)
      requires Valid() && k < |streams|
      modifies this`streams, this`polls
      ensures Valid()
      ensures streams == old(streams)[..k] + old(streams)[k + 1..] && polls == old(polls)[..k] + old(polls)[k + 1..]
      ensures forall j :: 0 <= j < |streams| ==> streams[j].rank != old(streams)[k].rank
      ensures forall i: nat :: i < |old(streams)| && old(streams)[i].rank == old(streams)[k].rank ==> i == k
    {
      ghost var s, p := streams, polls;
      streams, polls := streams[..k] + streams[k + 1..], polls[..k] + polls[k + 1..];
      forall i: nat | i < |streams|
        ensures ComesFrom(streams[i], polls[i])
        ensures streams[i].rank != s[k].rank && streams[i].d > 0
      {
        var was := if i < k then i else i + 1;
        assert ComesFrom(s[was], p[was]);
        assert if i < k then RanksDiffer(s, i, k) else RanksDiffer(s, k, i + 1);
      }
      forall i: nat, j: nat | i < j < |streams|
        ensures RanksDiffer(streams, i, j)
      {
        assert RanksDiffer(s, if i < k then i else i + 1, if j < k then j else j + 1);
      }
      forall i: nat | i < |s| && i != k
        ensures s[i].rank != s[k].rank
      {
        assert if i < k then RanksDiffer(s, i, k) else RanksDiffer(s, k, i);
      }
    }

    /**
     Over any run of the scheduler: what a stream has published since its first poll that found a closed candle has
     no gap and no repeat, if its polls since then kept up.
     */
    lemma StreamIsGapless(
      i: nat, quiet: seq<Poll>, first: Poll, w: Window, later: seq<Poll>, windows: seq<Window>, limit: int)
      requires Valid() && i < |streams| && polls[i] == quiet + [first] + later
      requires forall q | q in quiet :: NothingClosed(q)
      requires FetchesGrid(first.fetched, first.now, w.oldest, w.newest, streams[i].d)
      requires w.oldest <= w.newest && (w.newest - w.oldest) % streams[i].d == 0
      requires |later| == |windows| && KeepsUp(w.newest, later, windows, limit, streams[i].d)
      ensures Gapless(streams[i], if quiet == [] then w.newest else w.oldest - streams[i].d,
                      NewestSeen(w.newest, windows))
    {
      assert ComesFrom(streams[i], polls[i]);
      StartIsGapless(NewStream(streams[i].d, streams[i].rank), quiet, first, w, later, windows, limit);
    }

    method NextDueStream(now: real) returns (chosen: Option<nat>)
      ensures chosen.None? <==> streams == []
      ensures chosen.Some? ==> chosen.value < |streams| && IsChoice(streams, chosen.value, |streams|, now)
    {
      if streams == [] {
        return None;
      }
      var best := 0;
      for j := 1 to |streams|
        invariant best < |streams| && IsChoice(streams, best, j, now)
      {
        if !ChosenBefore(streams[best], streams[j], now) {
          assert forall k :: 0 <= k < j ==> ChosenBefore(streams[best], streams[k], now);
          best := j;
        }
      }
      return Some(best);
    }

    /**
     One fetch, at `now`; `fetched` is None when it fails. The later clock readings are for the closed test and for
     the next poll.
     */
    method PollStream(i: nat, now: real, fetched: Option<seq<Kline>>, closedAt: int, later: real)
      requires Valid() && i < |streams| && streams[i].nextPollAt <= now
      requires lastRequestAt.Some? ==> now >= lastRequestAt.value + spacing
      modifies this
      ensures Valid() && requests == old(requests) + [Request(now, old(streams)[i].nextPollAt)]
      ensures |streams| == |old(streams)| && forall j :: 0 <= j < |streams| && j != i ==> streams[j] == old(streams)[j]
      ensures streams[i].nextPollAt > later
      ensures polls == if fetched.None? then old(polls)
                       else old(polls)[i := old(polls)[i] + [Poll(fetched.value, closedAt)]]
      ensures fetched.None? ==> streams[i] == old(streams)[i].(nextPollAt := later + Max(spacing, 1.0))
      ensures fetched.Some? ==>
                var s := Publish(old(streams)[i], fetched.value, closedAt);
                streams[i] == s.(nextPollAt := NextPollAt(s.lastPublished, s.d as real, delay, later))
    {
      NoteRequest(now, streams[i].nextPollAt);
      if fetched.None? {
        Reschedule(i, later + Max(spacing, 1.0));
        return;
      }
      var s := PublishNew(streams[i], fetched.value, closedAt);
      if s.lastPublished.Some? {
        NextPollIsPoint(s.lastPublished.value, s.d as real, delay, later);
      } else {
        NextPollIsLater(s.d as real, delay, later);
      }
      var next := NextPollAt(s.lastPublished, s.d as real, delay, later);
      OneMorePoll(streams[i], polls[i], fetched.value, closedAt, next);
      SetStream(i, s.(nextPollAt := next), polls[i] + [Poll(fetched.value, closedAt)]);
    }

    method NoteRequest(now: real, dueAt: real)
      requires Valid() && dueAt <= now
      requires lastRequestAt.Some? ==> now >= lastRequestAt.value + spacing
      modifies this`requests, this`lastRequestAt
      ensures Valid() && requests == old(requests) + [Request(now, dueAt)]
    {
      ghost var before := requests;
      requests := requests + [Request(now, dueAt)];
      lastRequestAt := Some(now);
      forall k: nat | k < |requests|
        ensures Spaced(requests, k, spacing)
      {
        assert k < |before| ==> Spaced(before, k, spacing);
      }
    }

    method SetStream(i: nat, s: StreamState, ghost history: seq<Poll>)
      requires Valid() && i < |streams| && ComesFrom(s, history) && s.rank == streams[i].rank
      modifies this`streams, this`polls
      ensures Valid() && streams == old(streams)[i := s] && polls == old(polls)[i := history]
    {
      ghost var was, past := streams, polls;
      streams, polls := streams[i := s], polls[i := history];
      forall j: nat | j < |streams|
        ensures ComesFrom(streams[j], polls[j])
      {
        assert ComesFrom(was[j], past[j]);
      }
      SameRanks(was, streams);
    }

    method Reschedule(i: nat, next: real)
      requires Valid() && i < |streams|
      modifies this`streams
      ensures Valid() && streams == old(streams)[i := old(streams)[i].(nextPollAt := next)]
    {
      ghost var was := streams;
      streams := streams[i := streams[i].(nextPollAt := next)];
      forall j: nat | j < |streams|
        ensures ComesFrom(streams[j], polls[j])
      {
        assert ComesFrom(was[j], polls[j]);
      }
      SameRanks(was, streams);
    }

    /** The subscriber is called once for each new closed candle, in order. */
    method PublishNew(s: StreamState, fetched: seq<Kline>, now: int) returns (r: StreamState)
      requires s.d > 0
      ensures r == Publish(s, fetched, now)
    {
      var closed := ClosedKlines(fetched, now);
      if !s.baseline {
        return s.(baseline := true,
                  lastPublished := if closed == [] then None else Some(closed[|closed| - 1].openTime));
      }
      var pending := NewAfter(closed, s.lastPublished);
      r := s.(lastPublished := if pending == [] then s.lastPublished else Some(pending[|pending| - 1].openTime));
      for j := 0 to |pending|
        invariant r == s.(lastPublished := r.lastPublished, published := s.published + Opens(pending[..j]))
        invariant r.lastPublished == Publish(s, fetched, now).lastPublished
      {
        assert Opens(pending[..j + 1]) == Opens(pending[..j]) + [pending[j].openTime];
        r := r.(published := r.published + [pending[j].openTime]);
      }
      assert pending[..|pending|] == pending;
    }

    /**
     One turn of the scheduler loop under a clock that does not run backwards: the chosen stream `at` is polled exactly
     when it is due and the last request is at least the spacing ago.
     */
    method Turn(t0: real, t1: real, t2: real, fetched: Option<seq<Kline>>, closedAt: int, t3: real)
        returns (polled: bool, ghost at: nat)
      requires Valid() && t0 <= t1 <= t2 <= t3
      modifies this
      ensures Valid()
      ensures old(streams) == [] ==> !polled
      ensures old(streams) != [] ==> at < |old(streams)| && IsChoice(old(streams), at, |old(streams)|, t0)
      ensures old(streams) != [] ==>
                (polled <==> old(streams)[at].nextPollAt <= t1 &&
                             (old(lastRequestAt).Some? ==> t1 >= old(lastRequestAt).value + spacing))
      ensures !polled ==> streams == old(streams) && requests == old(requests) && polls == old(polls)
      ensures polled ==> requests == old(requests) + [Request(t2, old(streams)[at].nextPollAt)]
      ensures polled ==> |streams| == |old(streams)| && streams == old(streams)[at := streams[at]]
      ensures polled ==> streams[at].nextPollAt > t3
      ensures polled ==>
                polls == if fetched.None? then old(polls)
                         else old(polls)[at := old(polls)[at] + [Poll(fetched.value, closedAt)]]
      ensures polled && fetched.None? ==> streams[at] == old(streams)[at].(nextPollAt := streams[at].nextPollAt)
      ensures polled && fetched.Some? ==>
                streams[at] == Publish(old(streams)[at], fetched.value, closedAt).(nextPollAt := streams[at].nextPollAt)
    {
      var chosen := NextDueStream(t0);
      polled := false;
      if chosen.Some? {
        at := chosen.value;
        if streams[chosen.value].nextPollAt - t1 > 0.0 {
          return;
        }
        if lastRequestAt.Some? && spacing - (t1 - lastRequestAt.value) > 0.0 {
          return;
        }
        PollStream(chosen.value, t2, fetched, closedAt, t3);
        polled := true;
      } else {
        at := 0;
      }
    }
  }
}
