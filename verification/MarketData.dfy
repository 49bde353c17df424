/** Closed-candle deduplication and the plan for the startup backfill. */
module MarketData {
  import opened Arithmetic
  import opened Common

  datatype Stream = Stream(exchange: string, symbol: string, interval: string)

  datatype KlineUpdate = KlineUpdate(stream: Stream, openTime: int, isClosed: bool)

  // ---- Deduplication ----

  /** After a closed candle of a stream, only later candles of it follow. */
  predicate Follows(u: KlineUpdate, v: KlineUpdate) {
    u.stream == v.stream && u.isClosed ==> v.openTime > u.openTime
  }

  class KlineUpdateBuffer {
    var closedOpenTimes: set<(Stream, int)>
    /** The reference view: the newest closed candle of each stream that has one. */
    ghost var watermark: map<Stream, int>
    ghost var history: seq<KlineUpdate>

    ghost predicate Valid()
      reads this
    {
      && (forall k :: k in closedOpenTimes ==> k.0 in watermark && k.1 <= watermark[k.0])
      && (forall s :: s in watermark ==> (s, watermark[s]) in closedOpenTimes)
      && (forall i :: 0 <= i < |history| && history[i].isClosed ==>
            history[i].stream in watermark && history[i].openTime <= watermark[history[i].stream])
      && (forall i, j {:trigger Follows(history[i], history[j])} ::
            0 <= i < j < |history| ==> Follows(history[i], history[j]))
    }

    constructor ()
      ensures Valid() && watermark == map[] && history == []
    {
      closedOpenTimes, watermark, history := {}, map[], [];
    }

    /** The set test and the staleness scan together are one comparison with the stream's watermark. */
    method Accept(update: KlineUpdate) returns (accepted: bool)
      requires Valid()
      modifies this
      ensures Valid()
      ensures accepted <==> !(update.stream in old(watermark) && update.openTime <= old(watermark)[update.stream])
      ensures watermark == if accepted && update.isClosed then old(watermark)[update.stream := update.openTime]
                           else old(watermark)
      ensures history == if accepted then old(history) + [update] else old(history)
    {
      var key := (update.stream, update.openTime);
      if key in closedOpenTimes {
        return false;
      }
      if exists k :: k in closedOpenTimes && k.0 == update.stream && k.1 > update.openTime {
        return false;
      }
      if update.isClosed {
        closedOpenTimes := closedOpenTimes + {key};
        watermark := watermark[update.stream := update.openTime];
      }
      history := history + [update];
      return true;
    }
  }

  // ---- The startup plan ----

  datatype BackfillPlan =
    | NoBackfill
    | Latest(limit: int, missing: int, truncated: bool)
    | Range(startTime: int, endTime: int, limit: int)

  function LatestClosedOpenTime(now: int, d: int): int
    requires d > 0
  {
    now / d * d - d
  }

  /** The candle that opens there is the newest one on the grid that has ended. */
  lemma LatestClosedIsNewest(now: int, d: int)
    requires d > 0
    ensures var t := LatestClosedOpenTime(now, d); t % d == 0 && t + d <= now < t + 2 * d
  {
    assert (now / d - 1) * d == now / d * d - d;
    Quotient(now / d * d - d, now / d - 1, d);
  }

  function Missing(latest: int, last: int, d: int): nat
    requires d > 0
  {
    if last < latest then 0 else (last - latest) / d
  }

  function PlanInitialBackfill(latest: Option<int>, now: int, d: int, limit: int): BackfillPlan
    requires d > 0
  {
    var cap := if limit < 1 then 1 else limit;
    if latest.None? then Latest(cap, cap, false)
    else
      var missing := Missing(latest.value, LatestClosedOpenTime(now, d), d);
      if missing <= 0 then NoBackfill
      else if missing > cap then Latest(cap, missing, true)
      else Range(latest.value + d, latest.value + d + (missing - 1) * d, missing)
  }

  lemma MissingCounts(latest: int, last: int, d: int)
    requires d > 0
    ensures Missing(latest, last, d) == 0 <==> last < latest + d
    ensures last >= latest ==> latest + Missing(latest, last, d) * d <= last < latest + Missing(latest, last, d) * d + d
  {
  }

  /** On the grid the range runs from just after the stored candle through the last closed one. */
  lemma PlanCoversTheGap(latest: int, now: int, d: int, limit: int)
    requires d > 0 && latest % d == 0
    ensures var last := LatestClosedOpenTime(now, d);
            var p := PlanInitialBackfill(Some(latest), now, d, limit);
            && (p.NoBackfill? <==> latest >= last)
            && (p.Range? <==> 0 < (last - latest) / d <= (if limit < 1 then 1 else limit))
            && (p.Range? ==> p.startTime == latest + d && p.endTime == last && p.limit == (last - latest) / d)
            && (p.Latest? ==> p.truncated && p.limit == (if limit < 1 then 1 else limit) < (last - latest) / d)
  {
    var last := LatestClosedOpenTime(now, d);
    LatestClosedIsNewest(now, d);
    Multiples(last, latest, d);
    var k := (last - latest) / d;
    assert (k - 1) * d == k * d - d;
    if last >= latest {
      MissingCounts(latest, last, d);
    }
    Steps(k, d);
  }
}
