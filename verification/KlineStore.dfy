/** The stored candles of one symbol and interval, and the startup backfill that completes them. */
module KlineStore {
  import opened Arithmetic
  import opened Common
  import opened MarketData

  datatype Kline = Kline(openTime: int, closeTime: int, close: real)

  /** The first candle of a time wins, and what is stored stays. */
  function Merged(rows: map<int, Kline>, klines: seq<Kline>): map<int, Kline>
    decreases |klines|
  {
    if klines == [] then rows
    else
      var before := Merged(rows, klines[..|klines| - 1]);
      var k := klines[|klines| - 1];
      if k.openTime in before then before else before[k.openTime := k]
  }

  predicate Offers(klines: seq<Kline>, t: int) {
    exists i :: 0 <= i < |klines| && klines[i].openTime == t
  }

  predicate IsFirstOf(klines: seq<Kline>, i: nat) {
    i < |klines| && forall j :: 0 <= j < i ==> klines[j].openTime != klines[i].openTime
  }

  /** Exactly the stored and the offered times are stored afterwards. */
  lemma {:induction false} MergedTimes(rows: map<int, Kline>, klines: seq<Kline>, t: int)
    ensures t in Merged(rows, klines) <==> t in rows || Offers(klines, t)
    decreases |klines|
  {
    if klines != [] {
      var n := |klines| - 1;
      MergedTimes(rows, klines[..n], t);
      if i :| 0 <= i < |klines| && klines[i].openTime == t {
        assert i < n ==> klines[..n][i].openTime == t;
      }
      if i :| 0 <= i < |klines[..n]| && klines[..n][i].openTime == t {
        assert klines[i].openTime == t;
      }
    }
  }

  /** No stored row is overwritten. */
  lemma {:induction false} MergedKeeps(rows: map<int, Kline>, klines: seq<Kline>, t: int)
    requires t in rows
    ensures t in Merged(rows, klines) && Merged(rows, klines)[t] == rows[t]
    decreases |klines|
  {
    if klines != [] {
      MergedKeeps(rows, klines[..|klines| - 1], t);
    }
  }

  /** A new time is stored with the first candle offered for it. */
  lemma {:induction false} MergedTakesFirst(rows: map<int, Kline>, klines: seq<Kline>, i: nat)
    requires IsFirstOf(klines, i) && klines[i].openTime !in rows
    ensures klines[i].openTime in Merged(rows, klines) && Merged(rows, klines)[klines[i].openTime] == klines[i]
    decreases |klines|
  {
    var n := |klines| - 1;
    if i < n {
      assert klines[..n][i] == klines[i] && IsFirstOf(klines[..n], i);
      MergedTakesFirst(rows, klines[..n], i);
    } else {
      MergedTimes(rows, klines[..n], klines[n].openTime);
      assert !Offers(klines[..n], klines[n].openTime);
    }
  }

  // ---- Contiguity ----

  predicate OnGrid(t: int, first: int, last: int, d: int)
    requires d > 0
  {
    first <= t <= last && (t - first) % d == 0
  }

  /** Exactly the candles first, first + d, ..., last are stored. */
  ghost predicate Contiguous(rows: map<int, Kline>, first: int, last: int, d: int)
    requires d > 0
  {
    && first <= last && (last - first) % d == 0
    && forall t {:trigger OnGrid(t, first, last, d)} {:trigger t in rows} :: t in rows <==> OnGrid(t, first, last, d)
  }

  /** The exchange returns the requested range, in any order and perhaps with repeats. */
  ghost predicate Serves(klines: seq<Kline>, start: int, end: int, d: int)
    requires d > 0
  {
    forall t {:trigger Offers(klines, t)} :: Offers(klines, t) <==> OnGrid(t, start, end, d)
  }

  lemma {:induction false} ContiguousCount(rows: map<int, Kline>, first: int, last: int, d: int, n: nat)
    requires d > 0 && Contiguous(rows, first, last, d) && last == first + n * d
    ensures |rows| == n + 1
    decreases n
  {
    var rest := rows - {last};
    if n == 0 {
      forall t
        ensures t in rows <==> t == first
      {
        assert t in rows <==> OnGrid(t, first, last, d);
        Quotient(0, 0, d);
      }
      assert rows.Keys == {first};
      assert |rows| == |rows.Keys|;
    } else {
      assert (n - 1) * d == n * d - d;
      Quotient((n - 1) * d, n - 1, d);
      assert OnGrid(last, first, last, d);
      assert first <= last - d by {
        Steps(n, d);
      }
      forall t
        ensures t in rest <==> OnGrid(t, first, last - d, d)
      {
        assert t in rows <==> OnGrid(t, first, last, d);
        if t in rest {
          NoPointBetween(t, first, last, d);
        }
      }
      ContiguousCount(rest, first, last - d, d, n - 1);
      assert rows == rest[last := rows[last]];
    }
  }

  lemma NoPointBetween(t: int, first: int, last: int, d: int)
    requires d > 0 && OnGrid(t, first, last, d) && (last - first) % d == 0 && t != last
    ensures t <= last - d
  {
    Multiples(last - first, t - first, d);
    Steps(((last - first) - (t - first)) / d, d);
  }

  lemma SplitsAt(first: int, latest: int, last: int, d: int, t: int)
    requires d > 0 && (latest - first) % d == 0 && OnGrid(t, first, last, d) && t > latest
    ensures OnGrid(t, latest + d, last, d)
  {
    Multiples(t - first, latest - first, d);
    var c := ((t - first) - (latest - first)) / d;
    Steps(c, d);
    assert (c - 1) * d == c * d - d;
    Quotient(t - latest - d, c - 1, d);
  }

  lemma SumOnGrid(a: int, b: int, d: int)
    requires d > 0 && a % d == 0 && b % d == 0
    ensures (a + b) % d == 0
  {
    assert (a / d + b / d) * d == a / d * d + b / d * d;
    Quotient(a + b, a / d + b / d, d);
  }

  /** Extending a contiguous store by the next range keeps it contiguous. */
  lemma RangesJoin(first: int, latest: int, last: int, d: int, t: int)
    requires d > 0 && first <= latest <= last && (latest - first) % d == 0 && (last - latest) % d == 0
    ensures OnGrid(t, first, last, d) <==> OnGrid(t, first, latest, d) || OnGrid(t, latest + d, last, d)
    ensures (last - first) % d == 0
  {
    SumOnGrid(latest - first, last - latest, d);
    if OnGrid(t, first, last, d) && t > latest {
      SplitsAt(first, latest, last, d, t);
    }
    if OnGrid(t, latest + d, last, d) {
      Quotient(d, 1, d);
      SumOnGrid(t - latest - d, d, d);
      SumOnGrid(latest - first, t - latest, d);
    }
  }

  lemma ServedRangeJoins(rows: map<int, Kline>, first: int, latest: int, last: int, d: int, klines: seq<Kline>)
    requires d > 0 && Contiguous(rows, first, latest, d) && latest <= last && (last - latest) % d == 0
    requires Serves(klines, latest + d, last, d)
    ensures Contiguous(Merged(rows, klines), first, last, d)
  {
    var m := Merged(rows, klines);
    forall t
      ensures t in m <==> OnGrid(t, first, last, d)
    {
      MergedTimes(rows, klines, t);
      RangesJoin(first, latest, last, d, t);
      assert t in rows <==> OnGrid(t, first, latest, d);
      assert Offers(klines, t) <==> OnGrid(t, latest + d, last, d);
    }
    RangesJoin(first, latest, last, d, first);
  }

  /**
   If the exchange serves the planned range, the store becomes contiguous through the last closed candle, keeps every
   row it had, and grows by exactly the planned number of candles.
   */
  lemma BackfillCompletes(
    rows: map<int, Kline>, first: int, latest: int, now: int, d: int, limit: int, klines: seq<Kline>)
    requires d > 0 && Contiguous(rows, first, latest, d) && latest % d == 0
    requires var p := PlanInitialBackfill(Some(latest), now, d, limit);
             p.Range? && Serves(klines, p.startTime, p.endTime, d)
    ensures Contiguous(Merged(rows, klines), first, LatestClosedOpenTime(now, d), d)
    ensures forall t :: t in rows ==> t in Merged(rows, klines) && Merged(rows, klines)[t] == rows[t]
    ensures |Merged(rows, klines)| == |rows| + PlanInitialBackfill(Some(latest), now, d, limit).limit
  {
    var last := LatestClosedOpenTime(now, d);
    PlanCoversTheGap(latest, now, d, limit);
    LatestClosedIsNewest(now, d);
    Multiples(last, latest, d);
    ServedRangeJoins(rows, first, latest, last, d, klines);
    forall t | t in rows
      ensures t in Merged(rows, klines) && Merged(rows, klines)[t] == rows[t]
    {
      MergedKeeps(rows, klines, t);
    }
    GrowthCount(rows, Merged(rows, klines), first, latest, last, d);
  }

  lemma GrowthCount(rows: map<int, Kline>, more: map<int, Kline>, first: int, latest: int, last: int, d: int)
    requires d > 0 && Contiguous(rows, first, latest, d) && Contiguous(more, first, last, d) && (last - latest) % d == 0
    ensures |more| == |rows| + (last - latest) / d
  {
    CountOf(rows, first, latest, d);
    CountOf(more, first, last, d);
    CountsAdd(first, latest, last, d);
  }

  lemma CountsAdd(first: int, latest: int, last: int, d: int)
    requires d > 0 && (latest - first) % d == 0 && (last - latest) % d == 0
    ensures (last - first) / d == (latest - first) / d + (last - latest) / d
  {
    assert ((last - latest) / d + (latest - first) / d) * d == last - first;
    Quotient(last - first, (last - latest) / d + (latest - first) / d, d);
  }

  lemma CountOf(rows: map<int, Kline>, first: int, last: int, d: int)
    requires d > 0 && Contiguous(rows, first, last, d)
    ensures |rows| == (last - first) / d + 1 && (last - first) / d * d == last - first
  {
    var n := (last - first) / d;
    assert n * d == last - first;
    Steps(n, d);
    ContiguousCount(rows, first, last, d, n);
  }

  // ---- The store and its startup ----

  ghost predicate IsNewest(times: set<int>, t: int) {
    t in times && forall u :: u in times ==> u <= t
  }

  lemma {:induction false} NewestExists(times: set<int>, t: int)
    requires t in times
    ensures exists m :: IsNewest(times, m)
    decreases |times|
  {
    if u :| u in times && u > t {
      var rest := times - {t};
      NewestExists(rest, u);
      var m :| IsNewest(rest, m);
      forall v | v in times
        ensures v <= m
      {
        assert u in rest && (v == t || v in rest);
      }
      assert IsNewest(times, m);
    } else {
      assert IsNewest(times, t);
    }
  }

  lemma NewestIfAny(rows: map<int, Kline>)
    ensures (exists t :: t in rows) ==> exists t :: IsNewest(rows.Keys, t)
  {
    if t :| t in rows {
      NewestExists(rows.Keys, t);
    }
  }

  /**
   What a startup does for a contiguous store: one that is not behind stays as it is, and one whose planned range is
   served reaches the last closed candle by exactly the planned number of new rows.
   */
  ghost predicate Completes(
    after: map<int, Kline>, first: int, newest: int, now: int, d: int, plan: BackfillPlan, fetched: seq<Kline>,
    inserted: int)
    requires d > 0
  {
    var last := LatestClosedOpenTime(now, d);
    && (plan.NoBackfill? <==> newest >= last)
    && (plan.NoBackfill? ==> Contiguous(after, first, newest, d) && inserted == 0)
    && (plan.Range? && Serves(fetched, plan.startTime, plan.endTime, d) ==>
          Contiguous(after, first, last, d) && inserted == plan.limit)
  }

  lemma StartupCompletes(
    rows: map<int, Kline>, first: int, newest: int, now: int, d: int, limit: int, plan: BackfillPlan,
    fetched: seq<Kline>)
    requires d > 0 && Contiguous(rows, first, newest, d) && newest % d == 0
    requires exists t :: IsNewest(rows.Keys, t) && plan == PlanInitialBackfill(Some(t), now, d, limit)
    requires plan.NoBackfill? ==> fetched == []
    ensures Completes(Merged(rows, fetched), first, newest, now, d, plan, fetched,
                      |Merged(rows, fetched)| - |rows|)
  {
    var t :| IsNewest(rows.Keys, t) && plan == PlanInitialBackfill(Some(t), now, d, limit);
    assert newest in rows && t in rows && t == newest;
    PlanCoversTheGap(newest, now, d, limit);
    if plan.Range? && Serves(fetched, plan.startTime, plan.endTime, d) {
      BackfillCompletes(rows, first, newest, now, d, limit, fetched);
    }
  }

  class KlineCol {
    var rows: map<int, Kline>

    constructor (rows: map<int, Kline>)
      ensures this.rows == rows
    {
      this.rows := rows;
    }

    method GetLatestKline() returns (k: Option<Kline>)
      ensures k.None? <==> forall t :: t !in rows
      ensures k.Some? ==> exists t :: IsNewest(rows.Keys, t) && rows[t] == k.value
    {
      NewestIfAny(rows);
      if t :| t in rows.Keys && forall u :: u in rows.Keys ==> u <= t {
        assert IsNewest(rows.Keys, t);
        return Some(rows[t]);
      }
      return None;
    }

    /** Raw payloads are optional; a shorter list of them cuts the candles to its length. */
    method AddKlines(klines: seq<Kline>, rawPayloads: nat) returns (total: nat)
      modifies this
      ensures rows == Merged(old(rows), klines[..Considered(|klines|, rawPayloads)])
      ensures total == |rows| - |old(rows)|
    {
      total := 0;
      var seen: set<int> := {};
      var n := Considered(|klines|, rawPayloads);
      for i := 0 to n
        invariant rows == Merged(old(rows), klines[..i])
        invariant forall t :: t in seen ==> t in rows
        invariant total == |rows| - |old(rows)|
      {
        assert klines[..i + 1][..i] == klines[..i];
        var k := klines[i];
        if k.openTime in seen {
          continue;
        }
        seen := seen + {k.openTime};
        if k.openTime !in rows {
          rows := rows[k.openTime := k];
          total := total + 1;
        }
      }
    }

    /** The plan follows from the newest stored candle; whatever the exchange returns is merged in. */
    method Startup(now: int, d: int, limit: int) returns (plan: BackfillPlan, fetched: seq<Kline>, inserted: nat)
      requires d > 0
      requires forall t :: t in rows ==> rows[t].openTime == t
      modifies this
      ensures (forall t :: t !in old(rows)) ==> plan == PlanInitialBackfill(None, now, d, limit)
      ensures (exists t :: t in old(rows)) ==>
                exists t :: IsNewest(old(rows).Keys, t) && plan == PlanInitialBackfill(Some(t), now, d, limit)
      ensures plan.NoBackfill? ==> fetched == []
      ensures rows == Merged(old(rows), fetched) && inserted == |rows| - |old(rows)|
      ensures forall first, newest :: Contiguous(old(rows), first, newest, d) && newest % d == 0 ==>
                Completes(rows, first, newest, now, d, plan, fetched, inserted)
    {
      var latest := GetLatestKline();
      plan := PlanInitialBackfill(if latest.Some? then Some(latest.value.openTime) else None, now, d, limit);
      fetched, inserted := [], 0;
      if !plan.NoBackfill? {
        fetched := *;
      }
      if fetched != [] {
        inserted := AddKlines(fetched, 0);
        assert fetched[..|fetched|] == fetched;
      }
      forall first, newest | Contiguous(old(rows), first, newest, d) && newest % d == 0
        ensures Completes(rows, first, newest, now, d, plan, fetched, inserted)
      {
        assert OnGrid(first, first, newest, d) by { Quotient(0, 0, d); }
        assert first in old(rows);
        StartupCompletes(old(rows), first, newest, now, d, limit, plan, fetched);
      }
    }
  }

  function Considered(klines: nat, rawPayloads: nat): (n: nat)
    ensures n <= klines
  {
    if rawPayloads == 0 || klines < rawPayloads then klines else rawPayloads
  }
}
