/** Filtering, sorting and cutting fetched candles; when the outcome is the gap-free continuation of a grid. */
module CandleRuns {
  import opened Arithmetic
  import opened Common
  import opened KlineStore

  // ---- Closed candles in order ----

  predicate IsClosed(k: Kline, now: int) {
    k.closeTime <= now
  }

  function Insert(k: Kline, ks: seq<Kline>): seq<Kline>
    decreases |ks|
  {
    if ks == [] || k.openTime < ks[0].openTime then [k] + ks else [ks[0]] + Insert(k, ks[1..])
  }

  /** The closed candles by open time; equal times keep their order. */
  function ClosedKlines(ks: seq<Kline>, now: int): seq<Kline>
    decreases |ks|
  {
    if ks == [] then []
    else
      var before := ClosedKlines(ks[..|ks| - 1], now);
      if IsClosed(ks[|ks| - 1], now) then Insert(ks[|ks| - 1], before) else before
  }

  predicate Before(ks: seq<Kline>, i: nat, j: nat)
    requires i < |ks| && j < |ks|
  {
    ks[i].openTime < ks[j].openTime
  }

  ghost predicate Ascending(ks: seq<Kline>) {
    forall i: nat, j: nat {:trigger Before(ks, i, j)} :: i < j < |ks| ==> Before(ks, i, j)
  }

  predicate HasOpen(ks: seq<Kline>, t: int) {
    exists i :: 0 <= i < |ks| && ks[i].openTime == t
  }

  /** The exchange reports each candle once. */
  ghost predicate Distinct(ks: seq<Kline>) {
    forall i, j :: 0 <= i < j < |ks| ==> ks[i].openTime != ks[j].openTime
  }

  lemma {:induction false} InsertAdds(k: Kline, ks: seq<Kline>, t: int)
    ensures HasOpen(Insert(k, ks), t) <==> t == k.openTime || HasOpen(ks, t)
    decreases |ks|
  {
    var r := Insert(k, ks);
    if ks == [] || k.openTime < ks[0].openTime {
      assert r[0] == k && r[1..] == ks;
      if i :| 0 <= i < |ks| && ks[i].openTime == t {
        assert r[i + 1].openTime == t;
      }
    } else {
      var rest := Insert(k, ks[1..]);
      InsertAdds(k, ks[1..], t);
      assert r[0] == ks[0] && r[1..] == rest;
      if i :| 0 <= i < |rest| && rest[i].openTime == t {
        assert r[i + 1].openTime == t;
      }
      if i :| 0 <= i < |ks[1..]| && ks[1..][i].openTime == t {
        assert ks[i + 1].openTime == t;
      }
    }
  }

  lemma {:induction false} InsertAscends(k: Kline, ks: seq<Kline>)
    requires Ascending(ks) && !HasOpen(ks, k.openTime)
    ensures Ascending(Insert(k, ks))
    decreases |ks|
  {
    var r := Insert(k, ks);
    if ks == [] || k.openTime < ks[0].openTime {
      forall i: nat, j: nat | i < j < |r|
        ensures Before(r, i, j)
      {
        assert j > 1 ==> Before(ks, 0, j - 1);
        assert i > 0 ==> Before(ks, i - 1, j - 1);
      }
    } else {
      TailAscends(ks);
      assert forall i :: 0 <= i < |ks[1..]| ==> ks[1..][i] == ks[i + 1];
      InsertAscends(k, ks[1..]);
      forall i: nat, j: nat | i < j < |r|
        ensures Before(r, i, j)
      {
        if i > 0 {
          assert Before(Insert(k, ks[1..]), i - 1, j - 1);
        } else {
          InsertAdds(k, ks[1..], r[j].openTime);
          assert Insert(k, ks[1..])[j - 1] == r[j];
          if m :| 0 <= m < |ks[1..]| && ks[1..][m].openTime == r[j].openTime {
            assert Before(ks, 0, m + 1);
          }
          assert ks[0].openTime != k.openTime;
        }
      }
    }
  }

  lemma TailAscends(ks: seq<Kline>)
    requires Ascending(ks) && ks != []
    ensures Ascending(ks[1..])
  {
    forall i: nat, j: nat | i < j < |ks[1..]|
      ensures Before(ks[1..], i, j)
    {
      assert Before(ks, i + 1, j + 1);
    }
  }

  predicate FetchedClosed(ks: seq<Kline>, now: int, t: int) {
    exists i :: 0 <= i < |ks| && ks[i].openTime == t && IsClosed(ks[i], now)
  }

  lemma {:induction false} ClosedKlinesMeaning(ks: seq<Kline>, now: int, t: int)
    ensures HasOpen(ClosedKlines(ks, now), t) <==> FetchedClosed(ks, now, t)
    decreases |ks|
  {
    if ks != [] {
      var n := |ks| - 1;
      ClosedKlinesMeaning(ks[..n], now, t);
      InsertAdds(ks[n], ClosedKlines(ks[..n], now), t);
      if i :| 0 <= i < |ks| && ks[i].openTime == t && IsClosed(ks[i], now) {
        assert i < n ==> ks[..n][i] == ks[i];
      }
    }
  }

  lemma {:induction false} ClosedKlinesAscend(ks: seq<Kline>, now: int)
    requires Distinct(ks)
    ensures Ascending(ClosedKlines(ks, now))
    decreases |ks|
  {
    if ks != [] {
      var n := |ks| - 1;
      ClosedKlinesAscend(ks[..n], now);
      ClosedKlinesMeaning(ks[..n], now, ks[n].openTime);
      if IsClosed(ks[n], now) {
        assert forall i :: 0 <= i < n ==> ks[..n][i].openTime != ks[n].openTime;
        InsertAscends(ks[n], ClosedKlines(ks[..n], now));
      }
    }
  }

  // ---- Candles after the last published one ----

  function NewAfter(ks: seq<Kline>, last: Option<int>): seq<Kline>
    decreases |ks|
  {
    if ks == [] then []
    else
      var before := NewAfter(ks[..|ks| - 1], last);
      var k := ks[|ks| - 1];
      if last.None? || k.openTime > last.value then before + [k] else before
  }

  lemma {:induction false} NewAfterMeaning(ks: seq<Kline>, last: int)
    requires Ascending(ks)
    ensures Ascending(NewAfter(ks, Some(last)))
    ensures forall t :: HasOpen(NewAfter(ks, Some(last)), t) <==> HasOpen(ks, t) && t > last
    decreases |ks|
  {
    if ks != [] {
      var n := |ks| - 1;
      var init := ks[..n];
      var r, before := NewAfter(ks, Some(last)), NewAfter(init, Some(last));
      forall i: nat, j: nat | i < j < n
        ensures Before(init, i, j)
      {
        assert Before(ks, i, j);
      }
      NewAfterMeaning(init, last);
      forall t
        ensures HasOpen(ks, t) <==> HasOpen(init, t) || t == ks[n].openTime
        ensures HasOpen(r, t) <==> HasOpen(before, t) || (t == ks[n].openTime && t > last)
      {
        Snoc(init, ks[n], t);
        assert init + [ks[n]] == ks;
        Snoc(before, ks[n], t);
      }
      forall i: nat, j: nat | i < j < |r|
        ensures Before(r, i, j)
      {
        if j < |before| {
          assert Before(before, i, j);
        } else {
          assert HasOpen(before, r[i].openTime);
          var m :| 0 <= m < |init| && init[m].openTime == r[i].openTime;
          assert Before(ks, m, n);
        }
      }
    }
  }

  lemma Snoc(ks: seq<Kline>, k: Kline, t: int)
    ensures HasOpen(ks + [k], t) <==> HasOpen(ks, t) || t == k.openTime
  {
    if i :| 0 <= i < |ks| && ks[i].openTime == t {
      assert (ks + [k])[i] == ks[i];
    }
    assert (ks + [k])[|ks|] == k;
  }

  // ---- Runs on the grid ----

  /** The open times from, from + d, ..., count of them. */
  function GridRun(from: int, count: nat, d: int): (s: seq<int>)
    ensures |s| == count
  {
    seq(count, k requires 0 <= k < count => from + k * d)
  }

  function Opens(ks: seq<Kline>): (s: seq<int>)
    ensures |s| == |ks|
  {
    seq(|ks|, i requires 0 <= i < |ks| => ks[i].openTime)
  }

  predicate OnRun(t: int, from: int, count: nat, d: int)
    requires d > 0
  {
    from <= t < from + count * d && (t - from) % d == 0
  }

  lemma HasSomeOpen(ks: seq<Kline>)
    ensures ks != [] ==> exists t :: HasOpen(ks, t)
  {
    if ks != [] {
      assert HasOpen(ks, ks[0].openTime);
    }
  }

  /** Ascending candles whose open times are those of a run are that run, one by one. */
  lemma {:induction false} AscendingIsRun(ks: seq<Kline>, from: int, count: nat, d: int)
    requires d > 0 && Ascending(ks)
    requires forall t {:trigger HasOpen(ks, t)} :: HasOpen(ks, t) <==> OnRun(t, from, count, d)
    ensures Opens(ks) == GridRun(from, count, d)
    decreases count
  {
    if count == 0 {
      HasSomeOpen(ks);
    } else {
      Steps(count, d);
      Quotient(0, 0, d);
      assert HasOpen(ks, from);
      FirstIsLeast(ks, from);
      assert (count - 1) * d == count * d - d;
      TailAscends(ks);
      forall t
        ensures HasOpen(ks[1..], t) <==> OnRun(t, from + d, count - 1, d)
      {
        TailOpens(ks, t);
        OnRunTail(t, from, count, d);
        assert HasOpen(ks, t) <==> OnRun(t, from, count, d);
      }
      AscendingIsRun(ks[1..], from + d, count - 1, d);
      forall k | 0 <= k < count
        ensures |ks| == count && Opens(ks)[k] == from + k * d
      {
        assert (k - 1) * d == k * d - d;
        assert k > 0 ==> Opens(ks[1..])[k - 1] == from + d + (k - 1) * d;
      }
    }
  }

  lemma OnRunTail(t: int, from: int, count: nat, d: int)
    requires d > 0 && count > 0
    ensures OnRun(t, from + d, count - 1, d) <==> OnRun(t, from, count, d) && t != from
  {
    assert (count - 1) * d == count * d - d;
    var q := (t - from) / d;
    assert (q - 1) * d == q * d - d;
    Steps(q, d);
    if (t - from) % d == 0 {
      Quotient(t - from - d, q - 1, d);
    }
    if (t - from - d) % d == 0 {
      var p := (t - from - d) / d;
      assert (p + 1) * d == p * d + d;
      Quotient(t - from, p + 1, d);
    }
  }

  lemma FirstIsLeast(ks: seq<Kline>, from: int)
    requires Ascending(ks) && HasOpen(ks, from)
    requires forall t {:trigger HasOpen(ks, t)} :: HasOpen(ks, t) ==> from <= t
    ensures ks != [] && ks[0].openTime == from
  {
    var i :| 0 <= i < |ks| && ks[i].openTime == from;
    assert HasOpen(ks, ks[0].openTime);
    assert i > 0 ==> Before(ks, 0, i);
  }

  lemma TailOpens(ks: seq<Kline>, t: int)
    requires Ascending(ks) && ks != []
    ensures HasOpen(ks[1..], t) <==> HasOpen(ks, t) && t != ks[0].openTime
  {
    if i :| 0 <= i < |ks| && ks[i].openTime == t {
      assert i > 0 ==> ks[1..][i - 1] == ks[i] && Before(ks, 0, i);
    }
    if i :| 0 <= i < |ks[1..]| && ks[1..][i].openTime == t {
      assert ks[i + 1].openTime == t && Before(ks, 0, i + 1);
    }
  }
}
