/** The live feed: a queue of tagged bars with one marker between the warmup and the live ones. */
module Feed {
  import opened Common

  datatype Phase = Warmup | Live

  datatype Bar = Bar(openTime: int, close: real)

  datatype Item = BarItem(phase: Phase, bar: Bar) | LiveMarker

  datatype Loaded = Delivered(bar: Bar) | NothingYet | Ended

  // ---- What went in, read off the queue's history ----

  function Bars(items: seq<Item>): seq<Bar>
    decreases |items|
  {
    if items == [] then []
    else
      var rest := Bars(items[..|items| - 1]);
      var last := items[|items| - 1];
      if last.BarItem? then rest + [last.bar] else rest
  }

  predicate HasMarker(items: seq<Item>) {
    LiveMarker in items
  }

  function PhaseAfter(items: seq<Item>): Phase {
    if HasMarker(items) then Live else Warmup
  }

  /** A bar is tagged by whether a marker was queued before it. */
  predicate TaggedAt(items: seq<Item>, i: nat)
    requires i < |items|
  {
    items[i].BarItem? ==> items[i].phase == PhaseAfter(items[..i])
  }

  /** No two bars share an open time. */
  predicate DistinctAt(items: seq<Item>, i: nat, j: nat)
    requires i < |items| && j < |items|
  {
    items[i].BarItem? && items[j].BarItem? ==> items[i].bar.openTime != items[j].bar.openTime
  }

  ghost predicate WellTagged(items: seq<Item>) {
    && (forall i: nat {:trigger TaggedAt(items, i)} :: i < |items| ==> TaggedAt(items, i))
    && (forall i: nat, j: nat {:trigger DistinctAt(items, i, j)} :: i < j < |items| ==> DistinctAt(items, i, j))
  }

  predicate OpensAt(items: seq<Item>, t: int) {
    exists i :: 0 <= i < |items| && items[i].BarItem? && items[i].bar.openTime == t
  }

  lemma {:induction false} BarsConcat(a: seq<Item>, b: seq<Item>)
    ensures Bars(a + b) == Bars(a) + Bars(b)
    decreases |b|
  {
    if b == [] {
      assert a + b == a;
    } else {
      BarsConcat(a, b[..|b| - 1]);
      assert (a + b)[..|a + b| - 1] == a + b[..|b| - 1];
    }
  }

  lemma WellTaggedAppend(items: seq<Item>, x: Item)
    requires WellTagged(items)
    requires x.BarItem? ==> x.phase == PhaseAfter(items) && !OpensAt(items, x.bar.openTime)
    ensures WellTagged(items + [x])
  {
    var more := items + [x];
    assert more[..|items|] == items;
    forall i: nat | i < |more|
      ensures TaggedAt(more, i)
    {
      if i < |items| {
        assert TaggedAt(items, i) && more[..i] == items[..i];
      }
    }
    forall i: nat, j: nat | i < j < |more|
      ensures DistinctAt(more, i, j)
    {
      assert j < |items| ==> DistinctAt(items, i, j);
    }
  }

  class LiveKlineDataFeed {
    var queue: seq<Item>
    var stopped: bool
    var deliveredOpenTimes: set<int>
    var phase: Phase
    var inputPhase: Phase
    var liveRequested: bool
    var currentBarPhase: Phase
    var latestDeliveredOpenTime: Option<int>
    var warmupComplete: bool
    /** Everything ever queued, and how much of it has been taken out. */
    ghost var queued: seq<Item>
    ghost var taken: nat

    ghost predicate Valid()
      reads this
    {
      && taken <= |queued| && queue == queued[taken..]
      && WellTagged(queued)
      && (forall t :: t in deliveredOpenTimes <==> OpensAt(queued, t))
      && liveRequested == HasMarker(queued)
      && inputPhase == PhaseAfter(queued)
    }

    constructor ()
      ensures Valid() && queued == [] && taken == 0
    {
      queue, stopped, deliveredOpenTimes := [], false, {};
      phase, inputPhase, currentBarPhase := Warmup, Warmup, Warmup;
      liveRequested, warmupComplete, latestDeliveredOpenTime := false, false, None;
      queued, taken := [], 0;
    }

    /** Starting resets what is reported, not what is queued. */
    method Start()
      requires Valid()
      modifies this
      ensures Valid() && queued == old(queued) && taken == old(taken) && queue == old(queue)
      ensures !stopped && phase == Warmup && currentBarPhase == Warmup && !warmupComplete
      ensures latestDeliveredOpenTime.None?
    {
      stopped, phase, currentBarPhase, latestDeliveredOpenTime, warmupComplete := false, Warmup, Warmup, None, false;
      inputPhase := if liveRequested then Live else Warmup;
    }

    method Stop()
      requires Valid()
      modifies this`stopped
      ensures Valid() && stopped
    {
      stopped := true;
    }

    method MarkLive()
      requires Valid()
      modifies this
      ensures Valid() && taken == old(taken) && queued == old(queued) + [LiveMarker]
      ensures Bars(queued) == Bars(old(queued))
      ensures stopped == old(stopped) && phase == old(phase)
    {
      WellTaggedAppend(queued, LiveMarker);
      MarkerOpensNothing(queued);
      liveRequested, inputPhase := true, Live;
      queue, queued := queue + [LiveMarker], queued + [LiveMarker];
    }

    /** A bar is queued exactly when its open time is new; live once the marker has been queued. */
    method PutKline(bar: Bar) returns (accepted: bool)
      requires Valid()
      modifies this
      ensures Valid() && taken == old(taken)
      ensures accepted <==> !OpensAt(old(queued), bar.openTime)
      ensures queued == if accepted then old(queued) + [BarItem(PhaseAfter(old(queued)), bar)] else old(queued)
      ensures Bars(queued) == if accepted then Bars(old(queued)) + [bar] else Bars(old(queued))
      ensures stopped == old(stopped) && phase == old(phase)
    {
      if bar.openTime in deliveredOpenTimes {
        return false;
      }
      WellTaggedAppend(queued, BarItem(inputPhase, bar));
      BarOpensOne(queued, BarItem(inputPhase, bar));
      deliveredOpenTimes := deliveredOpenTimes + {bar.openTime};
      queue, queued := queue + [BarItem(inputPhase, bar)], queued + [BarItem(inputPhase, bar)];
      return true;
    }

    /** Hands out the next bar, passing over markers; without one, says whether the feed has ended. */
    method Load() returns (r: Loaded)
      requires Valid()
      modifies this
      ensures Valid() && queued == old(queued) && old(taken) <= taken
      ensures Bars(queued[..taken])
              == if r.Delivered? then Bars(queued[..old(taken)]) + [r.bar] else Bars(queued[..old(taken)])
      ensures r.Delivered? ==>
                0 < taken && queued[taken - 1] == BarItem(currentBarPhase, r.bar) &&
                latestDeliveredOpenTime == Some(r.bar.openTime)
      ensures !r.Delivered? ==> queue == [] && (r.Ended? <==> stopped)
      ensures phase == if HasMarker(queued[old(taken)..taken]) then Live else old(phase)
    {
      while queue != []
        invariant Valid() && queued == old(queued) && old(taken) <= taken && stopped == old(stopped)
        invariant Bars(queued[..taken]) == Bars(queued[..old(taken)])
        invariant phase == if HasMarker(queued[old(taken)..taken]) then Live else old(phase)
        decreases |queue|
      {
        assert queued[old(taken)..taken + 1] == queued[old(taken)..taken] + [queued[taken]];
        var item := TakeItem();
        if item.BarItem? {
          return Delivered(item.bar);
        }
      }
      return if stopped then Ended else NothingYet;
    }

    /** Takes the front item out; a marker turns the feed live, a bar becomes the current one. */
    method TakeItem() returns (item: Item)
      requires Valid() && queue != []
      modifies this
      ensures Valid() && queued == old(queued) && taken == old(taken) + 1 && stopped == old(stopped)
      ensures item == queued[old(taken)] && |queue| == |old(queue)| - 1
      ensures Bars(queued[..taken]) == Bars(queued[..old(taken)]) + if item.BarItem? then [item.bar] else []
      ensures phase == if item.LiveMarker? then Live else old(phase)
      ensures item.BarItem? ==> currentBarPhase == item.phase && latestDeliveredOpenTime == Some(item.bar.openTime)
    {
      item := queue[0];
      TakeOne(queued, taken);
      queue, taken := queue[1..], taken + 1;
      if item.LiveMarker? {
        phase, inputPhase, warmupComplete := Live, Live, true;
      } else {
        currentBarPhase, latestDeliveredOpenTime := item.phase, Some(item.bar.openTime);
      }
    }
  }

  // ---- What the history means for the consumer ----

  /** What has been delivered so far and what still waits are, in order, exactly what was accepted. */
  lemma DeliveryIsFifo(feed: LiveKlineDataFeed)
    requires feed.Valid()
    ensures Bars(feed.queued[..feed.taken]) + Bars(feed.queue) == Bars(feed.queued)
  {
    BarsConcat(feed.queued[..feed.taken], feed.queue);
    assert feed.queued == feed.queued[..feed.taken] + feed.queue;
  }

  /** No open time is accepted twice, so none is delivered twice. */
  lemma {:induction false} EachOpenTimeOnce(items: seq<Item>)
    requires WellTagged(items)
    ensures forall i, j :: 0 <= i < j < |Bars(items)| ==> Bars(items)[i].openTime != Bars(items)[j].openTime
    ensures forall i :: 0 <= i < |Bars(items)| ==> OpensAt(items, Bars(items)[i].openTime)
    decreases |items|
  {
    if items != [] {
      var n := |items| - 1;
      var init := items[..n];
      forall i: nat | i < n
        ensures TaggedAt(init, i)
      {
        assert TaggedAt(items, i) && init[..i] == items[..i];
      }
      forall i: nat, j: nat | i < j < n
        ensures DistinctAt(init, i, j)
      {
        assert DistinctAt(items, i, j);
      }
      EachOpenTimeOnce(init);
      forall t | OpensAt(init, t)
        ensures OpensAt(items, t) && (items[n].BarItem? ==> items[n].bar.openTime != t)
      {
        var i :| 0 <= i < |init| && init[i].BarItem? && init[i].bar.openTime == t;
        assert items[i] == init[i] && DistinctAt(items, i, n);
      }
      if items[n].BarItem? {
        assert OpensAt(items, items[n].bar.openTime);
      }
    }
  }

  /** Warmup bars precede every marker; a live bar has one before it. */
  lemma MarkerSeparates(items: seq<Item>, i: nat, m: nat)
    requires WellTagged(items) && i < |items| && m < |items| && items[i].BarItem? && items[m] == LiveMarker
    ensures items[i].phase == Warmup ==> i < m
    ensures items[i].phase == Live ==> LiveMarker in items[..i]
  {
    assert TaggedAt(items, i);
    assert m < i ==> items[..i][m] == LiveMarker;
  }

  /** The queue after these bars were put one by one: a bar goes in when its open time is not there yet. */
  function QueuedWith(items: seq<Item>, bars: seq<Bar>): seq<Item>
    decreases |bars|
  {
    if bars == [] then items
    else
      var before, last := QueuedWith(items, bars[..|bars| - 1]), bars[|bars| - 1];
      if OpensAt(before, last.openTime) then before else before + [BarItem(PhaseAfter(before), last)]
  }

  /** The first of the bars with its open time, which is not queued yet either. */
  predicate IsNew(items: seq<Item>, bars: seq<Bar>, k: nat)
    requires k < |bars|
  {
    !OpensAt(items, bars[k].openTime) && forall j :: 0 <= j < k ==> bars[j].openTime != bars[k].openTime
  }

  function NewBars(items: seq<Item>, bars: seq<Bar>): seq<Bar>
    decreases |bars|
  {
    if bars == [] then []
    else NewBars(items, bars[..|bars| - 1]) + if IsNew(items, bars, |bars| - 1) then [bars[|bars| - 1]] else []
  }

  lemma {:induction false} OpensQueuedWith(items: seq<Item>, bars: seq<Bar>, t: int)
    ensures OpensAt(QueuedWith(items, bars), t) <==>
              OpensAt(items, t) || exists j :: 0 <= j < |bars| && bars[j].openTime == t
    decreases |bars|
  {
    if bars != [] {
      var n := |bars| - 1;
      var before := QueuedWith(items, bars[..n]);
      OpensQueuedWith(items, bars[..n], t);
      BarOpensOne(before, BarItem(PhaseAfter(before), bars[n]));
      assert forall j :: 0 <= j < n ==> bars[..n][j] == bars[j];
    }
  }

  /** Exactly the new bars are queued, in their order, all with the phase the queue had. */
  lemma {:induction false} QueuedWithMeaning(items: seq<Item>, bars: seq<Bar>)
    ensures items <= QueuedWith(items, bars)
    ensures Bars(QueuedWith(items, bars)) == Bars(items) + NewBars(items, bars)
    ensures HasMarker(QueuedWith(items, bars)) == HasMarker(items)
    ensures forall i :: |items| <= i < |QueuedWith(items, bars)| ==>
                          QueuedWith(items, bars)[i].BarItem? && QueuedWith(items, bars)[i].phase == PhaseAfter(items)
    decreases |bars|
  {
    if bars != [] {
      var n := |bars| - 1;
      var before := QueuedWith(items, bars[..n]);
      QueuedWithMeaning(items, bars[..n]);
      OpensQueuedWith(items, bars[..n], bars[n].openTime);
      BarOpensOne(before, BarItem(PhaseAfter(before), bars[n]));
      assert IsNew(items, bars, n) <==> !OpensAt(before, bars[n].openTime) by {
        assert forall j :: 0 <= j < n ==> bars[..n][j] == bars[j];
      }
    }
  }

  class BacktraderLiveRunner {
    const feed: LiveKlineDataFeed
    var started: bool

    constructor (feed: LiveKlineDataFeed)
      ensures this.feed == feed && !started
    {
      this.feed, started := feed, false;
    }

    method PutAll(warmup: seq<Bar>)
      requires feed.Valid()
      modifies feed
      ensures feed.Valid() && feed.taken == old(feed.taken)
      ensures feed.queued == QueuedWith(old(feed.queued), warmup)
    {
      for k := 0 to |warmup|
        invariant feed.Valid() && feed.taken == old(feed.taken)
        invariant feed.queued == QueuedWith(old(feed.queued), warmup[..k])
      {
        assert warmup[..k + 1][..k] == warmup[..k];
        var accepted := feed.PutKline(warmup[k]);
      }
      assert warmup[..|warmup|] == warmup;
    }

    /** Queues the warmup and the marker after it; the bars of a second start are refused. */
    method Start(warmup: seq<Bar>) returns (ok: bool)
      requires feed.Valid()
      modifies this, feed
      ensures feed.Valid() && started && feed.taken == old(feed.taken)
      ensures ok <==> !old(started)
      ensures !ok ==> feed.queued == old(feed.queued)
      ensures ok ==> feed.queued == QueuedWith(old(feed.queued), warmup) + [LiveMarker]
      ensures ok ==> Bars(feed.queued) == Bars(old(feed.queued)) + NewBars(old(feed.queued), warmup)
      ensures ok ==> forall j :: 0 <= j < |warmup| ==> OpensAt(feed.queued, warmup[j].openTime)
    {
      if started {
        return false;
      }
      PutAll(warmup);
      QueuedWithMeaning(old(feed.queued), warmup);
      MarkerOpensNothing(feed.queued);
      forall j | 0 <= j < |warmup|
        ensures OpensAt(feed.queued, warmup[j].openTime)
      {
        OpensQueuedWith(old(feed.queued), warmup, warmup[j].openTime);
      }
      feed.MarkLive();
      started := true;
      return true;
    }
  }

  lemma TakeOne(items: seq<Item>, n: nat)
    requires n < |items|
    ensures Bars(items[..n + 1]) == Bars(items[..n]) + if items[n].BarItem? then [items[n].bar] else []
    ensures items[n] == LiveMarker ==> HasMarker(items)
    ensures items[n..][1..] == items[n + 1..]
  {
    assert items[..n + 1][..n] == items[..n];
  }

  lemma MarkerOpensNothing(items: seq<Item>)
    ensures Bars(items + [LiveMarker]) == Bars(items)
    ensures forall t :: OpensAt(items + [LiveMarker], t) <==> OpensAt(items, t)
  {
  }

  lemma BarOpensOne(items: seq<Item>, x: Item)
    requires x.BarItem?
    ensures Bars(items + [x]) == Bars(items) + [x.bar]
    ensures forall t :: OpensAt(items + [x], t) <==> OpensAt(items, t) || t == x.bar.openTime
    ensures HasMarker(items + [x]) == HasMarker(items)
  {
  }
}
