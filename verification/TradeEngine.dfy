/** The framework's trade state machine, driven by bars, routed signals and broker notifications. */
module TradeEngine {
  import opened Common
  import opened Lifecycle

  datatype Replacement = Replacement(
    tradeId: nat, replaced: nat, direction: Direction, key: KeyBar, context: Option<nat>)

  datatype Entering = Entered(id: nat) | ShortDisabled | ActiveTradeExists

  /** Everything that can reach the strategy; prices, sizes and stop moves come from outside. */
  datatype Event =
    | Enters(direction: Direction, key: KeyBar, initialStop: real)
    | Exits(ref: Option<nat>, key: KeyBar, confirm: bool, code: ReasonCode, closeSize: real)
    | Replaces(direction: Direction, key: KeyBar, initialStop: real, closeSize: real)
    | Bars(bar: KeyBar, close: real, opposing: bool, canOpen: bool, closeSize: real,
           breakeven: Option<real>, trails: bool, trailing: Option<real>)
    | Finishes(trade: nat, order: nat, status: OrderStatus)
    | Notifies(trade: nat, order: nat, price: real, takeProfit: Option<real>, closeSize: real,
               canOpen: bool, initialStop: real)

  class Strategy {
    const needConfirm: bool
    const shortAllowed: bool
    var trades: map<nat, Trade>
    var active: Option<nat>
    var pending: Option<Replacement>
    var bannedEntry: set<int>
    var bannedExit: set<int>
    var tradeSeq: nat

    // ---- What every callback keeps ----

    ghost predicate TradesOk()
      reads this, trades.Values
    {
      forall t :: t in trades ==> trades[t].id == t && t <= tradeSeq && trades[t].Valid()
    }

    ghost predicate Held(t: nat)
      reads this
    {
      active == Some(t) || (pending.Some? && pending.value.context == Some(t))
    }

    /** Nothing live escapes: each non-terminal trade is the active one or the scheduled replacement. */
    ghost predicate AllHeld()
      reads this, trades.Values
    {
      forall t {:trigger Held(t)} :: t in trades && !Terminal(trades[t].ctx.status) ==> Held(t)
    }

    ghost predicate PendingRefs(p: Replacement)
      reads this
    {
      && p.replaced in trades && p.tradeId <= tradeSeq
      && (if p.context.Some? then p.context.value == p.tradeId && p.tradeId in trades else p.tradeId !in trades)
    }

    ghost predicate PendingOk(p: Replacement)
      reads this, trades.Values
    {
      && PendingRefs(p)
      && trades[p.replaced].ctx.status != Closed
      && (trades[p.replaced].ctx.status != Cancelled ==> active == Some(p.replaced))
    }

    ghost predicate Valid()
      reads this, trades.Values
    {
      && TradesOk()
      && AllHeld()
      && (active.Some? ==> active.value in trades)
      && (pending.Some? ==> PendingOk(pending.value))
    }

    /** Trades stay registered and only evolve; bans and used ids are for good. */
    twostate predicate KeptTrades()
      reads this, trades.Values
    {
      && (forall t :: t in old(trades) ==>
            t in trades && trades[t] == old(trades)[t] && Evolves(old(trades[t].ctx), trades[t].ctx))
      && (forall t :: t in trades && t !in old(trades) ==> fresh(trades[t]))
      && old(bannedEntry) <= bannedEntry && old(bannedExit) <= bannedExit && old(tradeSeq) <= tradeSeq
    }

    /** And a scheduled replacement is given up only when the trade it replaces closes. */
    twostate predicate Kept()
      reads this, trades.Values
    {
      && KeptTrades()
      && (old(pending).Some? ==>
            pending == old(pending) ||
            (old(pending).value.replaced in trades && trades[old(pending).value.replaced].ctx.status == Closed))
    }

    /**
     The active trade is opening but the broker made no entry order: it can neither fill nor fail, so it stays the
     active trade for good.
     */
    ghost predicate Stuck()
      reads this, trades.Values
    {
      && active.Some? && active.value in trades
      && trades[active.value].ctx.status == Opening && trades[active.value].ctx.order.None?
    }

    twostate predicate StaysStuck()
      reads this, trades.Values
    {
      old(Stuck()) ==> Stuck() && active == old(active)
    }

    twostate predicate OthersUntouched(t: nat)
      reads this, trades.Values
    {
      trades == old(trades) && forall u :: u in trades && u != t ==> unchanged(trades[u])
    }

    twostate lemma OneTradeChanged(t: nat)
      requires old(TradesOk()) && OthersUntouched(t) && t in trades && trades[t].Valid() && tradeSeq == old(tradeSeq)
      requires old(bannedEntry) <= bannedEntry && old(bannedExit) <= bannedExit
      requires Evolves(old(trades[t].ctx), trades[t].ctx)
      ensures TradesOk() && KeptTrades()
    {
    }

    /** A step inside one trade that does not end it keeps everything. */
    twostate lemma OneTradeMoves(t: nat)
      requires old(Valid()) && OthersUntouched(t) && t in trades && trades[t].Valid()
      requires active == old(active) && pending == old(pending) && tradeSeq == old(tradeSeq)
      requires old(bannedEntry) <= bannedEntry && old(bannedExit) <= bannedExit
      requires Evolves(old(trades[t].ctx), trades[t].ctx)
      requires Terminal(trades[t].ctx.status) ==> trades[t].ctx.status == old(trades[t].ctx.status)
      ensures Valid() && Kept()
    {
      OneTradeChanged(t);
      forall u | u in trades && !Terminal(trades[u].ctx.status)
        ensures Held(u)
      {
        assert old(Held(u));
      }
    }

    twostate lemma NothingMoved()
      requires old(Valid()) && trades == old(trades) && forall u :: u in trades ==> unchanged(trades[u])
      requires active == old(active) && pending == old(pending) && tradeSeq == old(tradeSeq)
      requires bannedEntry == old(bannedEntry) && bannedExit == old(bannedExit)
      ensures Valid() && KeptTrades()
    {
      forall u | u in trades && !Terminal(trades[u].ctx.status)
        ensures Held(u)
      {
        assert old(Held(u));
      }
    }

    twostate lemma OneTradeAdded(id: nat)
      requires old(TradesOk()) && id !in old(trades) && id in trades && trades == old(trades)[id := trades[id]]
      requires fresh(trades[id]) && trades[id].id == id && trades[id].Valid()
      requires id <= tradeSeq && old(tradeSeq) <= tradeSeq
      requires forall u :: u in old(trades) ==> unchanged(old(trades)[u])
      requires bannedEntry == old(bannedEntry) && bannedExit == old(bannedExit)
      ensures TradesOk() && KeptTrades()
    {
    }

    /** A new trade takes the active slot, or is over from the start; the slot it takes held nothing live. */
    twostate lemma OneTradeJoins(id: nat)
      requires old(TradesOk() && AllHeld()) && (old(active).Some? ==> old(active).value in old(trades))
      requires id !in old(trades) && id in trades && trades == old(trades)[id := trades[id]]
      requires fresh(trades[id]) && trades[id].id == id && trades[id].Valid()
      requires id <= tradeSeq && old(tradeSeq) <= tradeSeq
      requires forall u :: u in old(trades) ==> unchanged(old(trades)[u])
      requires bannedEntry == old(bannedEntry) && bannedExit == old(bannedExit)
      requires if pending.Some? then
                 pending == old(pending) && old(PendingOk(pending.value)) && pending.value.tradeId != id
               else old(pending).Some? ==> old(pending).value.context.None?
      requires if Terminal(trades[id].ctx.status) then active == old(active)
               else active == Some(id) && (old(active).Some? ==> old(Terminal(trades[active.value].ctx.status)))
      ensures Valid() && KeptTrades()
    {
      OneTradeAdded(id);
      forall t | t in trades && !Terminal(trades[t].ctx.status)
        ensures Held(t)
      {
        assert t in old(trades) ==> old(Held(t));
      }
    }

    /** A new trade beside the active one, held as the reserved replacement. */
    twostate lemma OneTradeWaits(id: nat)
      requires old(Valid()) && id !in old(trades) && id in trades && trades == old(trades)[id := trades[id]]
      requires fresh(trades[id]) && trades[id].id == id && trades[id].Valid() && tradeSeq == old(tradeSeq)
      requires forall u :: u in old(trades) ==> unchanged(old(trades)[u])
      requires active == old(active) && bannedEntry == old(bannedEntry) && bannedExit == old(bannedExit)
      requires old(pending).Some? && old(pending).value.context.None? && old(pending).value.tradeId == id
      requires pending == Some(old(pending).value.(context := Some(id)))
      ensures Valid() && KeptTrades()
    {
      OneTradeAdded(id);
      forall t | t in trades && !Terminal(trades[t].ctx.status)
        ensures Held(t)
      {
        assert t in old(trades) ==> old(Held(t));
      }
      assert old(PendingOk(pending.value));
    }

    constructor (needConfirm: bool, shortAllowed: bool)
      ensures Valid() && trades == map[] && active.None? && pending.None?
      ensures this.needConfirm == needConfirm && this.shortAllowed == shortAllowed
    {
      this.needConfirm, this.shortAllowed := needConfirm, shortAllowed;
      trades, active, pending, bannedEntry, bannedExit, tradeSeq := map[], None, None, {}, {}, 0;
    }

    // ---- Entering ----

    /** The entry order is out, with a stop at the trade's stop price, unless the broker refused. */
    ghost predicate EntrySent(trade: Trade)
      reads trade
    {
      trade.refusals == 0 ==>
        && trade.ctx.order.Some?
        && (trade.ctx.stopPrice.Some? ==> Stands(trade.book, trade.ctx.stopOrder, trade.ctx.stopPrice, false))
    }

    method StartTrade(id: nat, direction: Direction, key: KeyBar, initialStop: real) returns (trade: Trade)
      ensures fresh(trade) && trade.Valid() && trade.id == id
      ensures trade.ctx.status == if key.index in bannedEntry then Cancelled
                                  else if needConfirm then PendingEntryConfirm else Opening
      ensures trade.ctx.direction == direction && trade.ctx.key == key
      ensures trade.ctx.status == Opening ==> EntrySent(trade)
    {
      trade := new Trade.Start(id, direction, key, needConfirm, key.index in bannedEntry, initialStop);
      if key.index !in bannedEntry && !needConfirm {
        trade.OpenEntry();
      }
    }

    /** Registers a trade, cancelled at once on a banned key bar, and opens it unless it must be confirmed first. */
    method EnterTrade(direction: Direction, key: KeyBar, initialStop: real, reserved: Option<nat>,
                      allowActive: bool, activate: bool) returns (r: Entering)
      requires TradesOk() && (active.Some? ==> active.value in trades)
      requires reserved.Some? ==> reserved.value <= tradeSeq && reserved.value !in trades
      modifies this`trades, this`active, this`tradeSeq
      ensures TradesOk() && (active.Some? ==> active.value in trades)
      ensures r.ShortDisabled? <==> direction == Short && !shortAllowed
      ensures r.ActiveTradeExists? <==>
                !(direction == Short && !shortAllowed) && !allowActive && old(active).Some? &&
                !Terminal(old(trades[active.value].ctx.status))
      ensures !r.Entered? ==> trades == old(trades) && active == old(active) && tradeSeq == old(tradeSeq)
      ensures r.Entered? ==> r.id !in old(trades) && r.id in trades && trades == old(trades)[r.id := trades[r.id]]
      ensures r.Entered? ==> fresh(trades[r.id])
      ensures r.Entered? ==> r.id == reserved.GetOr(old(tradeSeq) + 1)
      ensures tradeSeq == if r.Entered? && reserved.None? then old(tradeSeq) + 1 else old(tradeSeq)
      ensures r.Entered? ==>
                trades[r.id].ctx.status == if key.index in bannedEntry then Cancelled
                                           else if needConfirm then PendingEntryConfirm else Opening
      ensures r.Entered? && trades[r.id].ctx.status == Opening ==> EntrySent(trades[r.id])
      ensures r.Entered? ==> active == if activate && key.index !in bannedEntry then Some(r.id) else old(active)
    {
      if direction == Short && !shortAllowed {
        return ShortDisabled;
      }
      if !allowActive && active.Some? && !Terminal(trades[active.value].ctx.status) {
        return ActiveTradeExists;
      }
      var id;
      if reserved.Some? {
        id := reserved.value;
      } else {
        tradeSeq := tradeSeq + 1;
        id := tradeSeq;
      }
      AddTrade(id, direction, key, initialStop);
      if activate && key.index !in bannedEntry {
        active := Some(id);
      }
      return Entered(id);
    }

    method AddTrade(id: nat, direction: Direction, key: KeyBar, initialStop: real)
      requires TradesOk() && id <= tradeSeq && id !in trades
      modifies this`trades
      ensures TradesOk() && id in trades && trades == old(trades)[id := trades[id]] && fresh(trades[id])
      ensures trades[id].ctx.status == if key.index in bannedEntry then Cancelled
                                       else if needConfirm then PendingEntryConfirm else Opening
      ensures trades[id].ctx.status == Opening ==> EntrySent(trades[id])
    {
      var trade := StartTrade(id, direction, key, initialStop);
      trades := trades[id := trade];
    }

    ghost predicate HasLiveTrade()
      requires Valid()
      reads this, trades.Values
    {
      active.Some? && !Terminal(trades[active.value].ctx.status)
    }

    /** A routed entry signal. */
    method Enter(direction: Direction, key: KeyBar, initialStop: real) returns (r: Entering)
      requires Valid()
      modifies this, trades.Values
      ensures Valid() && Kept() && pending == old(pending)
      ensures r.ShortDisabled? <==> direction == Short && !shortAllowed
      ensures r.ActiveTradeExists? <==> !(direction == Short && !shortAllowed) && old(HasLiveTrade())
      ensures !r.Entered? ==> trades == old(trades) && active == old(active) && tradeSeq == old(tradeSeq)
      ensures r.Entered? ==> r.id == tradeSeq == old(tradeSeq) + 1 && trades.Keys == old(trades).Keys + {r.id}
      ensures r.Entered? ==>
                trades[r.id].ctx.status == if key.index in bannedEntry then Cancelled
                                           else if needConfirm then PendingEntryConfirm else Opening
      ensures r.Entered? && trades[r.id].ctx.status == Opening ==> EntrySent(trades[r.id])
      ensures r.Entered? ==> active == if key.index in bannedEntry then old(active) else Some(r.id)
      ensures StaysStuck()
    {
      r := EnterTrade(direction, key, initialStop, None, false, true);
      if r.Entered? {
        OneTradeJoins(r.id);
      } else {
        NothingMoved();
      }
    }

    // ---- Leaving ----

    /** An exit request for a trade, or for the active one. */
    method ExitTrade(ref: Option<nat>, key: KeyBar, confirm: bool, code: ReasonCode, closeSize: real)
      requires Valid()
      modifies this, trades.Values
      ensures Valid() && Kept() && trades == old(trades) && active == old(active) && pending == old(pending)
      ensures bannedEntry == old(bannedEntry) && bannedExit == old(bannedExit) && tradeSeq == old(tradeSeq)
      ensures var t := if ref.Some? then ref else active;
              t.Some? && t.value in trades ==>
                OthersUntouched(t.value) &&
                ExitAsked(old(trades[t.value].ctx), key, key.index in bannedExit, confirm, code, closeSize,
                          trades[t.value].Refused(), trades[t.value].ctx)
      ensures StaysStuck()
    {
      var t := if ref.Some? then ref else active;
      if t.None? || t.value !in trades {
        return;
      }
      var trade := trades[t.value];
      trade.RequestExit(key, key.index in bannedExit, confirm, code, closeSize);
      OneTradeMoves(t.value);
    }

    // ---- Replacing ----

    /** Claims the next trade id for a replacement of the live active trade. */
    method Reserve(direction: Direction, key: KeyBar) returns (id: nat)
      requires Valid() && pending.None?
      requires active.Some? && !Terminal(trades[active.value].ctx.status)
      modifies this, trades.Values
      ensures Valid() && KeptTrades() && trades == old(trades) && active == old(active)
      ensures id == tradeSeq == old(tradeSeq) + 1 && id !in trades
      ensures active.Some? && pending == Some(Replacement(id, active.value, direction, key, None))
      ensures bannedEntry == old(bannedEntry) && bannedExit == old(bannedExit)
      ensures trades[active.value].ctx == old(trades[active.value].ctx).(replacement := Some(id))
      ensures !trades[active.value].Refused()
      ensures StaysStuck()
    {
      var t := active.value;
      trades[t].NoteReplacement(tradeSeq + 1);
      OneTradeMoves(t);
      tradeSeq := tradeSeq + 1;
      id := tradeSeq;
      pending := Some(Replacement(id, t, direction, key, None));
      forall u | u in trades && !Terminal(trades[u].ctx.status)
        ensures Held(u)
      {
        assert old(Held(u));
      }
    }

    /** Claims the id and asks the active trade to exit at once. */
    method ExitForReplacement(direction: Direction, key: KeyBar, closeSize: real)
      requires Valid() && pending.None?
      requires active.Some? && !Terminal(trades[active.value].ctx.status)
      modifies this, trades.Values
      ensures Valid() && KeptTrades() && trades == old(trades) && active == old(active)
      ensures tradeSeq == old(tradeSeq) + 1 && tradeSeq !in trades
      ensures active.Some? && pending == Some(Replacement(tradeSeq, active.value, direction, key, None))
      ensures bannedExit == old(bannedExit)
      ensures ExitAsked(old(trades[active.value].ctx).(replacement := Some(tradeSeq)), key, key.index in bannedExit,
                        false, "signal_replaced", closeSize,
                          trades[active.value].Refused(), trades[active.value].ctx)
      ensures StaysStuck()
    {
      var id := Reserve(direction, key);
      ExitTrade(active, key, false, "signal_replaced", closeSize);
    }

    /** Creates the reserved trade beside the one being replaced; it waits as the replacement. */
    method EnterReserved(initialStop: real) returns (r: Entering)
      requires Valid() && pending.Some? && pending.value.context.None?
      modifies this`trades, this`active, this`pending, this`tradeSeq
      ensures Valid() && KeptTrades() && active == old(active)
      ensures r.ShortDisabled? <==> old(pending).value.direction == Short && !shortAllowed
      ensures r.Entered? <==> !r.ShortDisabled?
      ensures r.ShortDisabled? ==> trades == old(trades) && pending == old(pending)
      ensures r.Entered? ==> r.id == old(pending).value.tradeId && trades.Keys == old(trades).Keys + {r.id}
      ensures r.Entered? ==> pending == Some(old(pending).value.(context := Some(r.id)))
      ensures r.Entered? ==>
                trades[r.id].ctx.status == if old(pending).value.key.index in bannedEntry then Cancelled
                                           else if needConfirm then PendingEntryConfirm else Opening
      ensures StaysStuck()
    {
      var p := pending.value;
      r := EnterTrade(p.direction, p.key, initialStop, Some(p.tradeId), true, false);
      if r.Entered? {
        pending := Some(p.(context := Some(r.id)));
        OneTradeWaits(r.id);
      } else {
        NothingMoved();
      }
    }

    /**
     A routed replacement signal: enter if nothing live is active, do nothing while another replacement waits, else
     ask the active trade to exit at once and, without confirmation, create its successor beside it.
     */
    method ScheduleReplacement(direction: Direction, key: KeyBar, initialStop: real, closeSize: real)
        returns (scheduled: bool)
      requires Valid()
      modifies this, trades.Values
      ensures Valid() && Kept()
      ensures scheduled <==> old(HasLiveTrade()) && old(pending).None?
      ensures !old(HasLiveTrade()) && (direction == Long || shortAllowed) ==>
                tradeSeq == old(tradeSeq) + 1 && trades.Keys == old(trades).Keys + {tradeSeq}
      ensures old(pending).Some? ==> pending == old(pending)
      ensures old(pending).Some? && old(HasLiveTrade()) ==> trades == old(trades) && active == old(active)
      ensures scheduled ==> pending.Some? && active == old(active) && active == Some(pending.value.replaced)
      ensures scheduled ==>
                ExitAsked(old(trades[active.value].ctx).(replacement := Some(pending.value.tradeId)), key,
                          key.index in old(bannedExit), false, "signal_replaced", closeSize,
                          trades[active.value].Refused(), trades[active.value].ctx)
      ensures scheduled && needConfirm ==> trades == old(trades) && pending.value.context.None?
      ensures scheduled && !needConfirm && (direction == Long || shortAllowed) ==> pending.value.context.Some?
      ensures StaysStuck()
    {
      if active.None? || Terminal(trades[active.value].ctx.status) {
        var entered := Enter(direction, key, initialStop);
        return false;
      }
      if pending.Some? {
        return false;
      }
      ExitForReplacement(direction, key, closeSize);
      if !needConfirm {
        label Asked:
        var entered := EnterReserved(initialStop);
        assert unchanged@Asked(trades[active.value]);
      }
      return true;
    }

    // ---- Broker notifications ----

    /**
     A replacement that already exists becomes active unless it was cancelled meanwhile; one that is only reserved is
     entered now, if new positions are allowed.
     */
    twostate predicate HandsOver(p: Replacement, canOpen: bool)
      reads this, trades.Values
    {
      && pending.None?
      && if p.context.Some? then
           && trades == old(trades) && p.tradeId in trades
           && active == if trades[p.tradeId].ctx.status == Cancelled then None else Some(p.tradeId)
         else if canOpen && (p.direction == Long || shortAllowed) then
           && trades.Keys == old(trades).Keys + {p.tradeId}
           && active == if p.key.index in bannedEntry then None else Some(p.tradeId)
         else trades == old(trades) && active.None?
    }

    /** A closed trade hands over to the replacement that was scheduled for it, if any. */
    method OpenPendingReplacement(closed: nat, canOpen: bool, initialStop: real)
      requires TradesOk() && AllHeld() && (active.Some? ==> active.value in trades)
      requires closed in trades && trades[closed].ctx.status == Closed
      requires pending.Some? && pending.value.replaced != closed ==> PendingOk(pending.value)
      requires pending.Some? && pending.value.replaced == closed ==> PendingRefs(pending.value) && active.None?
      modifies this
      ensures Valid() && KeptTrades()
      ensures !old(Awaits(closed)) ==> pending == old(pending) && active == old(active) && trades == old(trades)
      ensures old(Awaits(closed)) ==> HandsOver(old(pending).value, canOpen)
      ensures StaysStuck()
    {
      if pending.None? || pending.value.replaced != closed {
        return;
      }
      if pending.value.context.Some? {
        HandOver();
      } else {
        OpenReserved(canOpen, initialStop);
      }
    }

    method HandOver()
      requires TradesOk() && AllHeld() && active.None?
      requires pending.Some? && PendingRefs(pending.value) && pending.value.context.Some?
      modifies this`active, this`pending
      ensures Valid() && KeptTrades() && HandsOver(old(pending).value, true)
    {
      var p := pending.value;
      pending := None;
      if trades[p.context.value].ctx.status != Cancelled {
        active := p.context;
      }
      HandedOver();
    }

    twostate lemma HandedOver()
      requires old(TradesOk() && AllHeld()) && old(active).None? && pending.None?
      requires old(pending).Some? && old(PendingRefs(pending.value)) && old(pending).value.context.Some?
      requires trades == old(trades) && tradeSeq == old(tradeSeq) && forall u :: u in trades ==> unchanged(trades[u])
      requires bannedEntry == old(bannedEntry) && bannedExit == old(bannedExit)
      requires var c := old(pending).value.tradeId;
               active == if trades[c].ctx.status == Cancelled then None else Some(c)
      ensures Valid() && KeptTrades()
    {
      forall u | u in trades && !Terminal(trades[u].ctx.status)
        ensures Held(u)
      {
        assert old(Held(u));
      }
    }

    method OpenReserved(canOpen: bool, initialStop: real)
      requires TradesOk() && AllHeld() && active.None?
      requires pending.Some? && PendingRefs(pending.value) && pending.value.context.None?
      modifies this
      ensures Valid() && KeptTrades() && HandsOver(old(pending).value, canOpen)
    {
      var p := pending.value;
      pending := None;
      if canOpen {
        var entered := EnterTrade(p.direction, p.key, initialStop, Some(p.tradeId), false, true);
        if entered.Entered? {
          OneTradeJoins(p.tradeId);
          return;
        }
      }
      ReservationDropped();
    }

    /** A reservation that opened no trade leaves nothing live behind. */
    twostate lemma ReservationDropped()
      requires old(TradesOk() && AllHeld()) && old(active).None? && active.None? && pending.None?
      requires old(pending).Some? && old(pending).value.context.None?
      requires trades == old(trades) && tradeSeq == old(tradeSeq) && forall u :: u in trades ==> unchanged(trades[u])
      requires bannedEntry == old(bannedEntry) && bannedExit == old(bannedExit)
      ensures Valid() && KeptTrades()
    {
      forall u | u in trades && !Terminal(trades[u].ctx.status)
        ensures Held(u)
      {
        assert old(Held(u));
      }
    }

    ghost predicate Awaits(t: nat)
      reads this
    {
      pending.Some? && pending.value.replaced == t
    }

    /** The fill of an exit, stop or take-profit order of a trade that is not closed yet. */
    method CloseTrade(t: nat, r: nat, price: real, canOpen: bool, initialStop: real)
      requires Valid() && t in trades && trades[t].ctx.status != Closed && DeliveredInOrder(trades[t].book, r)
      requires trades[t].book[r].role != Entry && trades[t].book[r].status == Completed
      modifies this, trades.Values
      ensures Valid() && Kept() && t in trades
      ensures trades[t].ctx.status == Closed && trades[t].ctx.exitPrice == Some(price)
      ensures trades[t].ctx.exitReason == ReasonOf(old(trades[t].ctx), old(trades[t].book)[r].role)
      ensures old(Awaits(t)) ==> HandsOver(old(pending).value, canOpen)
      ensures !old(Awaits(t)) ==>
                pending == old(pending) && active == if old(active) == Some(t) then None else old(active)
      ensures StaysStuck()
    {
      LeaveTrade(t, r, price);
      OpenPendingReplacement(t, canOpen, initialStop);
    }

    method LeaveTrade(t: nat, r: nat, price: real)
      requires Valid() && t in trades && trades[t].ctx.status != Closed && DeliveredInOrder(trades[t].book, r)
      requires trades[t].book[r].role != Entry && trades[t].book[r].status == Completed
      modifies this, trades.Values
      ensures TradesOk() && AllHeld() && KeptTrades() && (active.Some? ==> active.value in trades)
      ensures trades == old(trades) && pending == old(pending)
      ensures active == if old(active) == Some(t) then None else old(active)
      ensures trades[t].ctx.status == Closed && trades[t].ctx.exitPrice == Some(price)
      ensures trades[t].ctx.exitReason == ReasonOf(old(trades[t].ctx), old(trades[t].book)[r].role)
      ensures pending.Some? && !Awaits(t) ==> PendingOk(pending.value)
      ensures pending.Some? && Awaits(t) ==> PendingRefs(pending.value) && active.None?
      ensures StaysStuck()
    {
      FilledIsOpen(trades[t].ctx, trades[t].book, r);
      trades[t].ExitFilled(r, price);
      if active == Some(t) {
        active := None;
      }
      CloseLeaves(t);
    }

    /** Closing a trade and clearing the active slot leaves everything else held as it was. */
    twostate lemma CloseLeaves(t: nat)
      requires old(Valid()) && OthersUntouched(t) && t in trades && trades[t].Valid()
      requires Evolves(old(trades[t].ctx), trades[t].ctx) && trades[t].ctx.status == Closed
      requires old(trades[t].ctx.status) != Closed && old(trades[t].ctx.status) != Cancelled
      requires active == if old(active) == Some(t) then None else old(active)
      requires pending == old(pending) && tradeSeq == old(tradeSeq)
      requires bannedEntry == old(bannedEntry) && bannedExit == old(bannedExit)
      ensures TradesOk() && AllHeld() && KeptTrades() && (active.Some? ==> active.value in trades)
      ensures pending.Some? && !Awaits(t) ==> PendingOk(pending.value)
      ensures pending.Some? && Awaits(t) ==> PendingRefs(pending.value) && active.None?
    {
      OneTradeChanged(t);
      forall u | u in trades && !Terminal(trades[u].ctx.status)
        ensures Held(u)
      {
        assert old(Held(u));
      }
    }

    /** A trade cancelled before its entry filled only frees the active slot; a replacement scheduled for it stays. */
    twostate lemma CancelLeaves(t: nat)
      requires old(Valid()) && OthersUntouched(t) && t in trades && trades[t].Valid()
      requires Evolves(old(trades[t].ctx), trades[t].ctx) && trades[t].ctx.status == Cancelled
      requires old(trades[t].ctx.status) != Closed
      requires active == if old(active) == Some(t) then None else old(active)
      requires pending == old(pending) && tradeSeq == old(tradeSeq)
      requires old(bannedEntry) <= bannedEntry && bannedExit == old(bannedExit)
      ensures Valid() && Kept()
    {
      OneTradeChanged(t);
      forall u | u in trades && !Terminal(trades[u].ctx.status)
        ensures Held(u)
      {
        assert old(Held(u));
      }
    }

    /** The broker reports the final status of an order. */
    method NotifyOrder(t: nat, r: nat, price: real, takeProfit: Option<real>, closeSize: real,
                       canOpen: bool, initialStop: real)
      requires Valid() && t in trades && DeliveredInOrder(trades[t].book, r)
      modifies this, trades.Values
      ensures Valid() && Kept() && t in trades
      ensures Outcome(old(trades[t].ctx), old(trades[t].book)[r], price, trades[t].ctx)
      ensures old(trades[t].ctx.status) != Closed && trades[t].ctx.status == Closed && old(Awaits(t)) ==>
                HandsOver(old(pending).value, canOpen)
      ensures old(trades[t].book)[r].role == Entry && trades[t].ctx.status == Active && closeSize > 0.0 ==>
                Stands(trades[t].book, trades[t].ctx.stopOrder, trades[t].ctx.stopPrice, trades[t].Refused()) &&
                (takeProfit.Some? ==> Stands(trades[t].book, trades[t].ctx.tpOrder, takeProfit, trades[t].Refused()))
      ensures trades[t].ctx.status == old(trades[t].ctx.status) || trades[t].ctx.status == Active ==>
                active == old(active) && pending == old(pending) && trades == old(trades)
      ensures trades[t].ctx.status == Cancelled && old(trades[t].ctx.status) == Opening ==>
                active != Some(t) && pending == old(pending)
      ensures StaysStuck()
    {
      var c, o := trades[t].ctx, trades[t].book[r];
      if c.status != Closed && o.status == Completed && o.role != Entry {
        CloseTrade(t, r, price, canOpen, initialStop);
      } else if o.status != Completed && o.role == Entry {
        FailEntry(t, r);
      } else {
        HearOrder(t, r, price, takeProfit, closeSize);
      }
    }

    /** A notification that neither closes the trade nor cancels it. */
    method HearOrder(t: nat, r: nat, price: real, takeProfit: Option<real>, closeSize: real)
      requires Valid() && t in trades && DeliveredInOrder(trades[t].book, r)
      requires trades[t].book[r].role == Entry ==> trades[t].book[r].status == Completed
      requires trades[t].book[r].role != Entry && trades[t].book[r].status == Completed ==>
                 trades[t].ctx.status == Closed
      modifies this, trades.Values
      ensures Valid() && Kept() && trades == old(trades) && active == old(active) && pending == old(pending)
      ensures Outcome(old(trades[t].ctx), old(trades[t].book)[r], price, trades[t].ctx)
      ensures trades[t].ctx.status == old(trades[t].ctx.status) || trades[t].ctx.status == Active
      ensures old(trades[t].book)[r].role == Entry && closeSize > 0.0 ==>
                Stands(trades[t].book, trades[t].ctx.stopOrder, trades[t].ctx.stopPrice, trades[t].Refused()) &&
                (takeProfit.Some? ==> Stands(trades[t].book, trades[t].ctx.tpOrder, takeProfit, trades[t].Refused()))
      ensures StaysStuck()
    {
      trades[t].Hear(r, price, takeProfit, closeSize);
      OneTradeMoves(t);
    }

    method FailEntry(t: nat, r: nat)
      requires Valid() && t in trades && Reports(trades[t].book, r, Entry) && trades[t].book[r].status != Completed
      modifies this, trades.Values
      ensures Valid() && Kept() && trades == old(trades) && pending == old(pending)
      ensures old(trades[t].ctx.status) == Opening && trades[t].ctx.status == Cancelled
      ensures active == if old(active) == Some(t) then None else old(active)
      ensures old(Awaits(t)) ==> Stranded()
      ensures StaysStuck()
    {
      assert OrderFits(trades[t].ctx, r, trades[t].book[r]);
      trades[t].EntryFailed(r);
      if active == Some(t) {
        active := None;
      }
      CancelLeaves(t);
    }

    // ---- Bars ----

    method ConfirmActiveEntry(close: real, opposing: bool, canOpen: bool)
      requires Valid() && active.Some? && trades[active.value].ctx.status == PendingEntryConfirm
      modifies this, trades.Values
      ensures Valid() && Kept() && OthersUntouched(old(active).value) && pending == old(pending)
      ensures active == old(active) || active.None?
      ensures var t := old(active).value;
              EntryDecided(old(trades[active.value].ctx), close, opposing, canOpen, trades[t].ctx.status) &&
              (active.None? <==> trades[t].ctx.status == Cancelled) &&
              (active.None? ==> trades[t].ctx.key.index in bannedEntry)
    {
      var t := active.value;
      var dropped := trades[t].ConfirmEntry(close, opposing, canOpen);
      if dropped {
        bannedEntry := bannedEntry + {trades[t].ctx.key.index};
        active := None;
        CancelLeaves(t);
      } else {
        OneTradeMoves(t);
      }
    }

    method ConfirmActiveExit(close: real, closeSize: real)
      requires Valid() && active.Some? && trades[active.value].ctx.status == PendingExitConfirm
      modifies this, trades.Values
      ensures Valid() && Kept() && OthersUntouched(old(active).value)
      ensures pending == old(pending) && active == old(active)
      ensures ExitDecided(old(trades[active.value].ctx), close, closeSize, trades[active.value].Refused(),
                          trades[active.value].ctx)
      ensures trades[active.value].ctx.status == Active ==>
                old(trades[active.value].ctx.exitKey).value.index in bannedExit
    {
      var t := active.value;
      var index := trades[t].ctx.exitKey.value.index;
      var failed := trades[t].ConfirmExit(close, closeSize);
      if failed {
        bannedExit := bannedExit + {index};
      }
      OneTradeMoves(t);
    }

    /** One bar for the active trade. */
    method ProcessTradeEngine(bar: KeyBar, close: real, opposing: bool, canOpen: bool, closeSize: real,
                              breakeven: Option<real>, trails: bool, trailing: Option<real>)
      requires Valid()
      modifies this, trades.Values
      ensures Valid() && Kept() && trades == old(trades) && pending == old(pending)
      ensures active == old(active) || active.None?
      ensures old(active).None? ==> forall u :: u in trades ==> unchanged(trades[u])
      ensures old(active).Some? ==>
                var t := old(active).value;
                var c, c' := old(trades[active.value].ctx), trades[t].ctx;
                && OthersUntouched(t)
                && (c.status == PendingEntryConfirm ==> EntryDecided(c, close, opposing, canOpen, c'.status))
                && (c.status == PendingExitConfirm ==> ExitDecided(c, close, closeSize, trades[t].Refused(), c'))
                && (c.status == Opening || c.status == Closing || Terminal(c.status) ==>
                      && unchanged(old(trades)[t]) && active == old(active)
                      && bannedEntry == old(bannedEntry) && bannedExit == old(bannedExit))
                && (c.status == Active ==>
                      Minded(c, close, bar.index in old(bannedExit), breakeven, trails, trailing, closeSize,
                             trades[t].Refused(), c', trades[t].book))
      ensures old(active).Some? && active.None? ==>
                var t := old(active).value;
                t in trades && trades[t].ctx.status == Cancelled && trades[t].ctx.key.index in bannedEntry
      ensures old(active).Some? && active.None? && old(Awaits(active.value)) ==> Stranded()
      ensures StaysStuck()
    {
      if active.None? {
        return;
      }
      var t := active.value;
      var trade := trades[t];
      if trade.ctx.status == PendingEntryConfirm {
        ConfirmActiveEntry(close, opposing, canOpen);
      } else if trade.ctx.status == PendingExitConfirm {
        ConfirmActiveExit(close, closeSize);
      } else if trade.ctx.status == Active {
        trade.Protect(bar, close, bar.index in bannedExit, breakeven, trails, trailing, closeSize);
        OneTradeMoves(t);
      }
    }

    // ---- Whole runs ----

    /** The trade to be replaced was cancelled, so nothing will ever take the replacement up. */
    ghost predicate Stranded()
      reads this, trades.Values
    {
      pending.Some? && pending.value.replaced in trades && trades[pending.value.replaced].ctx.status == Cancelled
    }

    /** What the environment may do next; the broker reports each final status once, entries first. */
    predicate Possible(e: Event)
      reads this, trades.Values
    {
      match e
      case Finishes(t, r, status) =>
        t in trades && r < |trades[t].book| && trades[t].book[r].status == Working && status != Working
      case Notifies(t, r, _, _, _, _, _) => t in trades && DeliveredInOrder(trades[t].book, r)
      case _ => true
    }

    /** The pending replacement waits for a trade that was cancelled, or for one that can never leave its place. */
    ghost predicate Lost()
      reads this, trades.Values
    {
      pending.Some? && (Stranded() || Stuck())
    }

    /** Otherwise it waits for the active trade, and a bar or an order not reported yet can still move that. */
    lemma NotLostCanMove()
      requires Valid() && pending.Some? && !Lost()
      ensures active == Some(pending.value.replaced) && active.value in trades
      ensures var trade := trades[active.value];
              && !Terminal(trade.ctx.status)
              && (trade.ctx.status == Opening || trade.ctx.status == Closing ==>
                    && trade.ctx.order.Some? && trade.ctx.order.value < |trade.book|
                    && !trade.book[trade.ctx.order.value].notified)
    {
    }

    method Step(e: Event)
      requires Valid() && Possible(e)
      modifies this, trades.Values
      ensures Valid() && Kept()
      ensures StaysStuck()
    {
      match e
      case Enters(direction, key, initialStop) =>
        var entered := Enter(direction, key, initialStop);
      case Exits(ref, key, confirm, code, closeSize) =>
        ExitTrade(ref, key, confirm, code, closeSize);
      case Replaces(direction, key, initialStop, closeSize) =>
        var scheduled := ScheduleReplacement(direction, key, initialStop, closeSize);
      case Bars(bar, close, opposing, canOpen, closeSize, breakeven, trails, trailing) =>
        ProcessTradeEngine(bar, close, opposing, canOpen, closeSize, breakeven, trails, trailing);
      case Finishes(t, r, status) =>
        trades[t].Finish(r, status);
        OneTradeMoves(t);
      case Notifies(t, r, price, takeProfit, closeSize, canOpen, initialStop) =>
        NotifyOrder(t, r, price, takeProfit, closeSize, canOpen, initialStop);
    }

    /**
     Over any run: the trade invariants hold throughout; closed and cancelled trades never change again; a stranded
     replacement stays stranded; one scheduled for a filled trade never strands.
     */
    method Run(events: seq<Event>)
      requires Valid()
      modifies this, trades.Values
      ensures Valid() && Kept()
      ensures old(Stranded()) ==> Stranded() && pending == old(pending)
      ensures old(Lost()) ==> Lost() && pending == old(pending)
      ensures old(pending).Some? && old(Filled(trades[pending.value.replaced].ctx.status))
              && pending == old(pending) ==>
                !Stranded()
      ensures StaysStuck()
    {
      for i := 0 to |events|
        invariant Valid() && Kept() && StaysStuck()
      {
        if Possible(events[i]) {
          Step(events[i]);
        }
      }
    }
  }
}
