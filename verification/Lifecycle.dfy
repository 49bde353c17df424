/** One trade: its context, the orders the broker holds for it, and what every step on them keeps. */
module Lifecycle {
  import opened Common

  datatype Status = PendingEntryConfirm | Opening | Active | PendingExitConfirm | Closing | Closed | Cancelled

  datatype Direction = Long | Short

  datatype Role = Entry | Exit | Stop | TakeProfit

  /** Submitted, accepted and partially filled orders are all Working; the others are final. */
  datatype OrderStatus = Working | Completed | Canceled | Margin | Rejected

  /** `price` is the trigger or limit price; `notified`, that the final status was delivered to the strategy. */
  datatype Order = Order(role: Role, price: real, status: OrderStatus, notified: bool)

  datatype KeyBar = KeyBar(index: int, high: real, low: real)

  type ReasonCode = string

  datatype Context = Context(
    direction: Direction,
    key: KeyBar,
    status: Status,
    order: Option<nat>,
    entryPrice: Option<real>,
    exitPrice: Option<real>,
    initialStop: Option<real>,
    stopPrice: Option<real>,
    trailingStop: Option<real>,
    tpPrice: Option<real>,
    stopOrder: Option<nat>,
    tpOrder: Option<nat>,
    exitKey: Option<KeyBar>,
    entryKeyBanned: bool,
    exitKeyBanned: bool,
    pendingReason: Option<ReasonCode>,
    requestedReason: Option<ReasonCode>,
    exitReason: Option<ReasonCode>,
    replacement: Option<nat>)

  const FRAMEWORK_STOP: ReasonCode := "framework_stop"
  const TAKE_PROFIT: ReasonCode := "risk_reward_take_profit"
  const UNCLASSIFIED_EXIT: ReasonCode := "unclassified_exit"

  predicate Terminal(s: Status) {
    s == Closed || s == Cancelled
  }

  /** The entry order has been filled. */
  predicate Filled(s: Status) {
    s == Active || s == PendingExitConfirm || s == Closing || s == Closed
  }

  function Created(direction: Direction, key: KeyBar, confirm: bool): Context {
    Context(direction, key, if confirm then PendingEntryConfirm else Opening, None, None, None, None, None, None,
            None, None, None, None, false, false, None, None, None, None)
  }

  // ---- What holds of a trade between any two callbacks ----

  /** Prices and reasons agree with the status: a closed trade is fully accounted for. */
  predicate FieldsFit(c: Context) {
    && (c.entryPrice.Some? <==> Filled(c.status))
    && (c.entryPrice.Some? ==> c.initialStop.Some? && c.stopPrice.Some?)
    && (c.exitPrice.Some? <==> c.status == Closed)
    && (c.status == Closed ==> c.exitReason.Some? && c.pendingReason.None?)
    && (c.pendingReason.None? ==> c.requestedReason.None?)
    && (c.status == Closing || c.status == PendingExitConfirm ==> c.pendingReason.Some?)
    && (c.status == PendingExitConfirm ==> c.exitKey.Some?)
    && (c.status == PendingEntryConfirm || (c.status == Opening && c.order.None?) ==> c.stopOrder.None?)
  }

  /** Which orders may still be working, or still be unreported, given the state of their trade. */
  predicate OrderFits(c: Context, r: nat, o: Order) {
    && (o.notified ==> o.status != Working)
    && match o.role
       case Entry =>
         if !o.notified then c.status == Opening && c.order == Some(r)
         else if o.status == Completed then c.entryPrice.Some?
         else c.status == Cancelled
       case Exit =>
         c.entryPrice.Some? && (!o.notified ==> c.status == Closed || (c.status == Closing && c.order == Some(r)))
       case Stop =>
         o.status == Working ==>
           && c.stopOrder == Some(r) && !Terminal(c.status) && c.status != PendingEntryConfirm
           && (c.status == Opening ==> c.stopPrice == Some(o.price))
       case TakeProfit =>
         o.status == Working ==> c.tpOrder == Some(r) && !Terminal(c.status) && c.entryPrice.Some?
  }

  predicate RefersTo(book: seq<Order>, ref: Option<nat>, role: Role) {
    ref.Some? ==> ref.value < |book| && book[ref.value].role == role
  }

  predicate Healthy(c: Context, book: seq<Order>) {
    && FieldsFit(c)
    && RefersTo(book, c.stopOrder, Stop)
    && RefersTo(book, c.tpOrder, TakeProfit)
    && (c.status == Closing ==>
          c.order.Some? && RefersTo(book, c.order, Exit) && !book[c.order.value].notified)
    && (c.status == Opening ==>
          RefersTo(book, c.order, Entry) && (c.order.Some? ==> !book[c.order.value].notified))
    && forall r: nat {:trigger OrderFits(c, r, book[r])} :: r < |book| ==> OrderFits(c, r, book[r])
  }

  /** At most one stop and one take-profit work for a trade, and none once it is terminal. */
  lemma OneProtectionOfAKind(c: Context, book: seq<Order>, r: nat, s: nat)
    requires Healthy(c, book) && r < |book| && s < |book|
    requires book[r].role == book[s].role && (book[r].role == Stop || book[r].role == TakeProfit)
    requires book[r].status == Working
    ensures !Terminal(c.status)
    ensures book[s].status == Working ==> s == r
    ensures if book[r].role == Stop then c.stopOrder == Some(r) else c.tpOrder == Some(r)
  {
    assert OrderFits(c, r, book[r]) && OrderFits(c, s, book[s]);
  }

  /** What no later callback may undo. */
  predicate Evolves(a: Context, b: Context) {
    && (Terminal(a.status) ==>
          b.status == a.status && b.entryPrice == a.entryPrice && b.exitPrice == a.exitPrice &&
          b.exitReason == a.exitReason && b.pendingReason == a.pendingReason)
    && (a.entryPrice.Some? ==> b.entryPrice == a.entryPrice)
    && (b.status == PendingEntryConfirm ==> a.status == PendingEntryConfirm)
    && (b.status == Opening ==> a.status == Opening || a.status == PendingEntryConfirm)
    && b.direction == a.direction && b.key == a.key
  }

  // ---- The broker's page for one trade ----

  predicate Works(book: seq<Order>, ref: Option<nat>) {
    ref.Some? && ref.value < |book| && book[ref.value].status == Working
  }

  /** Cancelling a working order ends it; any other reference is forgotten instead. */
  function Withdrawn(book: seq<Order>, ref: Option<nat>): (b: seq<Order>)
    ensures |b| == |book|
  {
    if Works(book, ref) then book[ref.value := book[ref.value].(status := Canceled)] else book
  }

  function RefAfterCancel(book: seq<Order>, ref: Option<nat>): Option<nat> {
    if Works(book, ref) then ref else None
  }

  function Submitted(book: seq<Order>, ref: Option<nat>, role: Role, price: real): seq<Order> {
    if ref.Some? then book + [Order(role, price, Working, false)] else book
  }

  function Delivered(book: seq<Order>, r: nat): (b: seq<Order>)
    requires r < |book|
    ensures |b| == |book|
  {
    book[r := book[r].(notified := true)]
  }

  /** An entry fill of this trade has already been delivered. */
  predicate EntryDelivered(book: seq<Order>) {
    exists e: nat :: e < |book| && book[e].role == Entry && book[e].status == Completed && book[e].notified
  }

  /** Final statuses are delivered once each, and a trade's entry fill before any fill that leaves it. */
  predicate DeliveredInOrder(book: seq<Order>, r: nat) {
    && r < |book| && book[r].status != Working && !book[r].notified
    && (book[r].role != Entry && book[r].status == Completed ==> EntryDelivered(book))
  }

  /** Order `r` has reached a final status that has not been delivered yet. */
  predicate Reports(book: seq<Order>, r: nat, role: Role) {
    r < |book| && book[r].role == role && book[r].status != Working && !book[r].notified
  }

  /** The stop a filled entry starts from: the one set at creation, else the far end of the key bar. */
  function StartingStop(c: Context): real {
    if c.stopPrice.Some? then c.stopPrice.value
    else if c.initialStop.Some? then c.initialStop.value
    else if c.direction == Long then c.key.low
    else c.key.high
  }

  /** The order works at this price, or there is none because the broker refused to create one. */
  predicate Stands(book: seq<Order>, ref: Option<nat>, price: Option<real>, refused: bool) {
    if ref.None? then refused else Works(book, ref) && price == Some(book[ref.value].price)
  }

  /** Orders of other roles, and orders already final, are as before. */
  predicate KeepsOthers(before: seq<Order>, after: seq<Order>, role: Role) {
    && |before| <= |after|
    && forall r: nat {:trigger after[r]} ::
         r < |before| && (before[r].role != role || before[r].status != Working) ==> after[r] == before[r]
  }

  /** Why a fill of this kind closes the trade: an exit order stands for the request that sent it. */
  function ReasonOf(c: Context, role: Role): Option<ReasonCode> {
    if role == Stop then Some(FRAMEWORK_STOP)
    else if role == TakeProfit then Some(TAKE_PROFIT)
    else c.pendingReason
  }

  /** A delivered entry fill means the trade is open, and an exit order still unreported means it is closing. */
  lemma FilledIsOpen(c: Context, book: seq<Order>, r: nat)
    requires Healthy(c, book) && r < |book| && !book[r].notified && EntryDelivered(book) && c.status != Closed
    ensures Filled(c.status) && !Terminal(c.status)
    ensures book[r].role == Exit ==> c.status == Closing && c.pendingReason.Some?
    ensures book[r].role != Entry
  {
    var e: nat :| e < |book| && book[e].role == Entry && book[e].status == Completed && book[e].notified;
    assert OrderFits(c, e, book[e]) && OrderFits(c, r, book[r]);
  }

  /** Once the current stop and take-profit are withdrawn, nothing that may not work for a closed trade does. */
  lemma ClosedFits(c: Context, book: seq<Order>, r: nat, closed: Context)
    requires Healthy(c, book) && Filled(c.status) && r < |book| && book[r].status == Completed
    requires book[r].role != Entry && closed.status == Closed && closed.entryPrice == c.entryPrice
    ensures var b := Withdrawn(Withdrawn(Delivered(book, r), c.stopOrder), c.tpOrder);
            forall k: nat {:trigger OrderFits(closed, k, b[k])} :: k < |b| ==> OrderFits(closed, k, b[k])
  {
    var b := Withdrawn(Withdrawn(Delivered(book, r), c.stopOrder), c.tpOrder);
    forall k: nat | k < |b|
      ensures OrderFits(closed, k, b[k])
    {
      assert OrderFits(c, k, book[k]);
    }
  }

  // ---- Confirmation and exit requests ----

  predicate Confirms(d: Direction, key: KeyBar, close: real) {
    if d == Long then close > key.high else close < key.low
  }

  predicate Refutes(d: Direction, key: KeyBar, close: real) {
    if d == Long then close < key.low else close > key.high
  }

  predicate CanExit(s: Status) {
    s == Active || s == PendingExitConfirm
  }

  function CodeOr(code: ReasonCode): ReasonCode {
    if code == "" then UNCLASSIFIED_EXIT else code
  }

  predicate NoneWorks(book: seq<Order>, role: Role) {
    forall r: nat :: r < |book| && book[r].role == role ==> book[r].status != Working
  }

  /** Withdrawing the current stop and take-profit leaves no other one working. */
  lemma ProtectionWithdrawn(c: Context, book: seq<Order>)
    requires Healthy(c, book)
    ensures var b := Withdrawn(Withdrawn(book, c.stopOrder), c.tpOrder);
            NoneWorks(b, Stop) && NoneWorks(b, TakeProfit)
  {
    var b := Withdrawn(Withdrawn(book, c.stopOrder), c.tpOrder);
    forall r: nat | r < |b| && (b[r].role == Stop || b[r].role == TakeProfit)
      ensures b[r].status != Working
    {
      assert OrderFits(c, r, book[r]);
    }
  }

  function WithdrawnForExit(c: Context, book: seq<Order>, keepStop: bool): (b: seq<Order>)
    ensures |b| == |book|
  {
    Withdrawn(if keepStop then book else Withdrawn(book, c.stopOrder), c.tpOrder)
  }

  lemma ClosingFits(c: Context, book: seq<Order>, keepStop: bool, c': Context, book': seq<Order>)
    requires Healthy(c, book) && CanExit(c.status)
    requires c'.entryPrice == c.entryPrice && (c'.status == c.status || c'.status == Closing)
    requires c'.stopOrder == if keepStop then c.stopOrder else RefAfterCancel(book, c.stopOrder)
    requires c'.tpOrder == RefAfterCancel(if keepStop then book else Withdrawn(book, c.stopOrder), c.tpOrder)
    requires c'.status == Closing ==> c'.order == Some(|book|)
    requires book' == Submitted(WithdrawnForExit(c, book, keepStop),
                                if c'.status == Closing then c'.order else None, Exit, 0.0)
    ensures forall k: nat {:trigger OrderFits(c', k, book'[k])} :: k < |book'| ==> OrderFits(c', k, book'[k])
  {
    forall k: nat | k < |book'|
      ensures OrderFits(c', k, book'[k])
    {
      assert k < |book| ==> OrderFits(c, k, book[k]);
    }
  }

  /** No trailing move on this bar, and the bar closed beyond the trailing stop. */
  predicate Broken(c: Context, close: real, trails: bool, trailing: Option<real>) {
    trails && trailing.None? && c.trailingStop.Some? &&
    if c.direction == Long then close < c.trailingStop.value else close > c.trailingStop.value
  }

  /** The stop works, and the take-profit too when the trade has one, unless the broker refused to create it. */
  predicate Guarded(c: Context, book: seq<Order>, refused: bool) {
    && (if c.stopOrder.None? then refused else Works(book, c.stopOrder))
    && (c.tpPrice.Some? ==> if c.tpOrder.None? then refused else Works(book, c.tpOrder))
  }

  /** The working stop order is the same one, at the same price. */
  predicate SameOrder(c: Context, book: seq<Order>, c': Context, book': seq<Order>) {
    && c'.stopOrder == c.stopOrder && Works(book, c.stopOrder) && Works(book', c'.stopOrder)
    && book'[c'.stopOrder.value] == book[c.stopOrder.value]
  }

  predicate ExitAsked(c: Context, key: KeyBar, banned: bool, confirm: bool, code: ReasonCode, closeSize: real,
                      refused: bool, c': Context) {
    if !CanExit(c.status) then c' == c
    else if banned then c' == c.(exitKeyBanned := true)
    else
      && c'.pendingReason == Some(CodeOr(code)) && c'.exitKey == Some(key)
      && if confirm then c'.status == PendingExitConfirm
         else c'.status == Closing || (c'.status == c.status && (refused || closeSize <= 0.0))
  }

  /** What a close decides for a trade waiting to be entered. */
  predicate EntryDecided(c: Context, close: real, opposing: bool, canOpen: bool, status: Status) {
    status == if opposing || !canOpen then Cancelled
              else if Confirms(c.direction, c.key, close) then Opening
              else if Refutes(c.direction, c.key, close) then Cancelled
              else PendingEntryConfirm
  }

  /** And for one waiting to be left: the close that would refute entering the exit bar confirms leaving on it. */
  predicate ExitDecided(c: Context, close: real, closeSize: real, refused: bool, c': Context) {
    c.exitKey.Some? &&
    if Refutes(c.direction, c.exitKey.value, close) then
      c'.pendingReason == c.pendingReason &&
      (c'.status == Closing || (c'.status == PendingExitConfirm && (refused || closeSize <= 0.0)))
    else if Confirms(c.direction, c.exitKey.value, close) then
      c' == c.(status := Active, exitKeyBanned := true, pendingReason := None, requestedReason := None)
    else c' == c
  }

  /** And for an active one: a broken trailing stop asks for the exit; otherwise the stop moves and is kept up. */
  predicate Minded(c: Context, close: real, banned: bool, breakeven: Option<real>, trails: bool, trailing: Option<real>,
                   closeSize: real, refused: bool, c': Context, book': seq<Order>) {
    if Broken(c, close, trails, trailing) then
      && (c'.status == Closing || (c'.status == Active && (refused || banned || closeSize <= 0.0)))
      && (!banned ==> c'.pendingReason == Some(FRAMEWORK_STOP))
    else
      && c'.status == Active && c'.pendingReason == c.pendingReason
      && c'.stopPrice == (if trails && trailing.Some? then trailing
                          else if breakeven.Some? then breakeven else c.stopPrice)
      && c'.trailingStop == (if trails && trailing.Some? then trailing else c.trailingStop)
      && (closeSize > 0.0 ==> Guarded(c', book', refused))
  }

  /** What a delivered final status means for its trade. */
  predicate Outcome(c: Context, o: Order, price: real, c': Context) {
    if c.status == Closed && o.role != Entry then c' == c
    else if o.status == Completed then
      if o.role == Entry then c'.status == Active && c'.entryPrice == Some(price)
      else c'.status == Closed && c'.exitPrice == Some(price) && c'.exitReason == ReasonOf(c, o.role)
    else if o.role == Entry then c'.status == Cancelled
    else if o.role == Exit then c.status == Closing && c'.status == Active
    else c'.status == c.status
  }

  class Trade {
    const id: nat
    var ctx: Context
    var book: seq<Order>
    /** How often the broker has refused to create an order. */
    ghost var refusals: nat

    twostate predicate Refused()
      reads this`refusals
    {
      refusals != old(refusals)
    }

    ghost predicate Valid()
      reads this`ctx, this`book
    {
      Healthy(ctx, book)
    }

    /** A trade on a banned key bar starts, and ends, cancelled. */
    constructor Start(id: nat, direction: Direction, key: KeyBar, confirm: bool, banned: bool, initialStop: real)
      ensures Valid() && this.id == id && book == [] && refusals == 0
      ensures ctx
              == if banned then Created(direction, key, confirm).(status := Cancelled, entryKeyBanned := true)
                 else
                   Created(direction, key, confirm).(initialStop := Some(initialStop), stopPrice := Some(initialStop))
    {
      this.id, book, refusals := id, [], 0;
      ctx := if banned then Created(direction, key, confirm).(status := Cancelled, entryKeyBanned := true)
             else Created(direction, key, confirm).(initialStop := Some(initialStop), stopPrice := Some(initialStop));
    }

    // ---- Orders ----

    /** The broker ends a working order in some way; the strategy hears of it later. */
    method Finish(r: nat, status: OrderStatus)
      requires Valid() && r < |book| && book[r].status == Working && status != Working
      modifies this`book
      ensures Valid() && book == old(book)[r := old(book)[r].(status := status)]
    {
      ghost var b := book;
      book := book[r := book[r].(status := status)];
      forall k: nat | k < |book|
        ensures OrderFits(ctx, k, book[k])
      {
        assert OrderFits(ctx, k, b[k]);
      }
    }

    /** The broker may refuse to create an order, for instance when the sizer yields nothing. */
    method Submit(role: Role, price: real) returns (ref: Option<nat>)
      modifies this`book, this`refusals
      ensures ref.Some? ==> ref.value == |old(book)|
      ensures book == Submitted(old(book), ref, role, price)
      ensures refusals == old(refusals) + if ref.None? then 1 else 0
    {
      var refused: bool := *;
      if refused {
        ref, refusals := None, refusals + 1;
      } else {
        ref := Some(|book|);
        book := book + [Order(role, price, Working, false)];
      }
    }

    method CancelStop()
      modifies this`ctx, this`book
      ensures book == Withdrawn(old(book), old(ctx.stopOrder))
      ensures ctx == old(ctx).(stopOrder := RefAfterCancel(old(book), old(ctx.stopOrder)))
    {
      if Works(book, ctx.stopOrder) {
        book := book[ctx.stopOrder.value := book[ctx.stopOrder.value].(status := Canceled)];
      } else {
        ctx := ctx.(stopOrder := None);
      }
    }

    method CancelTakeProfit()
      modifies this`ctx, this`book
      ensures book == Withdrawn(old(book), old(ctx.tpOrder))
      ensures ctx == old(ctx).(tpOrder := RefAfterCancel(old(book), old(ctx.tpOrder)))
    {
      if Works(book, ctx.tpOrder) {
        book := book[ctx.tpOrder.value := book[ctx.tpOrder.value].(status := Canceled)];
      } else {
        ctx := ctx.(tpOrder := None);
      }
    }

    /** Without a position there is nothing to protect; otherwise the new stop stands at the current stop price. */
    method PlaceOrReplaceStop(closeSize: real)
      requires Valid() && Filled(ctx.status) && !Terminal(ctx.status)
      modifies this
      ensures Valid() && ctx == old(ctx).(stopOrder := ctx.stopOrder)
      ensures closeSize <= 0.0 ==> ctx == old(ctx) && book == old(book)
      ensures closeSize > 0.0 ==> ctx.stopOrder.Some? ==> ctx.stopOrder.value == |old(book)|
      ensures closeSize > 0.0 ==>
                book == Submitted(Withdrawn(old(book), old(ctx.stopOrder)), ctx.stopOrder, Stop, ctx.stopPrice.value)
      ensures old(refusals) <= refusals
      ensures closeSize > 0.0 ==> (ctx.stopOrder.None? <==> Refused())
    {
      if closeSize <= 0.0 {
        return;
      }
      ghost var c, b := ctx, book;
      CancelStop();
      var ref := Submit(Stop, ctx.stopPrice.value);
      ctx := ctx.(stopOrder := ref);
      forall r: nat | r < |book|
        ensures OrderFits(ctx, r, book[r])
      {
        assert r < |b| ==> OrderFits(c, r, b[r]);
      }
    }

    method PlaceOrReplaceTakeProfit(closeSize: real)
      requires Valid() && Filled(ctx.status) && !Terminal(ctx.status)
      modifies this
      ensures Valid() && ctx == old(ctx).(tpOrder := ctx.tpOrder)
      ensures ctx.tpPrice.None? || closeSize <= 0.0 ==> ctx == old(ctx) && book == old(book)
      ensures ctx.tpPrice.Some? && closeSize > 0.0 ==> ctx.tpOrder.Some? ==> ctx.tpOrder.value == |old(book)|
      ensures ctx.tpPrice.Some? && closeSize > 0.0 ==>
                book == Submitted(Withdrawn(old(book), old(ctx.tpOrder)), ctx.tpOrder, TakeProfit, ctx.tpPrice.value)
      ensures old(refusals) <= refusals
      ensures ctx.tpPrice.Some? && closeSize > 0.0 ==> (ctx.tpOrder.None? <==> Refused())
    {
      if ctx.tpPrice.None? || closeSize <= 0.0 {
        return;
      }
      ghost var c, b := ctx, book;
      CancelTakeProfit();
      var ref := Submit(TakeProfit, ctx.tpPrice.value);
      ctx := ctx.(tpOrder := ref);
      forall r: nat | r < |book|
        ensures OrderFits(ctx, r, book[r])
      {
        assert r < |b| ==> OrderFits(c, r, b[r]);
      }
    }

    // ---- Order notifications ----

    method MarkEntryFilled(r: nat, price: real)
      requires Valid() && Reports(book, r, Entry) && book[r].status == Completed
      modifies this`ctx, this`book
      ensures Valid() && Evolves(old(ctx), ctx)
      ensures ctx.status == Active && ctx.entryPrice == Some(price)
      ensures ctx.stopPrice == Some(StartingStop(old(ctx)))
      ensures ctx.stopOrder == old(ctx.stopOrder) && ctx.replacement == old(ctx.replacement)
      ensures book == Delivered(old(book), r)
      ensures Works(book, ctx.stopOrder) ==> Stands(book, ctx.stopOrder, ctx.stopPrice, false)
    {
      ghost var c, b := ctx, book;
      assert OrderFits(c, r, b[r]);
      book := Delivered(book, r);
      var initial := if ctx.initialStop.Some? then ctx.initialStop.value
                     else if ctx.direction == Long then ctx.key.low else ctx.key.high;
      var stop := if ctx.stopPrice.Some? then ctx.stopPrice.value else initial;
      ctx := ctx.(entryPrice := Some(price), status := Active, initialStop := Some(initial), stopPrice := Some(stop));
      forall k: nat | k < |book|
        ensures OrderFits(ctx, k, book[k])
      {
        assert OrderFits(c, k, b[k]);
      }
      if Works(book, ctx.stopOrder) {
        assert OrderFits(c, ctx.stopOrder.value, b[ctx.stopOrder.value]);
      }
    }

    /** Take-profit placement touches neither the stop nor any order already reported. */
    method PlaceTakeProfitAt(price: real, closeSize: real)
      requires Valid() && Filled(ctx.status) && !Terminal(ctx.status)
      modifies this
      ensures Valid() && ctx == old(ctx).(tpPrice := Some(price), tpOrder := ctx.tpOrder)
      ensures closeSize > 0.0 ==> Stands(book, ctx.tpOrder, ctx.tpPrice, Refused())
      ensures KeepsOthers(old(book), book, TakeProfit)
      ensures old(refusals) <= refusals
    {
      ghost var c := ctx;
      ctx := ctx.(tpPrice := Some(price));
      forall k: nat | k < |book|
        ensures OrderFits(ctx, k, book[k])
      {
        assert OrderFits(c, k, book[k]);
      }
      PlaceOrReplaceTakeProfit(closeSize);
    }

    /** An entry fill: the trade becomes active and its protection is placed. */
    method EntryFilled(r: nat, price: real, takeProfit: Option<real>, closeSize: real)
      requires Valid() && Reports(book, r, Entry) && book[r].status == Completed
      modifies this
      ensures Valid() && Evolves(old(ctx), ctx)
      ensures ctx.status == Active && ctx.entryPrice == Some(price)
      ensures ctx.stopPrice == Some(StartingStop(old(ctx)))
      ensures closeSize > 0.0 ==> Stands(book, ctx.stopOrder, ctx.stopPrice, Refused())
      ensures closeSize > 0.0 && takeProfit.Some? ==> Stands(book, ctx.tpOrder, takeProfit, Refused())
      ensures r < |book| && book[r] == old(book)[r].(notified := true)
      ensures old(refusals) <= refusals
    {
      MarkEntryFilled(r, price);
      if !Works(book, ctx.stopOrder) {
        PlaceOrReplaceStop(closeSize);
      }
      if takeProfit.Some? {
        PlaceTakeProfitAt(takeProfit.value, closeSize);
      }
    }

    /** An exit, stop or take-profit fill closes the trade, with the reason that order stands for. */
    method ExitFilled(r: nat, price: real)
      requires Valid() && r < |book| && book[r].role != Entry && Reports(book, r, book[r].role)
      requires book[r].status == Completed && EntryDelivered(book) && ctx.status != Closed
      modifies this`ctx, this`book
      ensures Valid() && Evolves(old(ctx), ctx)
      ensures ctx.status == Closed && ctx.exitPrice == Some(price)
      ensures ctx.exitReason == ReasonOf(old(ctx), old(book)[r].role)
      ensures book == Withdrawn(Withdrawn(Delivered(old(book), r), old(ctx.stopOrder)), old(ctx.tpOrder))
    {
      ghost var c, b := ctx, book;
      FilledIsOpen(c, b, r);
      var role := book[r].role;
      book := Delivered(book, r);
      var reason := if ctx.pendingReason.Some? && role != Stop && role != TakeProfit then ctx.pendingReason.value
                    else if role == Stop then FRAMEWORK_STOP
                    else if role == TakeProfit then TAKE_PROFIT
                    else ctx.requestedReason.GetOr(UNCLASSIFIED_EXIT);
      ctx := ctx.(exitReason := Some(reason), pendingReason := None, requestedReason := None,
                  exitPrice := Some(price), status := Closed);
      CancelStop();
      CancelTakeProfit();
      ClosedFits(c, b, r, ctx);
    }

    /** A stop or take-profit that ended unfilled is forgotten if it is the current one. */
    method ProtectionEnded(r: nat)
      requires Valid() && r < |book| && (book[r].role == Stop || book[r].role == TakeProfit)
      requires Reports(book, r, book[r].role) && ctx.status != Closed
      modifies this`ctx, this`book
      ensures Valid() && Evolves(old(ctx), ctx) && ctx.status == old(ctx.status)
      ensures book == Delivered(old(book), r)
      ensures ctx == if old(book)[r].role == Stop
                     then old(ctx).(stopOrder := if old(ctx.stopOrder) == Some(r) then None else old(ctx.stopOrder))
                     else old(ctx).(tpOrder := if old(ctx.tpOrder) == Some(r) then None else old(ctx.tpOrder))
    {
      ghost var c, b := ctx, book;
      var role := book[r].role;
      book := Delivered(book, r);
      if role == Stop && ctx.stopOrder == Some(r) {
        ctx := ctx.(stopOrder := None);
      } else if role == TakeProfit && ctx.tpOrder == Some(r) {
        ctx := ctx.(tpOrder := None);
      }
      forall k: nat | k < |book|
        ensures OrderFits(ctx, k, book[k])
      {
        assert OrderFits(c, k, b[k]);
      }
    }

    method EntryFailed(r: nat)
      requires Valid() && Reports(book, r, Entry) && book[r].status != Completed
      modifies this`ctx, this`book
      ensures Valid() && Evolves(old(ctx), ctx)
      ensures old(ctx.status) == Opening && ctx.status == Cancelled
      ensures ctx == old(ctx).(stopOrder := ctx.stopOrder, order := None, status := Cancelled)
      ensures book == Withdrawn(Delivered(old(book), r), old(ctx.stopOrder))
    {
      ghost var c, b := ctx, book;
      assert OrderFits(c, r, b[r]);
      book := Delivered(book, r);
      CancelStop();
      ctx := ctx.(status := Cancelled, order := None);
      forall k: nat | k < |book|
        ensures OrderFits(ctx, k, book[k])
      {
        assert OrderFits(c, k, b[k]);
      }
    }

    /** A failed exit order leaves the trade active, its requested reason still pending. */
    method ExitFailed(r: nat)
      requires Valid() && Reports(book, r, Exit) && book[r].status != Completed && ctx.status != Closed
      modifies this`ctx, this`book
      ensures Valid() && Evolves(old(ctx), ctx)
      ensures old(ctx.status) == Closing && ctx == old(ctx).(status := Active, order := None)
      ensures book == Delivered(old(book), r)
    {
      ghost var c, b := ctx, book;
      assert OrderFits(c, r, b[r]);
      book := Delivered(book, r);
      ctx := ctx.(status := Active, order := None);
      forall k: nat | k < |book|
        ensures OrderFits(ctx, k, book[k])
      {
        assert OrderFits(c, k, b[k]);
      }
    }

    /** Notifications of a closed trade's exit, stop and take-profit orders change nothing but the delivery mark. */
    method Ignore(r: nat)
      requires Valid() && r < |book| && book[r].role != Entry && Reports(book, r, book[r].role)
      requires ctx.status == Closed
      modifies this`book
      ensures Valid() && book == Delivered(old(book), r)
    {
      ghost var b := book;
      book := Delivered(book, r);
      forall k: nat | k < |book|
        ensures OrderFits(ctx, k, book[k])
      {
        assert OrderFits(ctx, k, b[k]);
      }
    }

    /** Every notification that neither closes the trade nor cancels it. */
    method Hear(r: nat, price: real, takeProfit: Option<real>, closeSize: real)
      requires Valid() && DeliveredInOrder(book, r)
      requires book[r].role == Entry ==> book[r].status == Completed
      requires book[r].role != Entry && book[r].status == Completed ==> ctx.status == Closed
      modifies this
      ensures Valid() && Evolves(old(ctx), ctx)
      ensures Outcome(old(ctx), old(book)[r], price, ctx)
      ensures ctx.status == old(ctx.status) || ctx.status == Active
      ensures old(book)[r].role == Entry && closeSize > 0.0 ==>
                && Stands(book, ctx.stopOrder, ctx.stopPrice, Refused())
                && (takeProfit.Some? ==> Stands(book, ctx.tpOrder, takeProfit, Refused()))
      ensures old(refusals) <= refusals
      ensures old(ctx.status) == Opening && old(ctx.order).None? ==> ctx.status == Opening && ctx.order.None?
    {
      assert OrderFits(ctx, r, book[r]);
      if ctx.status == Closed && book[r].role != Entry {
        Ignore(r);
      } else if book[r].role == Entry {
        EntryFilled(r, price, takeProfit, closeSize);
      } else if book[r].role == Exit {
        ExitFailed(r);
      } else {
        ProtectionEnded(r);
      }
    }

    // ---- Entering and leaving ----

    /** The entry order and, once it exists, a stop for the same size. */
    method OpenEntry()
      requires Valid() && (ctx.status == PendingEntryConfirm || (ctx.status == Opening && ctx.order.None?))
      modifies this
      ensures Valid() && Evolves(old(ctx), ctx)
      ensures ctx == old(ctx).(status := Opening, order := ctx.order, stopOrder := ctx.stopOrder)
      ensures ctx.order.None? ==> book == old(book) && ctx.stopOrder == old(ctx.stopOrder)
      ensures ctx.order.Some? ==> ctx.order == Some(|old(book)|)
      ensures ctx.order.Some? && ctx.stopPrice.Some? ==> Stands(book, ctx.stopOrder, ctx.stopPrice, Refused())
      ensures old(refusals) <= refusals && (ctx.order.None? ==> Refused())
    {
      ghost var c, b := ctx, book;
      var ref := Submit(Entry, 0.0);
      if ref.Some? && ctx.stopPrice.Some? {
        var stop := Submit(Stop, ctx.stopPrice.value);
        ctx := ctx.(stopOrder := stop);
      }
      ctx := ctx.(order := ref, status := Opening);
      forall k: nat | k < |book|
        ensures OrderFits(ctx, k, book[k])
      {
        assert k < |b| ==> OrderFits(c, k, b[k]);
      }
    }

    /** A trade still waiting for confirmation is dropped, or opened, or left waiting. */
    method ConfirmEntry(close: real, opposing: bool, canOpen: bool) returns (dropped: bool)
      requires Valid() && ctx.status == PendingEntryConfirm
      modifies this
      ensures Valid() && Evolves(old(ctx), ctx)
      ensures EntryDecided(old(ctx), close, opposing, canOpen, ctx.status)
      ensures dropped <==> ctx.status == Cancelled
      ensures dropped || ctx.status == PendingEntryConfirm ==> book == old(book)
      ensures ctx.status == Opening && ctx.order.Some? ==>
                && ctx.order == Some(|old(book)|)
                && (ctx.stopPrice.Some? ==> Stands(book, ctx.stopOrder, ctx.stopPrice, Refused()))
      ensures old(refusals) <= refusals && (ctx.status == Opening && ctx.order.None? ==> Refused())
    {
      ghost var c, b := ctx, book;
      if opposing || !canOpen {
        dropped := true;
      } else if Confirms(ctx.direction, ctx.key, close) {
        OpenEntry();
        return false;
      } else {
        dropped := Refutes(ctx.direction, ctx.key, close);
      }
      if dropped {
        ctx := ctx.(status := Cancelled);
        forall k: nat | k < |book|
          ensures OrderFits(ctx, k, book[k])
        {
          assert OrderFits(c, k, b[k]);
        }
      }
    }

    method WithdrawProtection(keepStop: bool)
      modifies this`ctx, this`book
      ensures book == WithdrawnForExit(old(ctx), old(book), keepStop)
      ensures ctx == old(ctx).(
        stopOrder := if keepStop then old(ctx.stopOrder) else RefAfterCancel(old(book), old(ctx.stopOrder)),
        tpOrder := RefAfterCancel(
          if keepStop then old(book) else Withdrawn(old(book), old(ctx.stopOrder)), old(ctx.tpOrder)))
    {
      if !keepStop {
        CancelStop();
      }
      CancelTakeProfit();
    }

    /** Withdraws the protection, except a stop paired with the exit order, and submits the exit order. */
    method ClosePosition(closeSize: real, keepStop: bool)
      requires Valid() && (ctx.status == Active || ctx.status == PendingExitConfirm) && ctx.pendingReason.Some?
      modifies this
      ensures Valid() && Evolves(old(ctx), ctx)
      ensures ctx == old(ctx).(status := ctx.status, order := ctx.order,
                               stopOrder := ctx.stopOrder, tpOrder := ctx.tpOrder)
      ensures ctx.status == old(ctx.status) || (ctx.status == Closing && closeSize > 0.0)
      ensures book == Submitted(WithdrawnForExit(old(ctx), old(book), keepStop),
                                if ctx.status == Closing then ctx.order else None, Exit, 0.0)
      ensures ctx.status == Closing ==> ctx.order == Some(|old(book)|)
      ensures old(refusals) <= refusals && (ctx.status != Closing && closeSize > 0.0 ==> Refused())
    {
      ghost var c, b := ctx, book;
      WithdrawProtection(keepStop);
      if closeSize > 0.0 {
        var ref := Submit(Exit, 0.0);
        if ref.Some? {
          ctx := ctx.(order := ref, status := Closing);
        }
      }
      ClosingFits(c, b, keepStop, ctx, book);
    }

    method RecordExit(key: KeyBar, confirm: bool, code: ReasonCode)
      requires Valid() && CanExit(ctx.status)
      modifies this`ctx
      ensures Valid() && Evolves(old(ctx), ctx) && CanExit(ctx.status)
      ensures ctx.pendingReason == Some(CodeOr(code)) && ctx.exitKey == Some(key)
      ensures ctx.status == if confirm then PendingExitConfirm else old(ctx.status)
    {
      ghost var c := ctx;
      var reason := CodeOr(code);
      ctx := ctx.(exitKey := Some(key), pendingReason := Some(reason), requestedReason := Some(reason),
                  exitReason := if ctx.exitReason.None? then Some(reason) else ctx.exitReason,
                  status := if confirm then PendingExitConfirm else ctx.status);
      forall k: nat | k < |book|
        ensures OrderFits(ctx, k, book[k])
      {
        assert OrderFits(c, k, book[k]);
      }
    }

    method RefuseExit()
      requires Valid()
      modifies this`ctx
      ensures Valid() && ctx == old(ctx).(exitKeyBanned := true)
    {
      ghost var c := ctx;
      ctx := ctx.(exitKeyBanned := true);
      forall k: nat | k < |book|
        ensures OrderFits(ctx, k, book[k])
      {
        assert OrderFits(c, k, book[k]);
      }
    }

    /** Records an exit request; without confirmation the position is closed at once. */
    method RequestExit(key: KeyBar, banned: bool, confirm: bool, code: ReasonCode, closeSize: real)
      requires Valid()
      modifies this
      ensures Valid() && Evolves(old(ctx), ctx)
      ensures ExitAsked(old(ctx), key, banned, confirm, code, closeSize, Refused(), ctx)
      ensures !CanExit(old(ctx.status)) || banned || confirm ==> book == old(book)
      ensures CanExit(old(ctx.status)) && !banned && !confirm ==> NoneWorks(book, Stop) && NoneWorks(book, TakeProfit)
      ensures old(refusals) <= refusals
    {
      if !CanExit(ctx.status) {
        return;
      }
      if banned {
        RefuseExit();
        return;
      }
      RecordExit(key, confirm, code);
      if !confirm {
        ProtectionWithdrawn(ctx, book);
        ClosePosition(closeSize, false);
      }
    }

    /** A trade waiting for exit confirmation is closed, or its exit key is refuted, or it goes on waiting. */
    method ConfirmExit(close: real, closeSize: real) returns (failed: bool)
      requires Valid() && ctx.status == PendingExitConfirm
      modifies this
      ensures Valid() && Evolves(old(ctx), ctx)
      ensures ExitDecided(old(ctx), close, closeSize, Refused(), ctx)
      ensures failed <==> ctx.status == Active
      ensures failed ==> book == old(book)
      ensures old(refusals) <= refusals
    {
      ghost var c, b := ctx, book;
      failed := false;
      // Leaving a position is confirmed by the close that would refute entering it, and the other way round.
      if Refutes(ctx.direction, ctx.exitKey.value, close) {
        ClosePosition(closeSize, ctx.stopOrder.Some? && ctx.tpOrder.None?);
      } else if Confirms(ctx.direction, ctx.exitKey.value, close) {
        failed := true;
        ctx := ctx.(status := Active, exitKeyBanned := true, pendingReason := None, requestedReason := None);
        forall k: nat | k < |book|
          ensures OrderFits(ctx, k, book[k])
        {
          assert OrderFits(c, k, b[k]);
        }
      }
    }

    method NoteReplacement(reservedId: nat)
      requires Valid()
      modifies this`ctx
      ensures Valid() && ctx == old(ctx).(replacement := Some(reservedId))
    {
      ghost var c := ctx;
      ctx := ctx.(replacement := Some(reservedId));
      forall k: nat | k < |book|
        ensures OrderFits(ctx, k, book[k])
      {
        assert OrderFits(c, k, book[k]);
      }
    }

    // ---- Protection of an active trade, bar by bar ----

    method MoveStop(price: real, trailing: bool)
      requires Valid() && ctx.status == Active
      modifies this`ctx
      ensures Valid() && Evolves(old(ctx), ctx)
      ensures ctx == old(ctx).(stopPrice := Some(price),
                               trailingStop := if trailing then Some(price) else old(ctx.trailingStop))
    {
      ghost var c := ctx;
      ctx := ctx.(stopPrice := Some(price), trailingStop := if trailing then Some(price) else ctx.trailingStop);
      forall k: nat | k < |book|
        ensures OrderFits(ctx, k, book[k])
      {
        assert OrderFits(c, k, book[k]);
      }
    }

    /** The stop moves to this price, and its order with it. */
    method MoveStopOrder(price: real, closeSize: real)
      requires Valid() && ctx.status == Active
      modifies this
      ensures Valid() && ctx == old(ctx).(stopPrice := Some(price), stopOrder := ctx.stopOrder)
      ensures closeSize > 0.0 ==> Stands(book, ctx.stopOrder, Some(price), Refused())
      ensures old(refusals) <= refusals
    {
      MoveStop(price, false);
      PlaceOrReplaceStop(closeSize);
    }

    /** Missing protection is put back; what already works is left alone. */
    method KeepProtection(closeSize: real)
      requires Valid() && ctx.status == Active
      modifies this
      ensures Valid() && ctx == old(ctx).(stopOrder := ctx.stopOrder, tpOrder := ctx.tpOrder)
      ensures closeSize > 0.0 ==> Guarded(ctx, book, Refused())
      ensures closeSize > 0.0 && !Works(old(book), old(ctx.stopOrder)) ==>
                Stands(book, ctx.stopOrder, ctx.stopPrice, Refused())
      ensures Works(old(book), old(ctx.stopOrder)) ==> SameOrder(old(ctx), old(book), ctx, book)
      ensures old(refusals) <= refusals
    {
      if !Works(book, ctx.stopOrder) {
        PlaceOrReplaceStop(closeSize);
      }
      if ctx.tpPrice.Some? && !Works(book, ctx.tpOrder) {
        PlaceOrReplaceTakeProfit(closeSize);
      }
    }

    /**
     One bar of an active trade. `breakeven` and `trailing` are the stops the risk rules ask for, if any. A trailing
     stop moves the price the bar's close is held against, not the order at the broker.
     */
    method Protect(
      bar: KeyBar, close: real, banned: bool, breakeven: Option<real>, trails: bool, trailing: Option<real>,
      closeSize: real)
      requires Valid() && ctx.status == Active
      modifies this
      ensures Valid() && Evolves(old(ctx), ctx)
      ensures Minded(old(ctx), close, banned, breakeven, trails, trailing, closeSize, Refused(), ctx, book)
      ensures !Broken(old(ctx), close, trails, trailing) && closeSize > 0.0 && breakeven.Some? && trailing.None? ==>
                Stands(book, ctx.stopOrder, breakeven, Refused())
      ensures !Broken(old(ctx), close, trails, trailing) && breakeven.None? && Works(old(book), old(ctx.stopOrder)) ==>
                SameOrder(old(ctx), old(book), ctx, book)
      ensures old(refusals) <= refusals
    {
      if breakeven.Some? {
        MoveStopOrder(breakeven.value, closeSize);
      }
      if trails {
        if trailing.Some? {
          MoveStop(trailing.value, true);
        } else if ctx.trailingStop.Some? &&
                  Refutes(ctx.direction, KeyBar(bar.index, ctx.trailingStop.value, ctx.trailingStop.value), close) {
          RequestExit(bar, banned, false, FRAMEWORK_STOP, closeSize);
          return;
        }
      }
      KeepProtection(closeSize);
    }
  }
}
