/** The automatic execution router. */
module Router {
  import opened Common
  import opened OrderSemantics
  import opened Gateway
  import opened RouterCalls
  import opened RouterSteps

  class AutoExecutionRouter {
    const cfg: TaskConfig
    const exchange: Exchange
    var realShortPosition: real
    var realLongPosition: real
    var reservedBudgetRemaining: Option<real>
    var protectionOrderIdsByTrade: map<TradeRef, string>
    var seenOperationIds: set<OperationId>
    var outcomes: seq<Outcome>
    ghost var calls: seq<Call>

    function Now(): State
      reads this`realShortPosition, this`realLongPosition, this`reservedBudgetRemaining,
            this`protectionOrderIdsByTrade, this`outcomes,
            exchange`orders, exchange`protections, exchange`verifications
    {
      State(realShortPosition, realLongPosition, reservedBudgetRemaining, protectionOrderIdsByTrade, outcomes,
            exchange.orders, exchange.protections, exchange.verifications)
    }

    /** The books, the ledger and the seen identities all follow from the calls made so far. */
    ghost predicate Valid()
      reads this, exchange`orders, exchange`protections, exchange`verifications
    {
      Follows(cfg, calls, Now(), seenOperationIds)
    }

    constructor (cfg: TaskConfig, exchange: Exchange)
      requires exchange.orders == []
      ensures Valid() && calls == [] && outcomes == []
      ensures this.cfg == cfg && this.exchange == exchange
    {
      this.cfg := cfg;
      this.exchange := exchange;
      realShortPosition, realLongPosition := 0.0, 0.0;
      reservedBudgetRemaining := cfg.reservedBudget;
      protectionOrderIdsByTrade := map[];
      seenOperationIds := {};
      outcomes := [];
      calls := [];
    }

    /** A short operation goes out only for a task that may hold a short position. */
    predicate MaySend(op: Operation) {
      SideOf(op.otype) == ShortSide ==> CanShort(cfg)
    }

    /** The call went as its record says, for the right reasons and quantity, and as the exchange answered. */
    twostate predicate Routes(op: Operation, r: Routed, call: Call)
      reads this`realShortPosition, this`realLongPosition, this`reservedBudgetRemaining,
            this`protectionOrderIdsByTrade, this`outcomes, exchange
    {
      && Did(cfg, old(Now()), Now(), op, r, call)
      && Right(cfg, old(Now()), Now(), op, r, call)
      && AsAnswered(cfg, old(exchange.answers), exchange.answers, r, call)
    }

    /** Whole run: while only benign calls were made, the short position is the exchange's net short. */
    lemma ExposureAgrees()
      requires Valid() && AllBenign(cfg, calls)
      ensures realShortPosition == NetShort(exchange.orders)
    {
      BooksAgree(cfg, calls);
    }

    /**
     Whole run, read off the exchange: without retries and protected closes, the short position is the
     exchange's net short if every fail-safe close was accepted and no id check raised.
     */
    lemma ExposureAgreesByLedgers()
      requires Valid() && !Repays(cfg.policy)
      requires forall c | c in calls :: c.op.otype == Close ==> !WantsProtection(c.op)
      requires FailSafesAccepted(exchange.orders) && !CheckRaised(exchange.verifications)
      ensures realShortPosition == NetShort(exchange.orders)
    {
      LedgersTell(cfg, calls);
      BooksAgree(cfg, calls);
    }

    /** Whole run: after every call the short position was the exchange's net short, exactly when no call leaked. */
    lemma ExposureAgreesExactly()
      requires Valid()
      ensures AlwaysAgree(calls) <==> NoneLeaks(calls)
      ensures AlwaysAgree(calls) ==> Drift(Now()) == 0.0
    {
      AgreesExactly(calls);
      if AlwaysAgree(calls) {
        assert AgreeAfter(calls, |calls|) && calls[..|calls|] == calls;
      }
    }

    /** Whole run, whatever the exchange answers: operations that cannot leak never make the books drift. */
    lemma SafeOperationsAgree()
      requires Valid()
      requires forall c | c in calls :: CannotLeak(cfg, c.op)
      ensures AlwaysAgree(calls) && realShortPosition == NetShort(exchange.orders)
    {
      forall i: nat | i < |calls|
        ensures !Leaks(calls[i])
      {
        assert CallFits(cfg, calls[i]) && calls[i] in calls;
        KeepsBooksExactly(cfg, calls[i].op);
      }
      ExposureAgreesExactly();
    }

    /** Whole run: of all the operations that carry a trade's signal event only the first can send anything. */
    lemma OneOperationPerSignal(i: nat, j: nat, first: Operation, later: Operation, signalEventId: string)
      requires Valid() && i < j < |calls| && signalEventId != ""
      requires calls[i].op == WithSignal(first, signalEventId) && calls[j].op == WithSignal(later, signalEventId)
      ensures SkippedQuietly(calls[j])
    {
      OnePerSignal(cfg, calls, Now(), seenOperationIds, i, j, first, later, signalEventId);
    }

    /** Whole run of a task that never sells short: entries stay within the reserved budget. */
    lemma EntriesAffordable()
      requires Valid() && !cfg.requiresShort && cfg.reservedBudget.Some? && cfg.reservedBudget.value >= 0.0
      ensures EntryNotional(calls) <= cfg.reservedBudget.value + EntryCount(calls) as real * TOLERANCE
      ensures reservedBudgetRemaining.Some? && reservedBudgetRemaining.value >= 0.0
    {
      EntriesWithinBudget(cfg.reservedBudget.value, reservedBudgetRemaining, calls);
    }

    method Record(op: Operation, status: AutoStatus, reason: Reason, notional: real, quantity: real, native: bool)
      returns (r: Routed)
      modifies this`outcomes
      ensures r == Recorded(Outcome(Identity(op), status, reason, notional, quantity, native))
      ensures outcomes == old(outcomes) + [r.outcome]
    {
      var o := Outcome(Identity(op), status, reason, notional, quantity, native);
      outcomes := outcomes + [o];
      r := Recorded(o);
    }

    /** A call that stops before any market order. */
    method Decline(op: Operation, reason: Reason, notional: real, quantity: real) returns (r: Routed, ghost call: Call)
      modifies this`outcomes
      ensures Sent(cfg, old(Now()), Now(), op, r, call) && Did(cfg, old(Now()), Now(), op, r, call)
      ensures call.shape == Quiet
      ensures call.cover == NoCover
      ensures r.Recorded? && r.outcome == Skip(op, reason, notional, quantity)
    {
      r := Record(op, AutoSkipped, reason, notional, quantity, false);
      call := Call(op, Some(AutoSkipped), Quiet, NoCover, notional, false);
    }

    method Stop(op: Operation, reason: Reason, notional: real, quantity: real) returns (r: Routed, ghost call: Call)
      requires MayStop(cfg, Now(), op, Skip(op, reason, notional, quantity))
      modifies this`outcomes
      ensures Sent(cfg, old(Now()), Now(), op, r, call) && Did(cfg, old(Now()), Now(), op, r, call)
      ensures Right(cfg, old(Now()), Now(), op, r, call) && call.shape == Quiet
      ensures call.cover == NoCover
      ensures r == Recorded(Skip(op, reason, notional, quantity))
    {
      r, call := Decline(op, reason, notional, quantity);
    }

    /** An exchange read raised outside every handler. */
    method Escape(op: Operation) returns (r: Routed, ghost call: Call)
      ensures Sent(cfg, old(Now()), Now(), op, r, call) && Did(cfg, old(Now()), Now(), op, r, call)
      ensures Right(cfg, old(Now()), Now(), op, r, call) && call.shape == Quiet && r.Raised?
      ensures call.cover == NoCover
    {
      r := Raised;
      call := Call(op, None, Quiet, NoCover, 0.0, false);
    }

    // ---------- sending ----------

    method RememberProtectionOrder(risk: RiskIntent, ids: seq<string>)
      requires ids != []
      modifies this`protectionOrderIdsByTrade
      ensures protectionOrderIdsByTrade == old(protectionOrderIdsByTrade)[risk.trade := ids[0]]
    {
      protectionOrderIdsByTrade := protectionOrderIdsByTrade[risk.trade := ids[0]];
    }

    /** The order and protection of an operation that may go out. */
    ghost predicate Goes(op: Operation, quantity: real, order: OrderIntent, risk: Option<RiskIntent>) {
      && OrderFor(op, SideOf(op.otype), quantity) == Some(order)
      && WellBracketed(op)
      && quantity > 0.0
      && (risk.Some? <==> WantsProtection(op))
      && (risk.Some? ==> Protects(op, quantity, risk.value))
    }

    /** Protection, and the fail-safe close when it is refused, for an order the exchange answered. */
    method Settle(
      op: Operation, notional: real, quantity: real, order: OrderIntent, risk: Option<RiskIntent>,
      result: ExecutionResult)
      returns (r: Routed, ghost shape: Shape, ghost cover: Cover)
      requires Goes(op, quantity, order, risk)
      modifies this`outcomes, this`protectionOrderIdsByTrade, exchange
      ensures r.Recorded? && outcomes == old(outcomes) + [r.outcome]
      ensures StatusFits(cfg.policy, op, StatusOf(r), shape, cover)
      ensures CoverHolds(old(Now()), Now(), op, quantity, cover)
      ensures Remembered(old(Now()), Now(), op, shape, cover)
      ensures if result.IsAccepted() then shape == One(quantity, true) || (shape.Guarded? && shape.quantity == quantity)
              else shape == One(quantity, false)
      ensures exchange.orders == old(exchange.orders) +
                if shape.Guarded? then [MarketOrder(CloserOf(op.otype), quantity, true, shape.closed)] else []
      ensures exchange.answers == old(exchange.answers)
    {
      if !result.IsAccepted() {
        shape, cover := One(quantity, false), NoCover;
        r := Record(op, AutoFailed, ExchangeOrderFailed, notional, quantity, false);
        return;
      }
      if risk.None? {
        shape, cover := One(quantity, true), NoCover;
        r := Record(op, AutoSubmitted, NoReason, notional, quantity, false);
        return;
      }
      var placed := PlaceProtection(exchange, risk.value);
      cover := placed;
      shape := One(quantity, true);
      if placed.CoverUnknown? {
        r := Record(op, AutoFailed, ExceptionText, notional, quantity, false);
      } else if placed.Covered? {
        RememberProtectionOrder(risk.value, placed.ids);
        r := Record(op, AutoSubmitted, NoReason, notional, quantity, true);
      } else {
        var closed := SubmitMarket(exchange, OrderIntent(Exit, order.side, order.quantity, true));
        shape := Guarded(quantity, closed.IsAccepted());
        r := Record(op, AutoFailed, ProtectionFailedFailSafeClose, notional, quantity, false);
      }
    }

    /** The order and protection an operation asks for, or why it may not go. */
    method Choose(op: Operation, notional: real, quantity: real) returns (c: Choice)
      requires op.price > 0.0 && quantity > 0.0 && MainOp(op.otype) != Unknown
      ensures c.Stops? ==> MayStop(cfg, Now(), op, Skip(op, c.reason, c.notional, c.quantity))
      ensures c.Stops? ==> !AsksExchange(cfg, c.reason)
      ensures !c.Stops? ==> c.Goes? && Goes(op, quantity, c.order, c.risk)
    {
      if !MovesStop(op) {
        SelectionMeaning(op, SideOf(op.otype), quantity);
      }
      var selection := SelectOrderSemantics(op, SideOf(op.otype), quantity);
      if selection.Refused? {
        return Choice.Stops(Semantics(selection.error), notional, quantity);
      }
      if selection.order.None? {
        return Choice.Stops(UnsupportedOperation, 0.0, 0.0);
      }
      return Choice.Goes(selection.order.value, selection.risk);
    }

    method SubmitSpot(op: Operation, notional: real, quantity: real) returns (r: Routed, ghost call: Call)
      requires op.price > 0.0 && quantity > 0.0 && (op.otype == Buy || op.otype == Long || op.otype == Sell)
      modifies this`outcomes, this`protectionOrderIdsByTrade, exchange
      ensures Sent(cfg, old(Now()), Now(), op, r, call) && r.Recorded?
      ensures call.shape == Quiet && r.outcome.status == AutoSkipped ==> MayStop(cfg, old(Now()), op, r.outcome)
      ensures call.shape != Quiet ==> call.notional == notional && call.shape.quantity == quantity
      ensures Submits(call) ==> call.shape != Quiet
      ensures AsAnswered(cfg, old(exchange.answers), exchange.answers, r, call)
    {
      var c := Choose(op, notional, quantity);
      if c.Stops? {
        r, call := Stop(op, c.reason, c.notional, c.quantity);
      } else {
        r, call := SendSpot(op, notional, quantity, c.order, c.risk);
      }
    }

    /** The order, its protection, and the report. */
    method SendSpot(op: Operation, notional: real, quantity: real, order: OrderIntent, risk: Option<RiskIntent>)
      returns (r: Routed, ghost call: Call)
      requires Goes(op, quantity, order, risk) && MaySend(op)
      modifies this`outcomes, this`protectionOrderIdsByTrade, exchange
      ensures Sent(cfg, old(Now()), Now(), op, r, call) && r.Recorded?
      ensures call.shape != Quiet && call.notional == notional && call.shape.quantity == quantity
      ensures exchange.answers == old(exchange.answers)
    {
      var result := SubmitMarket(exchange, order);
      ghost var shape, cover;
      r, shape, cover := Settle(op, notional, quantity, order, risk, result);
      call := Call(op, StatusOf(r), shape, cover, notional, false);
    }

    method SubmitMargin(op: Operation, notional: real, quantity: real) returns (r: Routed, ghost call: Call)
      requires op.price > 0.0 && quantity > 0.0 && MainOp(op.otype) != Unknown && MaySend(op)
      modifies this`outcomes, this`protectionOrderIdsByTrade, exchange
      ensures Sent(cfg, old(Now()), Now(), op, r, call) && r.Recorded?
      ensures call.shape == Quiet && r.outcome.status == AutoSkipped ==> MayStop(cfg, old(Now()), op, r.outcome)
      ensures call.shape != Quiet ==> call.notional == notional && call.shape.quantity == quantity
      ensures Submits(call) ==> call.shape != Quiet
      ensures AsAnswered(cfg, old(exchange.answers), exchange.answers, r, call)
    {
      var c := Choose(op, notional, quantity);
      if c.Stops? {
        r, call := Stop(op, c.reason, c.notional, c.quantity);
      } else {
        r, call := SendMargin(op, notional, quantity, c.order, c.risk);
      }
    }

    /** The same on margin, where an entry may be refused for want of a loan. */
    method SendMargin(op: Operation, notional: real, quantity: real, order: OrderIntent, risk: Option<RiskIntent>)
      returns (r: Routed, ghost call: Call)
      requires Goes(op, quantity, order, risk) && MaySend(op)
      modifies this`outcomes, this`protectionOrderIdsByTrade, exchange
      ensures Sent(cfg, old(Now()), Now(), op, r, call) && r.Recorded?
      ensures call.shape != Quiet && call.notional == notional && call.shape.quantity == quantity
      ensures old(exchange.answers) <= exchange.answers && !ReadRaised(old(exchange.answers), exchange.answers)
    {
      var result := SubmitMarket(exchange, order);
      ghost var shape, cover;
      r, shape, cover := SettleMargin(op, notional, quantity, order, risk, result);
      call := Call(op, StatusOf(r), shape, cover, notional, false);
    }

    /** What follows a margin order: the borrow-block path of an entry, or the usual settlement. */
    method SettleMargin(
      op: Operation, notional: real, quantity: real, order: OrderIntent, risk: Option<RiskIntent>,
      result: ExecutionResult)
      returns (r: Routed, ghost shape: Shape, ghost cover: Cover)
      requires Goes(op, quantity, order, risk)
      modifies this`outcomes, this`protectionOrderIdsByTrade, exchange
      ensures r.Recorded? && outcomes == old(outcomes) + [r.outcome]
      ensures StatusFits(cfg.policy, op, StatusOf(r), shape, cover)
      ensures CoverHolds(old(Now()), Now(), op, quantity, cover)
      ensures Remembered(old(Now()), Now(), op, shape, cover)
      ensures old(exchange.answers) <= exchange.answers && !ReadRaised(old(exchange.answers), exchange.answers)
      ensures shape != Quiet && shape.quantity == quantity
      ensures old(exchange.orders) <= exchange.orders
      ensures [MarketOrder(MainOp(op.otype), quantity, false, result.IsAccepted())]
              + exchange.orders[|old(exchange.orders)|..] == OrdersOf(op.otype, shape)
    {
      if IsEntry(op.otype) && !result.IsAccepted() && result.borrowBlock {
        r, shape, cover := HandleMarginBorrowBlock(op, notional, quantity, order, risk);
      } else {
        r, shape, cover := Settle(op, notional, quantity, order, risk, result);
      }
    }

    /** Without a retry, the policy decides the report; a repaying policy stops only when the repayment fails. */
    predicate BlockReason(o: Outcome) {
      || (o.reason == ExceptionText && o.status == AutoFailed)
      || match cfg.policy
         case StopTask => o.reason == BorrowBlocked && o.status == AutoFailed
         case SkipContinue => o.reason == BorrowBlocked && o.status == AutoSkipped
         case _ => o.reason == AutoRepayUnavailable && o.status == AutoSkipped
    }

    /** After a first entry attempt that the exchange refused to lend for. */
    method HandleMarginBorrowBlock(
      op: Operation, notional: real, quantity: real, order: OrderIntent, risk: Option<RiskIntent>)
      returns (r: Routed, ghost shape: Shape, ghost cover: Cover)
      requires Goes(op, quantity, order, risk) && IsEntry(op.otype)
      modifies this`outcomes, this`protectionOrderIdsByTrade, exchange
      ensures r.Recorded? && outcomes == old(outcomes) + [r.outcome]
      ensures StatusFits(cfg.policy, op, StatusOf(r), shape, cover)
      ensures CoverHolds(old(Now()), Now(), op, quantity, cover)
      ensures Remembered(old(Now()), Now(), op, shape, cover)
      ensures shape == One(quantity, false) || (shape.Retry? && shape.quantity == quantity)
      ensures exchange.orders == old(exchange.orders) +
                if shape.Retry? then [MarketOrder(MainOp(op.otype), quantity, false, shape.ok)] else []
      ensures old(exchange.answers) <= exchange.answers && !ReadRaised(old(exchange.answers), exchange.answers)
      ensures shape.One? ==> BlockReason(r.outcome)
      ensures shape.One? && r.outcome.reason == ExceptionText ==>
                exchange.answers == old(exchange.answers) + [BalanceIs(Reporting, None)]
    {
      shape, cover := One(quantity, false), NoCover;
      if op.otype == Buy || op.otype == Short {
        var balance := exchange.Balance(Reporting);
        if balance.None? {
          r := Record(op, AutoFailed, ExceptionText, notional, quantity, false);
          return;
        }
      }
      if cfg.policy == StopTask {
        r := Record(op, AutoFailed, BorrowBlocked, notional, quantity, false);
        return;
      }
      if cfg.policy == SkipContinue {
        r := Record(op, AutoSkipped, BorrowBlocked, notional, quantity, false);
        return;
      }
      var repaid := exchange.AutoRepay();
      if !repaid {
        r := Record(op, AutoSkipped, AutoRepayUnavailable, notional, quantity, false);
        return;
      }
      r, shape, cover := RetryEntry(op, notional, quantity, order, risk);
    }

    /** The one retry after a repayment. A refused protection is reported, and not followed by a close. */
    method RetryEntry(op: Operation, notional: real, quantity: real, order: OrderIntent, risk: Option<RiskIntent>)
      returns (r: Routed, ghost shape: Shape, ghost cover: Cover)
      requires Goes(op, quantity, order, risk) && IsEntry(op.otype) && Repays(cfg.policy)
      modifies this`outcomes, this`protectionOrderIdsByTrade, exchange
      ensures r.Recorded? && outcomes == old(outcomes) + [r.outcome]
      ensures StatusFits(cfg.policy, op, StatusOf(r), shape, cover)
      ensures CoverHolds(old(Now()), Now(), op, quantity, cover)
      ensures Remembered(old(Now()), Now(), op, shape, cover)
      ensures shape.Retry? && shape.quantity == quantity
      ensures exchange.orders == old(exchange.orders) + [MarketOrder(MainOp(op.otype), quantity, false, shape.ok)]
      ensures exchange.answers == old(exchange.answers)
    {
      var retry := SubmitMarket(exchange, order);
      shape, cover := Retry(quantity, retry.IsAccepted()), NoCover;
      if !retry.IsAccepted() {
        if retry.borrowBlock {
          r := Record(op, AutoSkipped, AutoRepayRetryFailed, notional, quantity, false);
        } else {
          r := Record(op, AutoFailed, RetryNonBorrowFailure, notional, quantity, false);
        }
        return;
      }
      if risk.None? {
        r := Record(op, AutoSubmitted, AutoRepayRetryPassed, notional, quantity, false);
        return;
      }
      var placed := PlaceProtection(exchange, risk.value);
      cover := placed;
      if placed.CoverUnknown? {
        r := Record(op, AutoFailed, ExceptionText, notional, quantity, false);
      } else if placed.Covered? {
        RememberProtectionOrder(risk.value, placed.ids);
        r := Record(op, AutoSubmitted, AutoRepayRetryPassed, notional, quantity, true);
      } else {
        r := Record(op, AutoFailed, ProtectionFailedAfterRetry, notional, quantity, false);
      }
    }

    // ---------- routes ----------

    method UsesMarginForLongPath() returns (uses: Option<bool>)
      modifies exchange`answers
      ensures exchange.answers == old(exchange.answers) + if cfg.requiresShort then [MarginIs(uses)] else []
      ensures !cfg.requiresShort ==> uses == Some(false)
    {
      if !cfg.requiresShort {
        return Some(false);
      }
      uses := exchange.MarginReady();
    }

    /** The requested notional, capped by the leveraged capital; a failing balance read falls back to the task. */
    method ApplyLeverageCap(requested: real) returns (notional: real)
      modifies exchange`answers
      ensures |exchange.answers| == |old(exchange.answers)| + 1 && old(exchange.answers) <= exchange.answers
      ensures var balance := exchange.answers[|exchange.answers| - 1];
              && balance.BalanceIs? && balance.use == Capping
              && notional == Min(requested, Max(CapitalOf(cfg, balance.amount), 0.0) * LeverageRatio(cfg))
      ensures notional <= requested
    {
      var balance := exchange.Balance(Capping);
      notional := Min(requested, Max(CapitalOf(cfg, balance), 0.0) * LeverageRatio(cfg));
    }

    /** True when the borrow precheck lets the entry pass, None when its balance read raises. */
    method BorrowPrecheck(required: real) returns (passes: Option<bool>)
      modifies exchange`answers
      ensures passes == Some(false) ==> cfg.borrowPrecheck
      ensures old(exchange.answers) <= exchange.answers
      ensures passes == Some(true) && cfg.borrowPrecheck ==>
                Borrowable(exchange.answers[|old(exchange.answers)|..], required)
      ensures passes == Some(false) ==>
                && |exchange.answers| > |old(exchange.answers)|
                && exchange.answers[|exchange.answers| - 1].BorrowableIs?
      ensures passes == None <==> ReadRaised(old(exchange.answers), exchange.answers)
    {
      if !cfg.borrowPrecheck {
        return Some(true);
      }
      var balance := exchange.Balance(Deciding);
      if balance.None? {
        return None;
      }
      var shortfall := Max(required - balance.value, 0.0);
      if shortfall <= 0.0 {
        return Some(true);
      }
      var amount := exchange.MaxBorrowable();
      passes := match amount
        case None => Some(false)
        case Some(None) => Some(true)
        case Some(Some(a)) => Some(a + TOLERANCE >= shortfall);
    }

    /** The checks before a long entry, in order. */
    method LongGate(op: Operation) returns (g: Gate)
      requires op.price > 0.0 && MainOp(op.otype) == Buy
      modifies exchange`answers
      ensures GateAsAnswered(cfg, old(exchange.answers), exchange.answers, op, g)
      ensures g.Stops? ==> MayStop(cfg, Now(), op, Skip(op, g.reason, g.notional, g.quantity))
      ensures g.Opens? ==>
                && g.quantity > 0.0 && QuantityOk(cfg, Now(), op, g.notional, g.quantity)
                && (g.margin ==> cfg.requiresShort)
      ensures g.Opens? ==> WithinBudget(reservedBudgetRemaining, g.notional)
      ensures g.Opens? ==> SizeAccepted(exchange.answers, |old(exchange.answers)|)
      ensures g.Opens? && !g.margin ==>
                var cash := exchange.answers[|exchange.answers| - 1];
                cash.BalanceIs? && cash.amount.Some? && cash.amount.value >= g.notional
    {
      g := LongSize(op);
      if !g.Opens? {
        return;
      }
      var sizeRefused := exchange.ValidateOrderSize();
      ghost var checked := |exchange.answers| - 1;
      if sizeRefused.None? {
        return Raises;
      }
      if sizeRefused.value {
        return Gate.Stops(OrderSizeRejected, g.notional, g.quantity);
      }
      if !WithinBudget(reservedBudgetRemaining, g.notional) {
        return Gate.Stops(InsufficientReservedFunds, g.notional, g.quantity);
      }
      if !g.margin {
        var cash := exchange.Balance(Deciding);
        if cash.None? {
          return Raises;
        }
        if cash.value < g.notional {
          return Gate.Stops(InsufficientQuoteBalance, g.notional, g.quantity);
        }
      }
      assert exchange.answers[checked] == SizeRefused(Some(false));
    }

    /** The notional of a long entry, under the leverage cap on margin, and the quantity it buys. */
    method LongSize(op: Operation) returns (g: Gate)
      requires op.price > 0.0 && MainOp(op.otype) == Buy
      modifies exchange`answers
      ensures GateAsAnswered(cfg, old(exchange.answers), exchange.answers, op, g)
      ensures g.Stops? ==> MayStop(cfg, Now(), op, Skip(op, g.reason, g.notional, g.quantity))
      ensures g.Opens? ==>
                && g.quantity > 0.0 && QuantityOk(cfg, Now(), op, g.notional, g.quantity)
                && (g.margin ==> cfg.requiresShort)
    {
      var requested := RequestedNotional(cfg);
      if requested <= 0.0 {
        return Gate.Stops(InvalidNotional, 0.0, 0.0);
      }
      var marginPath := UsesMarginForLongPath();
      if marginPath.None? {
        return Raises;
      }
      var leveragedPath := UsesMarginForLongPath();
      if leveragedPath.None? {
        return Raises;
      }
      var notional := requested;
      if leveragedPath.value {
        notional := ApplyLeverageCap(requested);
      }
      var quantity := notional / op.price;
      if quantity <= 0.0 {
        return Gate.Stops(if leveragedPath.value then InsufficientLeveragedCapital else InvalidQuantity, 0.0, 0.0);
      }
      return Opens(notional, quantity, marginPath.value);
    }

    method RouteRealLong(op: Operation) returns (r: Routed, ghost call: Call)
      requires op.price > 0.0 && (op.otype == Buy || op.otype == Long)
      modifies this`outcomes, this`protectionOrderIdsByTrade, this`realLongPosition, this`reservedBudgetRemaining,
               exchange
      ensures Routes(op, r, call)
    {
      var g := LongGate(op);
      ghost var asked := exchange.answers;
      if g.Raises? {
        r, call := Escape(op);
      } else if g.Stops? {
        r, call := Stop(op, g.reason, g.notional, g.quantity);
      } else if g.margin {
        r, call := MarginEntry(op, g.notional, g.quantity, g.notional);
      } else {
        r, call := SpotEntry(op, g.notional, g.quantity);
      }
      AnsweredAfter(cfg, old(exchange.answers), asked, exchange.answers, op, g, r, call);
    }

    method SpotEntry(op: Operation, notional: real, quantity: real) returns (r: Routed, ghost call: Call)
      requires op.price > 0.0 && quantity > 0.0 && (op.otype == Buy || op.otype == Long)
      requires WithinBudget(reservedBudgetRemaining, notional) && QuantityOk(cfg, Now(), op, notional, quantity)
      modifies this`outcomes, this`protectionOrderIdsByTrade, this`realLongPosition, this`reservedBudgetRemaining,
               exchange
      ensures Routes(op, r, call)
    {
      r, call := SubmitSpot(op, notional, quantity);
      if r.outcome.status == AutoSubmitted {
        realLongPosition := realLongPosition + quantity;
        reservedBudgetRemaining := Charge(reservedBudgetRemaining, notional);
        call := call.(marked := true);
      }
    }

    /** A margin entry after its borrow precheck; required is the amount to borrow against. */
    method MarginEntry(op: Operation, notional: real, quantity: real, required: real)
      returns (r: Routed, ghost call: Call)
      requires op.price > 0.0 && quantity > 0.0 && IsEntry(op.otype) && cfg.requiresShort && MaySend(op)
      requires QuantityOk(cfg, Now(), op, notional, quantity)
      modifies this`outcomes, this`protectionOrderIdsByTrade, exchange
      ensures Sent(cfg, old(Now()), Now(), op, r, call)
      ensures MainOp(op.otype) == Buy ==> Did(cfg, old(Now()), Now(), op, r, call)
      ensures Right(cfg, old(Now()), Now(), op, r, call)
      ensures call.shape != Quiet ==> call.notional == notional && call.shape.quantity == quantity
      ensures Submits(call) ==> call.shape != Quiet
      ensures AsAnswered(cfg, old(exchange.answers), exchange.answers, r, call)
    {
      var g := BorrowGate(op, notional, quantity, required);
      ghost var asked := exchange.answers;
      if g.Raises? {
        r, call := Escape(op);
      } else if g.Stops? {
        r, call := Stop(op, g.reason, g.notional, g.quantity);
      } else {
        r, call := SubmitMargin(op, notional, quantity);
      }
      AnsweredAfter(cfg, old(exchange.answers), asked, exchange.answers, op, g, r, call);
    }

    method BorrowGate(op: Operation, notional: real, quantity: real, required: real) returns (g: Gate)
      requires IsEntry(op.otype)
      modifies exchange`answers
      ensures GateAsAnswered(cfg, old(exchange.answers), exchange.answers, op, g)
      ensures g.Stops? ==> MayStop(cfg, Now(), op, Skip(op, g.reason, g.notional, g.quantity))
      ensures g.Opens? && cfg.borrowPrecheck ==> Borrowable(exchange.answers[|old(exchange.answers)|..], required)
    {
      var passes := BorrowPrecheck(required);
      g := match passes
        case None => Raises
        case Some(ok) => if ok then Opens(notional, quantity, true) else Gate.Stops(MarginPrecheck, notional, quantity);
    }

    /** The position a sale would close, and whether on margin. */
    method ExitGate(op: Operation) returns (g: Gate)
      requires op.price > 0.0 && op.otype == Sell
      modifies exchange`answers
      ensures GateAsAnswered(cfg, old(exchange.answers), exchange.answers, op, g)
      ensures g.Stops? ==> MayStop(cfg, Now(), op, Skip(op, g.reason, g.notional, g.quantity))
      ensures g.Opens? ==>
                && g.quantity > 0.0 && QuantityOk(cfg, Now(), op, g.notional, g.quantity)
                && (g.margin ==> cfg.requiresShort)
      ensures g.Opens? ==> SizeAccepted(exchange.answers, |old(exchange.answers)|)
    {
      var position := realLongPosition;
      if position <= 0.0 {
        var balance := exchange.Balance(Deciding);
        if balance.None? {
          return Raises;
        }
        position := balance.value;
      }
      if position <= 0.0 {
        return Gate.Stops(EmptyOrUnknownPosition, 0.0, 0.0);
      }
      var sizeRefused := exchange.ValidateOrderSize();
      ghost var checked := |exchange.answers| - 1;
      if sizeRefused.None? {
        return Raises;
      }
      if sizeRefused.value {
        return Gate.Stops(OrderSizeRejected, position * op.price, position);
      }
      var margin := UsesMarginForLongPath();
      if margin.None? {
        return Raises;
      }
      assert exchange.answers[checked] == SizeRefused(Some(false));
      return Opens(position * op.price, position, margin.value);
    }

    method RouteRealExit(op: Operation) returns (r: Routed, ghost call: Call)
      requires op.price > 0.0 && op.otype == Sell
      modifies this`outcomes, this`protectionOrderIdsByTrade, this`realLongPosition, exchange
      ensures Routes(op, r, call)
    {
      var g := ExitGate(op);
      ghost var asked := exchange.answers;
      if g.Raises? {
        r, call := Escape(op);
      } else if g.Stops? {
        r, call := Stop(op, g.reason, g.notional, g.quantity);
      } else if g.margin {
        r, call := MarginExit(op, g.notional, g.quantity);
      } else {
        r, call := SpotExit(op, g.notional, g.quantity);
      }
      AnsweredAfter(cfg, old(exchange.answers), asked, exchange.answers, op, g, r, call);
    }

    method MarginExit(op: Operation, notional: real, quantity: real) returns (r: Routed, ghost call: Call)
      requires op.price > 0.0 && quantity > 0.0 && op.otype == Sell && cfg.requiresShort
      requires QuantityOk(cfg, Now(), op, notional, quantity)
      modifies this`outcomes, this`protectionOrderIdsByTrade, exchange
      ensures Routes(op, r, call)
    {
      r, call := SubmitMargin(op, notional, quantity);
    }

    method SpotExit(op: Operation, notional: real, quantity: real) returns (r: Routed, ghost call: Call)
      requires op.price > 0.0 && quantity > 0.0 && op.otype == Sell && QuantityOk(cfg, Now(), op, notional, quantity)
      modifies this`outcomes, this`protectionOrderIdsByTrade, this`realLongPosition, exchange
      ensures Routes(op, r, call)
    {
      r, call := SubmitSpot(op, notional, quantity);
      if r.outcome.status == AutoSubmitted && realLongPosition > 0.0 {
        realLongPosition := 0.0;
      }
    }

    /** The checks before a short entry, in order. */
    method ShortGate(op: Operation) returns (g: Gate)
      requires op.price > 0.0 && op.otype == Short
      modifies exchange`answers
      ensures GateAsAnswered(cfg, old(exchange.answers), exchange.answers, op, g)
      ensures g.Stops? ==> MayStop(cfg, Now(), op, Skip(op, g.reason, g.notional, g.quantity))
      ensures g.Opens? ==> g.quantity > 0.0 && QuantityOk(cfg, Now(), op, g.notional, g.quantity) 
      ensures g.Opens? ==> cfg.requiresShort && RequestedNotional(cfg) > 0.0
      ensures g.Opens? ==> SizeAccepted(exchange.answers, |old(exchange.answers)|)
    {
      var requested := RequestedNotional(cfg);
      if !cfg.requiresShort {
        var quantity := if requested > 0.0 then requested / op.price else 0.0;
        return Gate.Stops(ShortCapabilityNotRequired, Max(requested, 0.0), quantity);
      }
      var ready := exchange.MarginReady();
      if ready.None? {
        return Raises;
      }
      if !ready.value {
        return Gate.Stops(MarginNotReady, 0.0, 0.0);
      }
      var leveragedPath := UsesMarginForLongPath();
      if leveragedPath.None? {
        return Raises;
      }
      var notional := requested;
      if leveragedPath.value {
        notional := ApplyLeverageCap(requested);
      }
      var quantity := notional / op.price;
      if quantity <= 0.0 {
        return Gate.Stops(InsufficientLeveragedCapital, 0.0, 0.0);
      }
      var sizeRefused := exchange.ValidateOrderSize();
      ghost var checked := |exchange.answers| - 1;
      if sizeRefused.None? {
        return Raises;
      }
      if sizeRefused.value {
        return Gate.Stops(OrderSizeRejected, notional, quantity);
      }
      assert exchange.answers[checked] == SizeRefused(Some(false));
      return Opens(notional, quantity, true);
    }

    method RouteRealShort(op: Operation) returns (r: Routed, ghost call: Call)
      requires op.price > 0.0 && op.otype == Short && cfg.mode == AutoTrade
      modifies this`outcomes, this`protectionOrderIdsByTrade, this`realShortPosition, this`reservedBudgetRemaining,
               exchange
      ensures Routes(op, r, call)
    {
      var g := ShortGate(op);
      ghost var asked := exchange.answers;
      if g.Raises? {
        r, call := Escape(op);
      } else if g.Stops? {
        r, call := Stop(op, g.reason, g.notional, g.quantity);
      } else {
        r, call := ShortEntry(op, g.notional, g.quantity);
      }
      AnsweredAfter(cfg, old(exchange.answers), asked, exchange.answers, op, g, r, call);
    }

    method ShortEntry(op: Operation, notional: real, quantity: real) returns (r: Routed, ghost call: Call)
      requires op.price > 0.0 && quantity > 0.0 && op.otype == Short && QuantityOk(cfg, Now(), op, notional, quantity)
      requires CanShort(cfg)
      modifies this`outcomes, this`protectionOrderIdsByTrade, this`realShortPosition, this`reservedBudgetRemaining,
               exchange
      ensures Routes(op, r, call)
    {
      r, call := MarginEntry(op, notional, quantity, quantity);
      if r.Recorded? && r.outcome.status == AutoSubmitted {
        realShortPosition := realShortPosition + quantity;
        reservedBudgetRemaining := Charge(reservedBudgetRemaining, notional);
        call := call.(marked := true);
      }
    }

    /** The checks before a short position is closed in full. */
    method CloseGate(op: Operation) returns (g: Gate)
      requires op.price > 0.0 && op.otype == Close && cfg.requiresShort
      modifies exchange`answers
      ensures GateAsAnswered(cfg, old(exchange.answers), exchange.answers, op, g)
      ensures g.Stops? ==> MayStop(cfg, Now(), op, Skip(op, g.reason, g.notional, g.quantity))
      ensures g.Opens? ==> realShortPosition > 0.0
      ensures g.Opens? ==> g.quantity > 0.0 && QuantityOk(cfg, Now(), op, g.notional, g.quantity)
      ensures g.Opens? ==> SizeAccepted(exchange.answers, |old(exchange.answers)|)
    {
      if realShortPosition <= 0.0 {
        return Gate.Stops(UnknownShortExposure, 0.0, 0.0);
      }
      var quantity := realShortPosition;
      var ready := exchange.MarginReady();
      if ready.None? {
        return Raises;
      }
      if !ready.value {
        return Gate.Stops(MarginNotReady, 0.0, 0.0);
      }
      var sizeRefused := exchange.ValidateOrderSize();
      ghost var checked := |exchange.answers| - 1;
      if sizeRefused.None? {
        return Raises;
      }
      if sizeRefused.value {
        return Gate.Stops(OrderSizeRejected, quantity * op.price, quantity);
      }
      assert exchange.answers[checked] == SizeRefused(Some(false));
      return Opens(quantity * op.price, quantity, true);
    }

    method RouteRealShortClose(op: Operation) returns (r: Routed, ghost call: Call)
      requires op.price > 0.0 && op.otype == Close && cfg.requiresShort
      requires realShortPosition > 0.0 ==> CanShort(cfg)
      modifies this`outcomes, this`protectionOrderIdsByTrade, this`realShortPosition, exchange
      ensures Routes(op, r, call)
    {
      var g := CloseGate(op);
      ghost var asked := exchange.answers;
      if g.Raises? {
        r, call := Escape(op);
      } else if g.Stops? {
        r, call := Stop(op, g.reason, g.notional, g.quantity);
      } else {
        r, call := MarginClose(op, g.notional, g.quantity);
      }
      AnsweredAfter(cfg, old(exchange.answers), asked, exchange.answers, op, g, r, call);
    }

    method MarginClose(op: Operation, notional: real, quantity: real) returns (r: Routed, ghost call: Call)
      requires op.price > 0.0 && quantity > 0.0 && op.otype == Close && QuantityOk(cfg, Now(), op, notional, quantity)
      requires CanShort(cfg)
      modifies this`outcomes, this`protectionOrderIdsByTrade, this`realShortPosition, exchange
      ensures Routes(op, r, call)
    {
      r, call := SubmitMargin(op, notional, quantity);
      if r.outcome.status == AutoSubmitted {
        realShortPosition := 0.0;
      }
    }

    /** The side, as margin or not, and the quantity of the position whose stop moves. */
    method RiskGate(op: Operation) returns (g: Gate)
      requires op.price > 0.0 && op.otype == RiskUpdate
      modifies exchange`answers
      ensures GateAsAnswered(cfg, old(exchange.answers), exchange.answers, op, g)
      ensures g.Stops? ==> MayStop(cfg, Now(), op, Skip(op, g.reason, g.notional, g.quantity))
      ensures g.Opens? ==> g.quantity > 0.0 && (op.shortTrade ==> g.quantity == realShortPosition)
      ensures g.Opens? ==> !op.shortTrade && realLongPosition > 0.0 ==> g.quantity == realLongPosition
    {
      var quantity := realShortPosition;
      if op.shortTrade {
        var ready := UsesMarginForLongPath();
        if ready.None? {
          return Raises;
        }
        if !ready.value {
          return Gate.Stops(MarginNotReady, 0.0, 0.0);
        }
      } else {
        quantity := realLongPosition;
        if quantity <= 0.0 {
          var balance := exchange.Balance(Deciding);
          if balance.None? {
            return Raises;
          }
          quantity := balance.value;
        }
      }
      if quantity <= 0.0 {
        return Gate.Stops(if op.shortTrade then UnknownShortExposure else EmptyOrUnknownPosition, 0.0, 0.0);
      }
      return Opens(quantity * op.price, quantity, op.shortTrade);
    }

    /** The replacement for a protection order known from the operation or remembered for its trade. */
    method ChooseReplacement(op: Operation, notional: real, quantity: real) returns (c: Choice)
      requires op.price > 0.0 && op.otype == RiskUpdate
      ensures c.Stops? ==> MayStop(cfg, Now(), op, Skip(op, c.reason, c.notional, c.quantity))
      ensures c.Stops? ==> !AsksExchange(cfg, c.reason)
      ensures !c.Stops? ==> c.Replaces?
      ensures c.Replaces? ==> ReplacesStop(op, c.replacement, KnownId(Now(), op), quantity, quantity)
    {
      var side := if op.shortTrade then ShortSide else LongSide;
      var selection := SelectOrderSemantics(op.(protectionOrderId := KnownId(Now(), op)), side, quantity);
      if selection.Refused? {
        return Choice.Stops(Semantics(selection.error), notional, quantity);
      }
      if selection.risk.None? {
        return Choice.Stops(MissingProtectionIntent, 0.0, 0.0);
      }
      return Replaces(selection.risk.value);
    }

    /** A stop replacement: no market order, and nothing at all without the id of the order to replace. */
    method RouteRealRiskUpdate(op: Operation) returns (r: Routed, ghost call: Call)
      requires op.price > 0.0 && op.otype == RiskUpdate
      modifies this`outcomes, exchange
      ensures Routes(op, r, call) && call.shape == Quiet
      ensures ReplacementHolds(old(Now()), Now(), op, call.cover)
    {
      var g := RiskGate(op);
      if g.Raises? {
        r, call := Escape(op);
        return;
      }
      if g.Stops? {
        r, call := Stop(op, g.reason, g.notional, g.quantity);
        return;
      }
      var c := ChooseReplacement(op, g.notional, g.quantity);
      if c.Stops? {
        r, call := Stop(op, c.reason, c.notional, c.quantity);
        return;
      }
      r, call := SendReplacement(op, c.replacement, g.notional, g.quantity);
    }

    method SendReplacement(op: Operation, risk: RiskIntent, notional: real, quantity: real)
      returns (r: Routed, ghost call: Call)
      requires op.otype == RiskUpdate && ReplacesStop(op, risk, KnownId(Now(), op), realShortPosition, realLongPosition)
      modifies this`outcomes, exchange
      ensures Routes(op, r, call) && call.shape == Quiet
      ensures ReplacementHolds(old(Now()), Now(), op, call.cover)
    {
      var cover := ReplaceProtection(exchange, risk);
      if cover.Covered? {
        r := Record(op, AutoSubmitted, NoReason, notional, quantity, true);
      } else {
        r := Record(op, AutoFailed, ProtectionFailed, notional, quantity, false);
      }
      call := Call(op, StatusOf(r), Quiet, cover, notional, false);
    }

    method RouteReal(op: Operation) returns (r: Routed, ghost call: Call)
      requires cfg.mode == AutoTrade && (realShortPosition > 0.0 ==> CanShort(cfg))
      modifies this`outcomes, this`protectionOrderIdsByTrade, this`realShortPosition, this`realLongPosition,
               this`reservedBudgetRemaining, exchange
      ensures Routes(op, r, call)
      ensures op.otype == RiskUpdate ==> ReplacementHolds(old(Now()), Now(), op, call.cover)
    {
      if op.price <= 0.0 {
        r, call := Stop(op, InvalidPrice, 0.0, 0.0);
      } else if op.otype == RiskUpdate {
        r, call := RouteRealRiskUpdate(op);
      } else if op.otype == Short {
        r, call := RouteRealShort(op);
      } else if op.otype == Buy || op.otype == Long {
        r, call := RouteRealLong(op);
      } else if op.otype == Close && cfg.requiresShort {
        r, call := RouteRealShortClose(op);
      } else if op.otype == Sell {
        r, call := RouteRealExit(op);
      } else {
        r, call := Stop(op, UnsupportedOperation, 0.0, 0.0);
      }
    }

    /**
     One operation. An operation seen before, or manual mode, sends nothing; otherwise at most two market
     orders go out. One outcome is recorded, unless an exchange read raises outside every handler, which is
     always before anything was sent.
     */
    method Route(op: Operation) returns (r: Routed)
      requires Valid()
      modifies this, exchange
      ensures Valid()
      ensures |calls| == |old(calls)| + 1 && old(calls) <= calls
      ensures calls[|calls| - 1].op == op && calls[|calls| - 1].status == StatusOf(r)
      ensures exchange.orders == old(exchange.orders) + OrdersOf(op.otype, calls[|calls| - 1].shape)
      ensures outcomes == old(outcomes) + if r.Recorded? then [r.outcome] else []
      ensures r.Raised? <==> ReadRaised(old(exchange.answers), exchange.answers)
      ensures r.Raised? ==> calls[|calls| - 1].shape == Quiet
      ensures Remembered(old(Now()), Now(), op, calls[|calls| - 1].shape, calls[|calls| - 1].cover)
      ensures CoverTold(old(Now()), Now(), op, calls[|calls| - 1])
      ensures SideOf(op.otype) == ShortSide && calls[|calls| - 1].shape != Quiet ==> CanShort(cfg)
      ensures var call := calls[|calls| - 1];
              IsEntry(op.otype) && Submits(call) && WantsProtection(op) ==>
                call.cover.Covered? && WellBracketed(op) && call.shape != Quiet
      ensures Drift(Now()) == old(Drift(Now())) + LeftBehind(calls[|calls| - 1])
      ensures CannotLeak(cfg, op) ==> Drift(Now()) == old(Drift(Now()))
      ensures UncheckedShortStays(old(Now()), Now(), op, r)
      ensures Identity(op) in old(seenOperationIds) || cfg.mode == ManualNotify ==>
                r.Recorded? && r.outcome.status == AutoSkipped && calls[|calls| - 1].shape == Quiet
      ensures seenOperationIds == old(seenOperationIds) + {Identity(op)}
      ensures Identity(op) in old(seenOperationIds) ==> r.Recorded? && r.outcome.reason == DuplicateOperation
      ensures Identity(op) !in old(seenOperationIds) && cfg.mode == ManualNotify ==>
                r.Recorded? && r.outcome.reason == ManualNotifyNoOrder
      ensures AsAnswered(cfg, old(exchange.answers), exchange.answers, r, calls[|calls| - 1])
      ensures Identity(op) !in old(seenOperationIds) && cfg.mode == AutoTrade ==>
                Right(cfg, old(Now()), Now(), op, r, calls[|calls| - 1])
    {
      ghost var call;
      r, call := RouteCall(op);
      calls := calls + [call];
    }

    /** The same, with the call still to be put on record. */
    method RouteCall(op: Operation) returns (r: Routed, ghost call: Call)
      requires Valid()
      modifies this, exchange
      ensures calls == old(calls)
      ensures Follows(cfg, calls + [call], Now(), seenOperationIds)
      ensures Told(cfg, old(Now()), Now(), op, r, call)
      ensures seenOperationIds == old(seenOperationIds) + {Identity(op)}
      ensures NotRouted(cfg, old(seenOperationIds), op, r, call)
      ensures AsAnswered(cfg, old(exchange.answers), exchange.answers, r, call)
      ensures Identity(op) !in old(seenOperationIds) && cfg.mode == AutoTrade ==>
                Right(cfg, old(Now()), Now(), op, r, call)
    {
      OnlyWhereAllowed(cfg, calls, Now(), seenOperationIds);
      r, call := RouteOnce(op);
      Concluded(cfg, calls, old(Now()), Now(), old(seenOperationIds), op, r, call);
    }

    /** The duplicate check. */
    method RouteOnce(op: Operation) returns (r: Routed, ghost call: Call)
      requires realShortPosition > 0.0 ==> CanShort(cfg)
      modifies this, exchange
      ensures Did(cfg, old(Now()), Now(), op, r, call) && CoverTold(old(Now()), Now(), op, call)
      ensures seenOperationIds == old(seenOperationIds) + {Identity(op)}
      ensures NotRouted(cfg, old(seenOperationIds), op, r, call)
      ensures AsAnswered(cfg, old(exchange.answers), exchange.answers, r, call)
      ensures Identity(op) !in old(seenOperationIds) && cfg.mode == AutoTrade ==>
                Right(cfg, old(Now()), Now(), op, r, call)
      ensures calls == old(calls)
    {
      if Identity(op) in seenOperationIds {
        r, call := Decline(op, DuplicateOperation, 0.0, 0.0);
      } else {
        r, call := RouteNew(op);
      }
    }

    /** The mode check, and the routing proper. */
    method RouteNew(op: Operation) returns (r: Routed, ghost call: Call)
      requires Identity(op) !in seenOperationIds && (realShortPosition > 0.0 ==> CanShort(cfg))
      modifies this, exchange
      ensures Did(cfg, old(Now()), Now(), op, r, call) && CoverTold(old(Now()), Now(), op, call)
      ensures seenOperationIds == old(seenOperationIds) + {Identity(op)}
      ensures NotRouted(cfg, old(seenOperationIds), op, r, call)
      ensures AsAnswered(cfg, old(exchange.answers), exchange.answers, r, call)
      ensures cfg.mode == AutoTrade ==> Right(cfg, old(Now()), Now(), op, r, call)
      ensures calls == old(calls)
    {
      seenOperationIds := seenOperationIds + {Identity(op)};
      if cfg.mode == ManualNotify {
        r, call := Decline(op, ManualNotifyNoOrder, 0.0, 0.0);
      } else {
        r, call := RouteReal(op);
      }
    }
  }
}
