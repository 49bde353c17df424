/** What one routed operation may do to the books of the router and the ledgers of the exchange. */
module RouterSteps {
  import opened Common
  import opened OrderSemantics
  import opened Gateway
  import opened RouterCalls

  datatype Reason =
    | NoReason
    | DuplicateOperation | ManualNotifyNoOrder | InvalidPrice | UnsupportedOperation
    | InvalidNotional | InvalidQuantity | InsufficientLeveragedCapital | OrderSizeRejected
    | InsufficientReservedFunds | MarginPrecheck | InsufficientQuoteBalance
    | EmptyOrUnknownPosition | ShortCapabilityNotRequired | MarginNotReady | UnknownShortExposure
    | MissingProtectionIntent | Semantics(error: SemanticsError)
    | ExchangeOrderFailed | ProtectionFailed | ProtectionFailedFailSafeClose | ExceptionText
    | BorrowBlocked | AutoRepayUnavailable | AutoRepayRetryFailed | RetryNonBorrowFailure
    | AutoRepayRetryPassed | ProtectionFailedAfterRetry

  datatype Outcome = Outcome(
    operation: OperationId,
    status: AutoStatus,
    reason: Reason,
    effectiveNotional: real,
    effectiveQuantity: real,
    nativeProtection: bool)

  /** The outcome of an operation that was not sent. */
  function Skip(op: Operation, reason: Reason, notional: real, quantity: real): Outcome {
    Outcome(Identity(op), AutoSkipped, reason, notional, quantity, false)
  }

  /** A call to the router returns an outcome, or lets an exception of an exchange read through. */
  datatype Routed = Raised | Recorded(outcome: Outcome)

  function LeverageRatio(cfg: TaskConfig): real {
    if cfg.leverageRatio < 1.0 then 1.0 else cfg.leverageRatio
  }

  /** The quote balance, or, when it cannot be read, what the configuration says. */
  function CapitalOf(cfg: TaskConfig, balance: Option<real>): real {
    if balance.Some? then balance.value else if cfg.free >= 0.0 then cfg.free else cfg.cash
  }

  function StatusOf(r: Routed): Option<AutoStatus> {
    if r.Raised? then None else Some(r.outcome.status)
  }

  /** What the checks before an entry say: a read raised, they stop it, or it may go, perhaps on margin. */
  datatype Gate =
    | Raises
    | Stops(reason: Reason, notional: real, quantity: real)
    | Opens(notional: real, quantity: real, margin: bool)

  /** And what the intents of an operation come to: an order with its protection, or a stop replacement. */
  datatype Choice =
    | Stops(reason: Reason, notional: real, quantity: real)
    | Goes(order: OrderIntent, risk: Option<RiskIntent>)
    | Replaces(replacement: RiskIntent)

  function SizeOf(shape: Shape): real {
    if shape == Quiet then 0.0 else shape.quantity
  }

  /** The stop and target the operation asks for, for its side and this quantity. */
  predicate Protects(op: Operation, quantity: real, intent: RiskIntent) {
    intent.trade == TradeOf(op) && intent.side == SideOf(op.otype) && intent.quantity == quantity &&
    intent.stop == StopPrice(op) && intent.takeProfit == TakeProfitPrice(op)
  }

  /** An exception that no handler of the router catches. */
  predicate Raising(a: Answer) {
    match a
    case BalanceIs(use, amount) => use == Deciding && amount.None?
    case MarginIs(ready) => ready.None?
    case SizeRefused(refused) => refused.None?
    case BorrowableIs(_) => false
  }

  /** The balance read suffices, or the shortfall can be borrowed, or the borrow reply carries no number. */
  predicate Borrowable(answers: seq<Answer>, required: real) {
    && answers != [] && answers[0].BalanceIs? && answers[0].amount.Some?
    && if |answers| == 1 then required <= answers[0].amount.value
       else
         && |answers| == 2 && answers[1].BorrowableIs? && answers[1].borrowable.Some?
         && (answers[1].borrowable.value.Some? ==>
               answers[1].borrowable.value.value + TOLERANCE >= required - answers[0].amount.value)
  }

  /** The exchange accepted the size of the order. */
  predicate SizeAccepted(answers: seq<Answer>, from: nat) {
    exists i :: from <= i < |answers| && answers[i] == SizeRefused(Some(false))
  }

  /** What the last answer of the exchange was when a skip rests on it. */
  predicate Answered(o: Outcome, a: Answer) {
    match o.reason
    case OrderSizeRejected => a == SizeRefused(Some(true))
    case MarginNotReady => a == MarginIs(Some(false))
    case InsufficientQuoteBalance => a.BalanceIs? && a.amount.Some? && a.amount.value < o.effectiveNotional
    case EmptyOrUnknownPosition => a.BalanceIs? && a.amount.Some? && a.amount.value <= 0.0
    case InsufficientLeveragedCapital => (a.BalanceIs? && a.use == Capping) || a == MarginIs(Some(false))
    case MarginPrecheck => a.BorrowableIs?
    case _ => false
  }

  /** A stop moved for the whole position, to the first price given, in place of the order with the known id. */
  predicate ReplacesStop(op: Operation, intent: RiskIntent, known: string, short: real, long: real) {
    && intent.side == (if op.shortTrade then ShortSide else LongSide)
    && intent.stop == FirstNumber([op.breakevenNewStop, op.stopLoss, Some(op.price)]) && intent.takeProfit.None?
    && intent.replacementOf == known
    && (op.shortTrade ==> intent.quantity == short)
    && (!op.shortTrade && long > 0.0 ==> intent.quantity == long)
  }

  /** The books of the router, its outcomes, and the exchange's ledgers of orders and protection. */
  datatype State = State(
    short: real,
    long: real,
    remaining: Option<real>,
    remembered: map<TradeRef, string>,
    outcomes: seq<Outcome>,
    orders: seq<MarketOrder>,
    protections: seq<Protection>,
    verifications: seq<Verification>)

  // ---------- protection ----------

  /** The ledgers tell what became of the protection of this order, or that there was none. */
  ghost predicate CoverHolds(was: State, now: State, op: Operation, quantity: real, cover: Cover) {
    && was.protections <= now.protections && was.verifications <= now.verifications
    && var placed, checked := now.protections[|was.protections|..], now.verifications[|was.verifications|..];
       if cover == NoCover then placed == [] && checked == []
       else
         && placed != [] && Protects(op, quantity, placed[0].intent)
         && CoverLogged(placed[0].intent, cover, placed, checked)
  }

  /** The order a stop move replaces: the one it names, else the one remembered for its trade. */
  function KnownId(s: State, op: Operation): string {
    if op.protectionOrderId == "" && op.tradeId != "" && Named(op.tradeId) in s.remembered
    then s.remembered[Named(op.tradeId)] else op.protectionOrderId
  }

  /** The ledgers tell what became of a stop replacement, or that none was sent. */
  ghost predicate ReplacementHolds(was: State, now: State, op: Operation, cover: Cover) {
    && was.protections <= now.protections && was.verifications <= now.verifications
    && var placed, checked := now.protections[|was.protections|..], now.verifications[|was.verifications|..];
       if |now.protections| == |was.protections| then
         now.verifications == was.verifications && !cover.Covered? && !cover.CoverUnknown?
       else
         && CoverLogged(placed[0].intent, cover, placed, checked)
         && KnownId(was, op) != "" && ReplacesStop(op, placed[0].intent, KnownId(was, op), was.short, was.long)
  }

  /** The ledgers' account of the protection a call asked for. */
  ghost predicate CoverTold(was: State, now: State, op: Operation, call: Call) {
    if op.otype == RiskUpdate then ReplacementHolds(was, now, op, call.cover)
    else CoverHolds(was, now, op, SizeOf(call.shape), call.cover)
  }

  /** An id check that raised is one whose cover is unknown, and the other way round. */
  lemma UnknownIsUnchecked(was: State, now: State, op: Operation, call: Call)
    requires CoverTold(was, now, op, call)
    ensures was.verifications <= now.verifications
    ensures call.cover == CoverUnknown <==> CheckRaised(now.verifications[|was.verifications|..])
  {
    var checked := now.verifications[|was.verifications|..];
    assert |checked| <= 1;
    if |checked| == 1 {
      assert Unanswered(checked[0]) <==> call.cover == CoverUnknown;
    }
  }

  /** The first id of a covered order's protection is remembered for its trade, and nothing else changes. */
  predicate Remembered(was: State, now: State, op: Operation, shape: Shape, cover: Cover) {
    now.remembered == if shape != Quiet && cover.Covered? && cover.ids != []
                      then was.remembered[TradeOf(op) := cover.ids[0]] else was.remembered
  }

  // ---------- books and ledgers ----------

  /** What went out, what became of its protection and what was reported are as the call record says. */
  ghost predicate Reported(cfg: TaskConfig, was: State, now: State, op: Operation, r: Routed, call: Call) {
    && call.op == op
    && call.status == StatusOf(r)
    && CallFits(cfg, call)
    && (call.shape == Quiet && op.otype != RiskUpdate ==> call.cover == NoCover)
    && (op.otype != RiskUpdate ==> CoverHolds(was, now, op, SizeOf(call.shape), call.cover))
    && Remembered(was, now, op, call.shape, call.cover)
    && now.orders == was.orders + OrdersOf(op.otype, call.shape)
    && now.outcomes == was.outcomes + (if r.Recorded? then [r.outcome] else [])
  }

  /** So far the books did not move. */
  ghost predicate Sent(cfg: TaskConfig, was: State, now: State, op: Operation, r: Routed, call: Call) {
    && Reported(cfg, was, now, op, r, call)
    && !call.marked
    && now.short == was.short
    && now.remaining == was.remaining
  }

  /** One routed operation, its effect on the books included. */
  ghost predicate Did(cfg: TaskConfig, was: State, now: State, op: Operation, r: Routed, call: Call) {
    && Reported(cfg, was, now, op, r, call)
    && now.short == was.short + (if Submits(call) then ShortEffect(op.otype, call.shape) else 0.0)
    && now.remaining == (if call.marked then Charge(was.remaining, call.notional) else was.remaining)
    && (call.marked ==> Submits(call) && IsEntry(op.otype)) && (op.otype == Short && Submits(call) ==> call.marked)
    && (!cfg.requiresShort ==>
          && (call.marked <==> Submits(call) && MainOp(op.otype) == Buy)
          && (call.marked ==> WithinBudget(was.remaining, call.notional)))
  }

  /**
   An accepted stop move does not refresh the id remembered for its trade: a next one without an id of its
   own names, and asks to replace, the very order that the first one replaced.
   */
  lemma NextMoveNamesReplaced(
    cfg: TaskConfig, was: State, mid: State, now: State,
    first: Operation, r1: Routed, c1: Call, second: Operation, r2: Routed, c2: Call)
    requires Did(cfg, was, mid, first, r1, c1) && CoverTold(was, mid, first, c1) && Submits(c1)
    requires Did(cfg, mid, now, second, r2, c2) && CoverTold(mid, now, second, c2) && Submits(c2)
    requires first.otype == RiskUpdate && second.otype == RiskUpdate
    requires first.tradeId == second.tradeId && first.protectionOrderId == second.protectionOrderId == ""
    ensures mid.remembered == was.remembered
    ensures |was.protections| < |mid.protections| < |now.protections|
    ensures now.protections[|mid.protections|].intent.replacementOf
            == mid.protections[|was.protections|].intent.replacementOf != ""
  {
    assert KnownId(mid, second) == KnownId(was, first);
  }

  /** The books, the ledger and the seen identities follow from the calls made so far. */
  ghost predicate Follows(cfg: TaskConfig, calls: seq<Call>, s: State, seen: set<OperationId>) {
    && s.orders == Ledger(calls)
    && (AnyUnchecked(calls) ==> CheckRaised(s.verifications))
    && s.short == Booked(calls)
    && AllFit(cfg, calls)
    && SendsOnce(calls)
    && seen == Identities(calls)
    && (!cfg.requiresShort && cfg.reservedBudget.Some? && cfg.reservedBudget.value >= 0.0 ==>
          BudgetKept(cfg.reservedBudget.value, s.remaining, calls))
    && (!cfg.requiresShort ==> OnlySpotEntriesCharge(calls))
  }

  lemma OnlyWhereAllowed(cfg: TaskConfig, calls: seq<Call>, s: State, seen: set<OperationId>)
    requires Follows(cfg, calls, s, seen)
    ensures s.short > 0.0 ==> CanShort(cfg)
  {
    if !CanShort(cfg) {
      NothingBooked(cfg, calls);
    }
  }

  /** They still do after one more call that sent nothing if its identity was known. */
  lemma FollowsExtend(
    cfg: TaskConfig, calls: seq<Call>, was: State, now: State, seen: set<OperationId>, r: Routed, c: Call)
    requires Follows(cfg, calls, was, seen)
    requires Did(cfg, was, now, c.op, r, c) && CoverTold(was, now, c.op, c)
    requires Identity(c.op) in seen ==> SkippedQuietly(c)
    ensures Follows(cfg, calls + [c], now, seen + {Identity(c.op)})
  {
    CallsExtend(cfg, calls, c);
    IdentitiesExtend(calls, c);
    BudgetExtend(cfg.reservedBudget, was.remaining, calls, c);
    UnknownIsUnchecked(was, now, c.op, c);
    ChecksExtend(calls, c, was.verifications, now.verifications);
  }

  /**
   A trade gives all its operations its signal event, and with it one identity: only the first of them can send
   anything. An exit or a stop move after an entry that carries one is skipped as a duplicate.
   */
  lemma OnePerSignal(
    cfg: TaskConfig, calls: seq<Call>, s: State, seen: set<OperationId>,
    i: nat, j: nat, first: Operation, later: Operation, signalEventId: string)
    requires Follows(cfg, calls, s, seen) && i < j < |calls| && signalEventId != ""
    requires calls[i].op == WithSignal(first, signalEventId) && calls[j].op == WithSignal(later, signalEventId)
    ensures SkippedQuietly(calls[j]) && OrdersOf(calls[j].op.otype, calls[j].shape) == []
  {
    assert QuietRepeat(calls, i, j);
  }

  /** How much more the exchange is short than the books say. */
  function Drift(s: State): real {
    NetShort(s.orders) - s.short
  }

  /** Books and exchange drift apart by what a call leaves behind, and not at all when it cannot leak. */
  lemma Drifts(cfg: TaskConfig, was: State, now: State, op: Operation, r: Routed, call: Call)
    requires Did(cfg, was, now, op, r, call)
    ensures Drift(now) == Drift(was) + LeftBehind(call)
    ensures CannotLeak(cfg, op) ==> Drift(now) == Drift(was)
  {
    NetShortAppend(was.orders, OrdersOf(op.otype, call.shape));
    ShortEffectIsNetShort(op.otype, call.shape);
    KeepsBooksExactly(cfg, op);
  }

  /** A short entry one of whose id checks raised was sold and stays sold, and is reported as failed. */
  ghost predicate UncheckedShortStays(was: State, now: State, op: Operation, r: Routed) {
    && was.verifications <= now.verifications
    && (op.otype == Short && CheckRaised(now.verifications[|was.verifications|..]) ==>
          r.Recorded? && r.outcome.status == AutoFailed && Drift(now) > Drift(was))
  }

  lemma UncheckedShortDrifts(cfg: TaskConfig, was: State, now: State, op: Operation, r: Routed, call: Call)
    requires Did(cfg, was, now, op, r, call) && CoverTold(was, now, op, call)
    ensures UncheckedShortStays(was, now, op, r)
  {
    UnknownIsUnchecked(was, now, op, call);
    if op.otype == Short && call.cover == CoverUnknown {
      UncheckedShort(cfg, call);
      Drifts(cfg, was, now, op, r, call);
    }
  }

  /**
   Read off the ledgers, off the retry path: a protection that was asked for and found neither placed nor
   unchecked is followed by the fail-safe close of what was ordered, and the call is reported as failed.
   */
  lemma RefusalClosesOnLedger(cfg: TaskConfig, was: State, now: State, op: Operation, r: Routed, call: Call)
    requires Did(cfg, was, now, op, r, call) && CoverTold(was, now, op, call)
    requires op.otype != RiskUpdate && !Repays(cfg.policy)
    requires |was.protections| < |now.protections| && was.verifications <= now.verifications
    requires forall v | v in now.verifications[|was.verifications|..] :: v.reply == Verified(false)
    ensures r.Recorded? && r.outcome.status == AutoFailed
    ensures |now.orders| == |was.orders| + 2
    ensures var order, close := now.orders[|was.orders|], now.orders[|was.orders| + 1];
            && order.op == MainOp(op.otype) && order.accepted
            && close.op == CloserOf(op.otype) && close.failSafe && close.quantity == order.quantity
  {
    assert call.cover == Uncovered by {
      var placed := now.protections[|was.protections|..];
      var checked := now.verifications[|was.verifications|..];
      assert placed != [];
      if checked != [] {
        assert checked[0] in checked;
      }
    }
    RefusedMeansClosed(cfg, call);
  }

  // ---------- reasons and quantities ----------

  /** A skip that sent nothing names a reason that held; the reasons not listed here need an answer of the exchange. */
  predicate MayStop(cfg: TaskConfig, s: State, op: Operation, o: Outcome) {
    match o.reason
    case InvalidPrice => op.price <= 0.0
    case InvalidNotional => RequestedNotional(cfg) <= 0.0
    case UnsupportedOperation => MainOp(op.otype) == Unknown || op.otype == Close || MovesStop(op)
    case InsufficientReservedFunds => MainOp(op.otype) == Buy && !WithinBudget(s.remaining, o.effectiveNotional)
    case ShortCapabilityNotRequired => op.otype == Short && !cfg.requiresShort
    case UnknownShortExposure => s.short <= 0.0
    case EmptyOrUnknownPosition => s.long <= 0.0
    case Semantics(error) =>
      || op.otype == RiskUpdate
      || SelectOrderSemantics(op, SideOf(op.otype), o.effectiveQuantity) == Selection.Refused(error)
    case MarginPrecheck => cfg.borrowPrecheck && IsEntry(op.otype)
    case InsufficientQuoteBalance => MainOp(op.otype) == Buy
    case InvalidQuantity => MainOp(op.otype) == Buy
    case InsufficientLeveragedCapital => IsEntry(op.otype) && cfg.requiresShort
    case MarginNotReady => cfg.requiresShort || op.otype == RiskUpdate
    case OrderSizeRejected => MainOp(op.otype) != Unknown
    case MissingProtectionIntent => op.otype == RiskUpdate
    case _ => false
  }

  /** What goes out is the whole position being closed, or what the notional buys. */
  predicate QuantityOk(cfg: TaskConfig, s: State, op: Operation, notional: real, quantity: real) {
    match MainOp(op.otype)
    case Close => quantity == s.short
    case Sell => s.long > 0.0 ==> quantity == s.long
    case Buy => op.price > 0.0 && quantity == notional / op.price && notional <= RequestedNotional(cfg) &&
                (!cfg.requiresShort ==> notional == RequestedNotional(cfg))
    case Short => op.price > 0.0 && quantity == notional / op.price && notional <= RequestedNotional(cfg)
    case _ => false
  }

  /** The long position after a call of a task that never sells short. */
  function LongAfter(s: State, call: Call): real {
    if call.shape == Quiet || !Submits(call) then s.long
    else if MainOp(call.op.otype) == Buy then s.long + call.shape.quantity
    else if call.op.otype == Sell && s.long > 0.0 then 0.0
    else s.long
  }

  /** The call stopped for a true reason or sent the right quantity, and the long position follows. */
  predicate Right(cfg: TaskConfig, was: State, now: State, op: Operation, r: Routed, call: Call) {
    && (call.shape == Quiet && r.Recorded? && r.outcome.status == AutoSkipped ==> MayStop(cfg, was, op, r.outcome))
    && (call.shape != Quiet ==> QuantityOk(cfg, was, op, call.notional, call.shape.quantity))
    && (!cfg.requiresShort ==> now.long == LongAfter(was, call))
    && (MainOp(op.otype) != Buy && MainOp(op.otype) != Sell ==> now.long == was.long)
  }

  /** The reserved budget never stops a short entry; one that is submitted is only charged to it. */
  lemma ShortIsOnlyCharged(cfg: TaskConfig, was: State, now: State, op: Operation, r: Routed, call: Call)
    requires Did(cfg, was, now, op, r, call) && Right(cfg, was, now, op, r, call) && op.otype == Short
    ensures SkippedQuietly(call) && r.Recorded? ==> r.outcome.reason != InsufficientReservedFunds
    ensures Submits(call) ==> now.remaining == Charge(was.remaining, call.notional)
  {
  }

  /** So a short entry of more than what is left goes through, and leaves nothing. */
  lemma OverBudgetShort(cfg: TaskConfig, was: State, op: Operation, notional: real)
    requires CanShort(cfg) && op.otype == Short && op.price > 0.0 && !MovesStop(op) && !WantsProtection(op)
    requires 0.0 < notional <= RequestedNotional(cfg)
    requires was.remaining.Some? && was.remaining.value >= 0.0 && !WithinBudget(was.remaining, notional)
    ensures exists now: State, r: Routed, call: Call ::
              && Did(cfg, was, now, op, r, call) && Right(cfg, was, now, op, r, call)
              && Submits(call) && call.notional == notional && now.remaining == Some(0.0)
  {
    var q := notional / op.price;
    var o := Outcome(Identity(op), AutoSubmitted, NoReason, notional, q, false);
    var call := Call(op, Some(AutoSubmitted), One(q, true), NoCover, notional, true);
    var now := was.(short := was.short + q, remaining := Some(0.0), outcomes := was.outcomes + [o],
                    orders := was.orders + OrdersOf(Short, One(q, true)));
    assert Did(cfg, was, now, op, Recorded(o), call) && Right(cfg, was, now, op, Recorded(o), call);
  }

  // ---------- what the exchange answered ----------

  predicate AsksExchange(cfg: TaskConfig, reason: Reason) {
    || reason == OrderSizeRejected || reason == InsufficientQuoteBalance || reason == EmptyOrUnknownPosition
    || reason == InsufficientLeveragedCapital || reason == MarginPrecheck
    || (reason == MarginNotReady && cfg.requiresShort)
  }

  /** The last read in between raised, and nothing caught it. */
  predicate ReadRaised(was: seq<Answer>, now: seq<Answer>) {
    |was| < |now| && Raising(now[|now| - 1])
  }

  /** It raised exactly when the last read did, and skipped only for what the exchange said. */
  predicate AsAnswered(cfg: TaskConfig, was: seq<Answer>, now: seq<Answer>, r: Routed, call: Call) {
    && was <= now
    && (r.Raised? <==> ReadRaised(was, now))
    && (call.shape == Quiet && r.Recorded? && r.outcome.status == AutoSkipped && AsksExchange(cfg, r.outcome.reason) ==>
          |was| < |now| && Answered(r.outcome, now[|now| - 1]))
  }

  /** The same for the checks before an order. */
  predicate GateAsAnswered(cfg: TaskConfig, was: seq<Answer>, now: seq<Answer>, op: Operation, g: Gate) {
    && was <= now
    && (g.Raises? <==> ReadRaised(was, now))
    && (g.Stops? && AsksExchange(cfg, g.reason) ==>
          |was| < |now| && Answered(Skip(op, g.reason, g.notional, g.quantity), now[|now| - 1]))
  }

  /** What follows the checks keeps to the answers: it ends with them, or goes on when they let it. */
  lemma AnsweredAfter(
    cfg: TaskConfig, was: seq<Answer>, mid: seq<Answer>, now: seq<Answer>,
    op: Operation, g: Gate, r: Routed, call: Call)
    requires GateAsAnswered(cfg, was, mid, op, g)
    requires match g
             case Raises => r.Raised? && now == mid
             case Stops(reason, notional, quantity) =>
               r == Recorded(Skip(op, reason, notional, quantity)) && now == mid
             case Opens(_, _, _) => AsAnswered(cfg, mid, now, r, call)
    ensures AsAnswered(cfg, was, now, r, call)
  {
  }

  /** Operations seen before, and all of them in manual mode, are skipped without sending anything. */
  predicate NotRouted(cfg: TaskConfig, seen: set<OperationId>, op: Operation, r: Routed, call: Call) {
    && (Identity(op) in seen || cfg.mode == ManualNotify ==>
          r.Recorded? && r.outcome.status == AutoSkipped && call.shape == Quiet && call.cover == NoCover)
    && (Identity(op) in seen ==> r.Recorded? && r.outcome.reason == DuplicateOperation)
    && (Identity(op) !in seen && cfg.mode == ManualNotify ==> r.Recorded? && r.outcome.reason == ManualNotifyNoOrder)
  }

  /** What a caller may rely on after one routed operation. */
  ghost predicate Told(cfg: TaskConfig, was: State, now: State, op: Operation, r: Routed, call: Call) {
    && call.op == op && call.status == StatusOf(r)
    && now.orders == was.orders + OrdersOf(op.otype, call.shape)
    && now.outcomes == was.outcomes + (if r.Recorded? then [r.outcome] else [])
    && (r.Raised? ==> call.shape == Quiet)
    && (SideOf(op.otype) == ShortSide && call.shape != Quiet ==> CanShort(cfg))
    && (IsEntry(op.otype) && Submits(call) && WantsProtection(op) ==>
          call.cover.Covered? && WellBracketed(op) && call.shape != Quiet)
    && Remembered(was, now, op, call.shape, call.cover) && CoverTold(was, now, op, call)
    && Drift(now) == Drift(was) + LeftBehind(call)
    && (CannotLeak(cfg, op) ==> Drift(now) == Drift(was))
    && UncheckedShortStays(was, now, op, r)
  }

  lemma Concluded(
    cfg: TaskConfig, calls: seq<Call>, was: State, now: State, seen: set<OperationId>,
    op: Operation, r: Routed, call: Call)
    requires Follows(cfg, calls, was, seen) && NotRouted(cfg, seen, op, r, call)
    requires Did(cfg, was, now, op, r, call) && CoverTold(was, now, op, call)
    ensures Follows(cfg, calls + [call], now, seen + {Identity(op)})
    ensures Told(cfg, was, now, op, r, call)
  {
    FollowsExtend(cfg, calls, was, now, seen, r, call);
    DidIsTold(cfg, was, now, op, r, call);
  }

  lemma DidIsTold(cfg: TaskConfig, was: State, now: State, op: Operation, r: Routed, call: Call)
    requires Did(cfg, was, now, op, r, call) && CoverTold(was, now, op, call)
    ensures Told(cfg, was, now, op, r, call)
  {
    Drifts(cfg, was, now, op, r, call);
    UncheckedShortDrifts(cfg, was, now, op, r, call);
  }
}
