/** From an operation to the order and the protection it asks for. */
module OrderSemantics {
  import opened Common

  datatype OpType = Unknown | Buy | Sell | Long | Short | Close | RiskUpdate

  datatype Side = LongSide | ShortSide

  /**
   An operation as the router reads it. Stop and target prices come from several places; each list is in
   the order of preference. priceText is the price as rendered, to 12 significant digits, in the identity.
   */
  datatype Operation = Operation(
    otype: OpType,
    dtime: int,
    price: real,
    priceText: string,
    signalEventId: string,
    stopLoss: Option<real>,
    otherStops: seq<Option<real>>,
    takeProfits: seq<Option<real>>,
    breakevenNewStop: Option<real>,
    protectionOrderId: string,
    tradeId: string,
    shortTrade: bool)

  datatype OperationId = BySignal(id: string) | ByOperation(otype: OpType, dtime: int, priceText: string)

  function Identity(op: Operation): OperationId {
    if op.signalEventId != "" then BySignal(op.signalEventId) else ByOperation(op.otype, op.dtime, op.priceText)
  }

  /** What a trade attaches to the operations it emits: its own signal event, if it has one. */
  function WithSignal(op: Operation, signalEventId: string): Operation {
    if signalEventId != "" then op.(signalEventId := signalEventId) else op
  }

  /** A trade named by the framework, or, without one, by the operation. */
  datatype TradeRef = Named(id: string) | Unnamed(op: OperationId)

  function TradeOf(op: Operation): TradeRef {
    if op.tradeId != "" then Named(op.tradeId) else Unnamed(Identity(op))
  }

  /** The first value that is there and positive. */
  function FirstNumber(values: seq<Option<real>>): (r: Option<real>)
    ensures r.Some? ==> r.value > 0.0 && r in values
    ensures r.None? <==> forall i | 0 <= i < |values| :: values[i].None? || values[i].value <= 0.0
  {
    if values == [] then None
    else if values[0].Some? && values[0].value > 0.0 then values[0]
    else FirstNumber(values[1..])
  }

  datatype IntentKind = Entry | Exit

  datatype OrderIntent = OrderIntent(kind: IntentKind, side: Side, quantity: real, failSafe: bool)

  datatype RiskIntent = RiskIntent(
    trade: TradeRef,
    side: Side,
    quantity: real,
    stop: Option<real>,
    takeProfit: Option<real>,
    replacementOf: string)

  datatype SemanticsError =
    | MissingStop
    | StopNotBelowEntry | TargetNotAboveEntry
    | StopNotAboveEntry | TargetNotBelowEntry

  datatype Selection = Selection(order: Option<OrderIntent>, risk: Option<RiskIntent>) | Refused(error: SemanticsError)

  /** The error of the first check that fails. */
  function ProtectionPricesError(
    side: Side, entry: Option<real>, stop: Option<real>, takeProfit: Option<real>): Option<SemanticsError>
  {
    if entry.None? then None
    else if side == LongSide then
      if stop.Some? && stop.value >= entry.value then Some(StopNotBelowEntry)
      else if takeProfit.Some? && takeProfit.value <= entry.value then Some(TargetNotAboveEntry)
      else None
    else
      if stop.Some? && stop.value <= entry.value then Some(StopNotAboveEntry)
      else if takeProfit.Some? && takeProfit.value >= entry.value then Some(TargetNotBelowEntry)
      else None
  }

  /** The stop is on the losing side of the entry and the target on the winning side. */
  predicate Brackets(side: Side, entry: real, stop: Option<real>, takeProfit: Option<real>) {
    && (stop.Some? ==> if side == LongSide then stop.value < entry else stop.value > entry)
    && (takeProfit.Some? ==> if side == LongSide then takeProfit.value > entry else takeProfit.value < entry)
  }

  function StopPrice(op: Operation): Option<real> {
    FirstNumber([op.stopLoss] + op.otherStops)
  }

  function TakeProfitPrice(op: Operation): Option<real> {
    FirstNumber(op.takeProfits)
  }

  function OrderFor(op: Operation, side: Side, quantity: real): Option<OrderIntent> {
    match op.otype
    case Buy | Long | Short => Some(OrderIntent(Entry, side, quantity, false))
    case Sell | Close => Some(OrderIntent(Exit, side, quantity, false))
    case _ => None
  }

  predicate MovesStop(op: Operation) {
    op.otype == RiskUpdate || op.breakevenNewStop.Some?
  }

  function SelectOrderSemantics(op: Operation, side: Side, quantity: real): Selection {
    if MovesStop(op) then
      match FirstNumber([op.breakevenNewStop, op.stopLoss, Some(op.price)])
      case None => Refused(MissingStop)
      case Some(stop) =>
        Selection(None, Some(RiskIntent(TradeOf(op), side, quantity, Some(stop), None, op.protectionOrderId)))
    else
      var order := OrderFor(op, side, quantity);
      var stop, takeProfit := StopPrice(op), TakeProfitPrice(op);
      if stop.None? && takeProfit.None? then Selection(order, None)
      else
        match ProtectionPricesError(side, FirstNumber([Some(op.price)]), stop, takeProfit)
        case Some(error) => Refused(error)
        case None => Selection(order, Some(RiskIntent(TradeOf(op), side, quantity, stop, takeProfit, "")))
  }

  /** The operation asks for a stop or a target. */
  predicate WantsProtection(op: Operation) {
    StopPrice(op).Some? || TakeProfitPrice(op).Some?
  }

  /**
   For an operation with a valid price that does not move a stop: it is refused exactly when its stop or
   target is on the wrong side of the price; otherwise the protection is asked for exactly when a stop or
   a target is there, for the order's own side and quantity.
   */
  lemma SelectionMeaning(op: Operation, side: Side, quantity: real)
    requires op.price > 0.0 && !MovesStop(op)
    ensures var s := SelectOrderSemantics(op, side, quantity);
            && (s.Refused? <==> !Brackets(side, op.price, StopPrice(op), TakeProfitPrice(op)))
            && (s.Selection? ==>
                  && s.order == OrderFor(op, side, quantity)
                  && (s.risk.Some? <==> WantsProtection(op))
                  && (s.risk.Some? ==>
                        && s.risk.value.trade == TradeOf(op)
                        && s.risk.value.side == side
                        && s.risk.value.quantity == quantity
                        && s.risk.value.stop == StopPrice(op)
                        && s.risk.value.takeProfit == TakeProfitPrice(op)))
  {
  }
}
