/** The exchange, as an adversary with a ledger, and the gateway that turns intents into calls on it. */
module Gateway {
  import opened Common
  import opened ExecutionModels
  import opened OrderSemantics

  /** One market order: what was asked, whether it is the fail-safe close, and whether the exchange took it. */
  datatype MarketOrder = MarketOrder(op: OpType, quantity: real, failSafe: bool, accepted: bool)

  /** A market order call raises, or returns order ids, perhaps none; the text may name a borrow block. */
  datatype OrderReply = OrderRaised(borrowBlock: bool) | OrderReplied(ids: seq<string>, borrowBlock: bool)

  /** A protection call: unsupported or raising, or a reply with order ids, perhaps none. */
  datatype ProtectionReply = ProtectionUnavailable | ProtectionReplied(ids: seq<string>)

  datatype VerifyReply = Verified(known: bool) | VerifierRaised

  datatype Protection = Protection(intent: RiskIntent, reply: ProtectionReply)

  datatype Verification = Verification(ids: seq<string>, reply: VerifyReply)

  /** What a balance is read for. A failing read is handled when it caps the leverage or reports a borrow block. */
  datatype BalanceUse = Deciding | Capping | Reporting

  /** What a read of the exchange said; None when it raised. */
  datatype Answer =
    | BalanceIs(use: BalanceUse, amount: Option<real>)
    | MarginIs(ready: Option<bool>)
    | SizeRefused(refused: Option<bool>)
    | BorrowableIs(borrowable: Option<Option<real>>)

  /**
   The exchange may answer anything at any time; reads return None when they raise. The three ledgers keep,
   in order, the market orders, the protection calls and the id checks; `answers` keeps the reads.
   */
  class Exchange {
    var orders: seq<MarketOrder>
    var protections: seq<Protection>
    var verifications: seq<Verification>
    ghost var answers: seq<Answer>

    constructor ()
      ensures orders == [] && protections == [] && verifications == [] && answers == []
    {
      orders, protections, verifications, answers := [], [], [], [];
    }

    method NewOrder(op: OpType, intent: OrderIntent) returns (reply: OrderReply)
      modifies this`orders
      ensures orders == old(orders) +
                        [MarketOrder(op, intent.quantity, intent.failSafe, reply.OrderReplied? && reply.ids != [])]
    {
      reply := *;
      orders := orders + [MarketOrder(op, intent.quantity, intent.failSafe, reply.OrderReplied? && reply.ids != [])];
    }

    /** One-cancels-other, stop or take-profit order, by what the intent carries. */
    method NewProtection(intent: RiskIntent) returns (reply: ProtectionReply)
      modifies this`protections
      ensures protections == old(protections) + [Protection(intent, reply)]
    {
      reply := *;
      protections := protections + [Protection(intent, reply)];
    }

    method VerifyOrderIds(ids: seq<string>) returns (reply: VerifyReply)
      modifies this`verifications
      ensures verifications == old(verifications) + [Verification(ids, reply)]
    {
      reply := *;
      verifications := verifications + [Verification(ids, reply)];
    }

    method Balance(ghost use: BalanceUse) returns (amount: Option<real>)
      modifies this`answers
      ensures answers == old(answers) + [BalanceIs(use, amount)]
    {
      amount := *;
      answers := answers + [BalanceIs(use, amount)];
    }

    method MarginReady() returns (ready: Option<bool>)
      modifies this`answers
      ensures answers == old(answers) + [MarginIs(ready)]
    {
      ready := *;
      answers := answers + [MarginIs(ready)];
    }

    /** None when the call raises; a refusal otherwise. */
    method ValidateOrderSize() returns (refused: Option<bool>)
      modifies this`answers
      ensures answers == old(answers) + [SizeRefused(refused)]
    {
      refused := *;
      answers := answers + [SizeRefused(refused)];
    }

    /** The amount that can be borrowed; the inner None when the reply carries no number. */
    method MaxBorrowable() returns (amount: Option<Option<real>>)
      modifies this`answers
      ensures answers == old(answers) + [BorrowableIs(amount)]
    {
      amount := *;
      answers := answers + [BorrowableIs(amount)];
    }

    method AutoRepay() returns (ok: bool) {
      ok := *;
    }
  }

  datatype ExecutionResult = ExecutionResult(status: ExecutionStatus, ids: seq<string>, borrowBlock: bool)
  {
    predicate IsAccepted() {
      status == Submitted || status == Accepted || status == Filled
    }
  }

  function MarketOp(intent: OrderIntent): OpType {
    match intent.kind
    case Entry => if intent.side == LongSide then Buy else Short
    case Exit => if intent.side == LongSide then Sell else Close
  }

  /** Accepted exactly when the exchange answered with at least one order id. */
  method SubmitMarket(exchange: Exchange, intent: OrderIntent) returns (result: ExecutionResult)
    modifies exchange`orders
    ensures exchange.orders == old(exchange.orders) +
                               [MarketOrder(MarketOp(intent), intent.quantity, intent.failSafe, result.IsAccepted())]
    ensures result.IsAccepted() <==> result.ids != []
  {
    var reply := exchange.NewOrder(MarketOp(intent), intent);
    match reply
    case OrderRaised(block) => result := ExecutionResult(Failed, [], block);
    case OrderReplied(ids, block) =>
      result := if ids == [] then ExecutionResult(Failed, [], block) else ExecutionResult(Submitted, ids, block);
  }

  /** What became of a protection: accepted with verified ids, refused, or the id check itself raised. */
  datatype Cover = NoCover | Covered(ids: seq<string>) | Uncovered | CoverUnknown

  /** The ledgers' account of one protection attempt. */
  ghost predicate CoverLogged(
    intent: RiskIntent, cover: Cover, protections: seq<Protection>, verifications: seq<Verification>)
  {
    match cover
    case NoCover => protections == [] && verifications == []
    case Covered(ids) =>
      && ids != [] && protections == [Protection(intent, ProtectionReplied(ids))]
      && verifications == [Verification(ids, Verified(true))]
    case Uncovered =>
      && |protections| == 1 && protections[0].intent == intent
      && (protections[0].reply == ProtectionUnavailable || protections[0].reply == ProtectionReplied([])
          ==> verifications == [])
      && (protections[0].reply.ProtectionReplied? && protections[0].reply.ids != []
          ==> verifications == [Verification(protections[0].reply.ids, Verified(false))])
    case CoverUnknown =>
      && |protections| == 1 && protections[0].intent == intent && protections[0].reply.ProtectionReplied?
      && protections[0].reply.ids != []
      && verifications == [Verification(protections[0].reply.ids, VerifierRaised)]
  }

  method PlaceProtection(exchange: Exchange, intent: RiskIntent) returns (cover: Cover)
    modifies exchange`protections, exchange`verifications
    ensures cover != NoCover
    ensures old(exchange.protections) <= exchange.protections && old(exchange.verifications) <= exchange.verifications
    ensures CoverLogged(intent, cover, exchange.protections[|old(exchange.protections)|..],
                        exchange.verifications[|old(exchange.verifications)|..])
  {
    var reply := exchange.NewProtection(intent);
    if reply.ProtectionUnavailable? || reply.ids == [] {
      return Uncovered;
    }
    var known := exchange.VerifyOrderIds(reply.ids);
    match known
    case VerifierRaised => cover := CoverUnknown;
    case Verified(k) => cover := if k then Covered(reply.ids) else Uncovered;
  }

  /** Nothing is sent without the id of the order to replace. */
  method ReplaceProtection(exchange: Exchange, intent: RiskIntent) returns (cover: Cover)
    modifies exchange`protections, exchange`verifications
    ensures old(exchange.protections) <= exchange.protections && old(exchange.verifications) <= exchange.verifications
    ensures intent.replacementOf == "" ==>
              && cover == Uncovered && exchange.protections == old(exchange.protections)
              && exchange.verifications == old(exchange.verifications)
    ensures intent.replacementOf != "" ==>
              cover != NoCover
              && CoverLogged(intent, cover, exchange.protections[|old(exchange.protections)|..],
                             exchange.verifications[|old(exchange.verifications)|..])
  {
    if intent.replacementOf == "" {
      return Uncovered;
    }
    cover := PlaceProtection(exchange, intent);
  }
}
