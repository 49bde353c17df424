/** What one routed operation may do to the exchange, and what a run of them adds up to. */
module RouterCalls {
  import opened Common
  import opened OrderSemantics
  import opened Gateway

  datatype LiveMode = ManualNotify | AutoTrade

  datatype BorrowBlockPolicy = SkipContinue | RepaySingle | RepayAll | StopTask

  datatype TaskConfig = TaskConfig(
    mode: LiveMode,
    policy: BorrowBlockPolicy,
    requiresShort: bool,
    maxNotional: real,
    free: real,
    cash: real,
    leverageRatio: real,
    borrowPrecheck: bool,
    reservedBudget: Option<real>)

  function RequestedNotional(cfg: TaskConfig): real {
    if cfg.maxNotional > 0.0 then cfg.maxNotional else if cfg.free >= 0.0 then cfg.free else cfg.cash
  }

  /** A task that may come to hold a short position. */
  predicate CanShort(cfg: TaskConfig) {
    cfg.mode == AutoTrade && cfg.requiresShort && RequestedNotional(cfg) > 0.0
  }

  datatype AutoStatus = AutoSubmitted | AutoSkipped | AutoFailed

  /** The market order an operation stands for. */
  function MainOp(otype: OpType): OpType {
    match otype
    case Buy | Long => Buy
    case Short => Short
    case Sell => Sell
    case Close => Close
    case _ => Unknown
  }

  function SideOf(otype: OpType): Side {
    if otype == Short || otype == Close then ShortSide else LongSide
  }

  predicate IsEntry(otype: OpType) {
    otype == Buy || otype == Long || otype == Short
  }

  function CloserOf(otype: OpType): OpType {
    if SideOf(otype) == LongSide then Sell else Close
  }

  /** The market orders of one call: none, one, one followed by the fail-safe close, or two attempts. */
  datatype Shape =
    | Quiet
    | One(quantity: real, ok: bool)
    | Guarded(quantity: real, closed: bool)
    | Retry(quantity: real, ok: bool)

  function OrdersOf(otype: OpType, shape: Shape): (orders: seq<MarketOrder>)
    ensures |orders| <= 2
  {
    match shape
    case Quiet => []
    case One(q, ok) => [MarketOrder(MainOp(otype), q, false, ok)]
    case Guarded(q, closed) =>
      [MarketOrder(MainOp(otype), q, false, true), MarketOrder(CloserOf(otype), q, true, closed)]
    case Retry(q, ok) =>
      [MarketOrder(MainOp(otype), q, false, false), MarketOrder(MainOp(otype), q, false, ok)]
  }

  /** An entry or exit that reached the exchange had a price, with its stop and target on the right sides of it. */
  predicate WellBracketed(op: Operation) {
    && op.price > 0.0 && !MovesStop(op)
    && Brackets(SideOf(op.otype), op.price, StopPrice(op), TakeProfitPrice(op))
  }

  predicate Repays(policy: BorrowBlockPolicy) {
    policy == RepaySingle || policy == RepayAll
  }

  /** An accepted order with this cover, when no fail-safe close followed it, is reported so. */
  predicate CoverFits(op: Operation, status: Option<AutoStatus>, cover: Cover, retried: bool) {
    match cover
    case NoCover => !WantsProtection(op) && status == Some(AutoSubmitted)
    case Covered(_) => WantsProtection(op) && status == Some(AutoSubmitted)
    case Uncovered => retried && WantsProtection(op) && status == Some(AutoFailed)
    case CoverUnknown => WantsProtection(op) && status == Some(AutoFailed)
  }

  /** Which reports go with which market orders and protection. None stands for a call that raised. */
  predicate StatusFits(
    policy: BorrowBlockPolicy, op: Operation, status: Option<AutoStatus>, shape: Shape, cover: Cover)
  {
    && (shape != Quiet ==> WellBracketed(op) && shape.quantity > 0.0)
    && match shape
       case Quiet => status == Some(AutoSubmitted) ==> op.otype == RiskUpdate && cover.Covered?
       case One(_, ok) =>
         if ok then CoverFits(op, status, cover, false)
         else
           && cover == NoCover
           && (status == Some(AutoFailed) || (status == Some(AutoSkipped) && IsEntry(op.otype) && policy != StopTask))
       case Guarded(_, _) => cover == Uncovered && WantsProtection(op) && status == Some(AutoFailed)
       case Retry(_, ok) =>
         && IsEntry(op.otype) && Repays(policy)
         && (if ok then CoverFits(op, status, cover, true)
             else cover == NoCover && (status == Some(AutoSkipped) || status == Some(AutoFailed)))
  }

  /** One routed operation, as it went: marked says whether the reserved budget was charged the notional. */
  datatype Call = Call(
    op: Operation,
    status: Option<AutoStatus>,
    shape: Shape,
    cover: Cover,
    notional: real,
    marked: bool)

  predicate Submits(c: Call) {
    c.status == Some(AutoSubmitted)
  }

  predicate CallFits(cfg: TaskConfig, c: Call) {
    && StatusFits(cfg.policy, c.op, c.status, c.shape, c.cover)
    && (c.shape != Quiet && SideOf(c.op.otype) == ShortSide ==> CanShort(cfg))
  }

  // ---------- exposure ----------

  function OrderShort(o: MarketOrder): real {
    if !o.accepted then 0.0 else if o.op == Short then o.quantity else if o.op == Close then -o.quantity else 0.0
  }

  /** Net short quantity of a ledger. */
  function NetShort(orders: seq<MarketOrder>): real {
    if orders == [] then 0.0 else NetShort(orders[..|orders| - 1]) + OrderShort(orders[|orders| - 1])
  }

  lemma {:induction false} NetShortAppend(a: seq<MarketOrder>, b: seq<MarketOrder>)
    ensures NetShort(a + b) == NetShort(a) + NetShort(b)
  {
    if b == [] {
      assert a + b == a;
    } else {
      var front := b[..|b| - 1];
      assert (a + b)[..|a + b| - 1] == a + front;
      NetShortAppend(a, front);
    }
  }

  /** What a call does to the net short quantity. */
  function ShortEffect(otype: OpType, shape: Shape): real {
    var sign := if MainOp(otype) == Short then 1.0 else if MainOp(otype) == Close then -1.0 else 0.0;
    match shape
    case Quiet => 0.0
    case One(q, ok) => if ok then sign * q else 0.0
    case Guarded(q, closed) => sign * q - (if closed && CloserOf(otype) == Close then q else 0.0)
    case Retry(q, ok) => if ok then sign * q else 0.0
  }

  lemma ShortEffectIsNetShort(otype: OpType, shape: Shape)
    ensures NetShort(OrdersOf(otype, shape)) == ShortEffect(otype, shape)
  {
    var orders := OrdersOf(otype, shape);
    if |orders| == 2 {
      assert orders == [orders[0]] + [orders[1]];
      NetShortAppend([orders[0]], [orders[1]]);
      OneOrder(orders[0]);
      OneOrder(orders[1]);
    } else if |orders| == 1 {
      assert orders == [orders[0]];
      OneOrder(orders[0]);
    }
  }

  lemma OneOrder(o: MarketOrder)
    ensures NetShort([o]) == OrderShort(o)
  {
  }

  function Ledger(calls: seq<Call>): seq<MarketOrder> {
    if calls == [] then [] else
      Ledger(calls[..|calls| - 1]) + OrdersOf(calls[|calls| - 1].op.otype, calls[|calls| - 1].shape)
  }

  /** Net short quantity of the calls reported as submitted. */
  function Booked(calls: seq<Call>): real {
    if calls == [] then 0.0 else
      var c := calls[|calls| - 1];
      Booked(calls[..|calls| - 1]) + if Submits(c) then ShortEffect(c.op.otype, c.shape) else 0.0
  }

  /** What a call did to the net short quantity without its being reported as submitted. */
  function LeftBehind(c: Call): real {
    if Submits(c) then 0.0 else ShortEffect(c.op.otype, c.shape)
  }

  predicate Leaks(c: Call) {
    LeftBehind(c) != 0.0
  }

  function Unbooked(calls: seq<Call>): real {
    if calls == [] then 0.0 else Unbooked(calls[..|calls| - 1]) + LeftBehind(calls[|calls| - 1])
  }

  /**
   Conservation: the exchange's net short is what was booked plus what calls not reported as submitted left
   behind.
   */
  lemma {:induction false} ExposureSplits(calls: seq<Call>)
    ensures NetShort(Ledger(calls)) == Booked(calls) + Unbooked(calls)
  {
    if calls != [] {
      var c := calls[|calls| - 1];
      ExposureSplits(calls[..|calls| - 1]);
      NetShortAppend(Ledger(calls[..|calls| - 1]), OrdersOf(c.op.otype, c.shape));
      ShortEffectIsNetShort(c.op.otype, c.shape);
    }
  }

  /**
   Nothing went wrong beyond the router's reach: the policy does not retry, a close carries no stop or
   target, the fail-safe close went through, and the id check did not raise.
   */
  predicate Benign(cfg: TaskConfig, c: Call) {
    && !Repays(cfg.policy)
    && (c.op.otype == Close ==> !WantsProtection(c.op))
    && (c.shape.Guarded? ==> c.shape.closed)
    && c.cover != CoverUnknown
  }

  /** A benign call leaves no net short behind. */
  lemma BenignLeavesNothing(cfg: TaskConfig, c: Call)
    requires CallFits(cfg, c) && Benign(cfg, c)
    ensures !Leaks(c)
  {
  }

  ghost predicate AllFit(cfg: TaskConfig, calls: seq<Call>) {
    forall i: nat {:trigger CallFits(cfg, calls[i])} | i < |calls| :: CallFits(cfg, calls[i])
  }

  ghost predicate AllBenign(cfg: TaskConfig, calls: seq<Call>) {
    forall i: nat {:trigger Benign(cfg, calls[i])} | i < |calls| :: Benign(cfg, calls[i])
  }

  ghost predicate NoneLeaks(calls: seq<Call>) {
    forall i: nat {:trigger Leaks(calls[i])} | i < |calls| :: !Leaks(calls[i])
  }

  /** After every one of the calls the books and the exchange agreed. */
  ghost predicate AlwaysAgree(calls: seq<Call>) {
    forall k: nat {:trigger AgreeAfter(calls, k)} | k <= |calls| :: AgreeAfter(calls, k)
  }

  predicate AgreeAfter(calls: seq<Call>, k: nat)
    requires k <= |calls|
  {
    Booked(calls[..k]) == NetShort(Ledger(calls[..k]))
  }

  /** Books and exchange drift apart by exactly what a call leaves behind. */
  lemma UnbookedGrows(calls: seq<Call>, k: nat)
    requires k < |calls|
    ensures Unbooked(calls[..k + 1]) == Unbooked(calls[..k]) + LeftBehind(calls[k])
  {
    assert calls[..k + 1][..k] == calls[..k];
  }

  /** Whole run: the books agreed with the exchange all along exactly when no call leaked. */
  lemma AgreesExactly(calls: seq<Call>)
    ensures AlwaysAgree(calls) <==> NoneLeaks(calls)
  {
    if AlwaysAgree(calls) {
      forall i: nat | i < |calls|
        ensures !Leaks(calls[i])
      {
        assert AgreeAfter(calls, i) && AgreeAfter(calls, i + 1);
        ExposureSplits(calls[..i]);
        ExposureSplits(calls[..i + 1]);
        UnbookedGrows(calls, i);
      }
    }
    if NoneLeaks(calls) {
      forall k: nat | k <= |calls|
        ensures AgreeAfter(calls, k)
      {
        NoLeakSoFar(calls, k);
        ExposureSplits(calls[..k]);
      }
    }
  }

  lemma {:induction false} NoLeakSoFar(calls: seq<Call>, k: nat)
    requires NoneLeaks(calls) && k <= |calls|
    ensures Unbooked(calls[..k]) == 0.0
  {
    if k == 0 {
    } else {
      NoLeakSoFar(calls, k - 1);
      assert !Leaks(calls[k - 1]);
      UnbookedGrows(calls, k - 1);
    }
  }

  /** An operation that does not touch the short position, asks for no protection, or is refused for its prices. */
  predicate KeepsBooks(op: Operation) {
    (op.otype != Short && op.otype != Close) || !WantsProtection(op) || !WellBracketed(op)
  }

  predicate CannotLeak(cfg: TaskConfig, op: Operation) {
    !CanShort(cfg) || KeepsBooks(op)
  }

  /** What can be checked before a call: exactly these never leak, whatever the exchange answers. */
  lemma KeepsBooksExactly(cfg: TaskConfig, op: Operation)
    ensures CannotLeak(cfg, op) <==> forall c: Call | c.op == op && CallFits(cfg, c) :: !Leaks(c)
  {
    if !CannotLeak(cfg, op) {
      var c := Call(op, Some(AutoFailed), One(1.0, true), CoverUnknown, 0.0, false);
      assert CallFits(cfg, c) && Leaks(c);
    }
  }

  /** A task that cannot sell short books no short position. */
  lemma {:induction false} NothingBooked(cfg: TaskConfig, calls: seq<Call>)
    requires AllFit(cfg, calls) && !CanShort(cfg)
    ensures Booked(calls) == 0.0
  {
    if calls != [] {
      var front := calls[..|calls| - 1];
      forall i: nat | i < |front|
        ensures CallFits(cfg, front[i])
      {
        assert CallFits(cfg, calls[i]);
      }
      NothingBooked(cfg, front);
      assert CallFits(cfg, calls[|calls| - 1]);
    }
  }

  /** Whole run: with benign calls only, the books agree with the exchange. */
  lemma BooksAgree(cfg: TaskConfig, calls: seq<Call>)
    requires AllFit(cfg, calls) && AllBenign(cfg, calls)
    ensures AlwaysAgree(calls) && Booked(calls) == NetShort(Ledger(calls))
  {
    forall i: nat | i < |calls|
      ensures !Leaks(calls[i])
    {
      assert CallFits(cfg, calls[i]) && Benign(cfg, calls[i]);
      BenignLeavesNothing(cfg, calls[i]);
    }
    AgreesExactly(calls);
    assert AgreeAfter(calls, |calls|) && calls[..|calls|] == calls;
  }

  /** Exactly these calls leak: what was sold or bought back, and not as reported. */
  lemma LeaksExactly(cfg: TaskConfig, c: Call)
    requires CallFits(cfg, c)
    ensures Leaks(c) <==>
            && SideOf(c.op.otype) == ShortSide && !Submits(c)
            && (|| (c.shape.One? && c.cover == CoverUnknown)
                || (c.shape.Guarded? && (c.op.otype == Close || !c.shape.closed))
                || (c.shape.Retry? && c.shape.ok))
  {
  }

  /** A short entry whose id check raised was sold and stays sold, and is reported as failed. */
  lemma UncheckedShort(cfg: TaskConfig, c: Call)
    requires CallFits(cfg, c) && c.op.otype == Short && c.cover == CoverUnknown && c.shape != Quiet
    ensures c.status == Some(AutoFailed) && LeftBehind(c) == c.shape.quantity > 0.0
  {
  }

  // ---------- what the ledgers say ----------

  predicate Unanswered(v: Verification) {
    v.reply.VerifierRaised?
  }

  predicate CheckRaised(verifications: seq<Verification>) {
    exists i: nat {:trigger Unanswered(verifications[i])} | i < |verifications| :: Unanswered(verifications[i])
  }

  lemma CheckRaisedAppend(a: seq<Verification>, b: seq<Verification>)
    ensures CheckRaised(a + b) <==> CheckRaised(a) || CheckRaised(b)
  {
    if CheckRaised(a) {
      var i: nat :| i < |a| && Unanswered(a[i]);
      assert Unanswered((a + b)[i]);
    }
    if CheckRaised(b) {
      var i: nat :| i < |b| && Unanswered(b[i]);
      assert Unanswered((a + b)[|a| + i]);
    }
    if CheckRaised(a + b) {
      var i: nat :| i < |a + b| && Unanswered((a + b)[i]);
      if i < |a| {
        assert Unanswered(a[i]);
      } else {
        assert Unanswered(b[i - |a|]);
      }
    }
  }

  predicate Unchecked(c: Call) {
    c.cover == CoverUnknown
  }

  predicate AnyUnchecked(calls: seq<Call>) {
    exists i: nat {:trigger Unchecked(calls[i])} | i < |calls| :: Unchecked(calls[i])
  }

  /** A run with a cover that is unknown has a raised check on the exchange's ledger. */
  lemma ChecksExtend(calls: seq<Call>, c: Call, was: seq<Verification>, now: seq<Verification>)
    requires was <= now
    requires AnyUnchecked(calls) ==> CheckRaised(was)
    requires Unchecked(c) ==> CheckRaised(now[|was|..])
    ensures AnyUnchecked(calls + [c]) ==> CheckRaised(now)
  {
    assert now == was + now[|was|..];
    CheckRaisedAppend(was, now[|was|..]);
    if AnyUnchecked(calls + [c]) {
      var i: nat :| i < |calls + [c]| && Unchecked((calls + [c])[i]);
      if i < |calls| {
        assert Unchecked(calls[i]);
      }
    }
  }

  /** Every fail-safe close on the ledger went through. */
  predicate FailSafesAccepted(orders: seq<MarketOrder>) {
    forall o | o in orders :: o.failSafe ==> o.accepted
  }

  lemma {:induction false} OrdersOnLedger(calls: seq<Call>, c: Call, o: MarketOrder)
    requires c in calls && o in OrdersOf(c.op.otype, c.shape)
    ensures o in Ledger(calls)
  {
    if c != calls[|calls| - 1] {
      OrdersOnLedger(calls[..|calls| - 1], c, o);
    }
  }

  /** Without retries and protected closes, two facts of the exchange's ledgers make every call benign. */
  lemma LedgersTell(cfg: TaskConfig, calls: seq<Call>)
    requires AllFit(cfg, calls) && !Repays(cfg.policy)
    requires forall c | c in calls :: c.op.otype == Close ==> !WantsProtection(c.op)
    requires FailSafesAccepted(Ledger(calls)) && !AnyUnchecked(calls)
    ensures AllBenign(cfg, calls)
  {
    forall i: nat | i < |calls|
      ensures Benign(cfg, calls[i])
    {
      var c := calls[i];
      assert c in calls && !Unchecked(calls[i]);
      if c.shape.Guarded? {
        OrdersOnLedger(calls, c, OrdersOf(c.op.otype, c.shape)[1]);
      }
    }
  }

  // ---------- reports ----------

  /** An entry with a stop or a target is reported as submitted only when it is covered and well bracketed. */
  lemma SubmittedMeansCovered(cfg: TaskConfig, c: Call)
    requires CallFits(cfg, c) && Submits(c) && IsEntry(c.op.otype) && WantsProtection(c.op)
    ensures c.cover.Covered? && WellBracketed(c.op)
    ensures (c.shape.One? || c.shape.Retry?) && c.shape.ok
  {
  }

  /** Off the retry path an accepted order whose protection is refused is followed by the fail-safe close. */
  lemma RefusedMeansClosed(cfg: TaskConfig, c: Call)
    requires CallFits(cfg, c) && c.shape != Quiet && c.cover == Uncovered && !c.shape.Retry?
    ensures c.shape.Guarded? && c.status == Some(AutoFailed)
    ensures OrdersOf(c.op.otype, c.shape)[1]
            == MarketOrder(CloserOf(c.op.otype), c.shape.quantity, true, c.shape.closed)
  {
  }

  // ---------- reserved budget ----------

  function Spent(calls: seq<Call>): real {
    if calls == [] then 0.0 else
      Spent(calls[..|calls| - 1]) + if calls[|calls| - 1].marked then calls[|calls| - 1].notional else 0.0
  }

  function Charges(calls: seq<Call>): (n: nat)
    ensures n <= |calls|
  {
    if calls == [] then 0 else Charges(calls[..|calls| - 1]) + if calls[|calls| - 1].marked then 1 else 0
  }

  /** What is left after a charge. */
  function Charge(remaining: Option<real>, notional: real): Option<real> {
    if remaining.None? then None else Some(Max(remaining.value - notional, 0.0))
  }

  predicate WithinBudget(remaining: Option<real>, notional: real) {
    remaining.None? || remaining.value + TOLERANCE >= notional
  }

  /** Spending stays within the budget up to the tolerance of each check, and what is left is never negative. */
  predicate BudgetKept(budget: real, remaining: Option<real>, calls: seq<Call>) {
    && remaining.Some?
    && remaining.value >= 0.0
    && Spent(calls) + remaining.value <= budget + Charges(calls) as real * TOLERANCE
  }

  /** The call sent nothing and was reported so. */
  predicate SkippedQuietly(c: Call) {
    c.shape == Quiet && c.cover == NoCover && c.status == Some(AutoSkipped)
  }

  /** No operation sends twice: a later call with an identity seen before is skipped. */
  ghost predicate SendsOnce(calls: seq<Call>) {
    forall i: nat, j: nat {:trigger QuietRepeat(calls, i, j)} | i < j < |calls| :: QuietRepeat(calls, i, j)
  }

  predicate QuietRepeat(calls: seq<Call>, i: nat, j: nat)
    requires i < j < |calls|
  {
    Identity(calls[i].op) == Identity(calls[j].op) ==> SkippedQuietly(calls[j])
  }

  function Identities(calls: seq<Call>): set<OperationId> {
    set i: nat | i < |calls| :: Identity(calls[i].op)
  }

  lemma IdentitiesExtend(calls: seq<Call>, c: Call)
    requires SendsOnce(calls) && (Identity(c.op) in Identities(calls) ==> SkippedQuietly(c))
    ensures SendsOnce(calls + [c]) && Identities(calls + [c]) == Identities(calls) + {Identity(c.op)}
  {
    var all := calls + [c];
    forall i: nat, j: nat | i < j < |all|
      ensures QuietRepeat(all, i, j)
    {
      if j < |calls| {
        assert QuietRepeat(calls, i, j);
      } else {
        assert Identity(calls[i].op) in Identities(calls);
      }
    }
    forall id | id in Identities(calls) + {Identity(c.op)}
      ensures id in Identities(all)
    {
      if id in Identities(calls) {
        var i: nat :| i < |calls| && id == Identity(calls[i].op);
        assert all[i] == calls[i];
      } else {
        assert all[|calls|] == c;
      }
    }
  }

  /** The calls that charge the budget are the submitted long entries. */
  ghost predicate OnlySpotEntriesCharge(calls: seq<Call>) {
    forall i: nat {:trigger ChargesRight(calls[i])} | i < |calls| :: ChargesRight(calls[i])
  }

  predicate ChargesRight(c: Call) {
    c.marked <==> Submits(c) && MainOp(c.op.otype) == Buy
  }

  lemma BudgetExtend(budget: Option<real>, remaining: Option<real>, calls: seq<Call>, c: Call)
    ensures budget.Some? && BudgetKept(budget.value, remaining, calls)
            && (c.marked ==> WithinBudget(remaining, c.notional)) ==>
              BudgetKept(budget.value, if c.marked then Charge(remaining, c.notional) else remaining, calls + [c])
    ensures OnlySpotEntriesCharge(calls) && ChargesRight(c) ==> OnlySpotEntriesCharge(calls + [c])
  {
  }

  lemma CallsExtend(cfg: TaskConfig, calls: seq<Call>, c: Call)
    requires AllFit(cfg, calls) && CallFits(cfg, c)
    ensures AllFit(cfg, calls + [c])
    ensures Ledger(calls + [c]) == Ledger(calls) + OrdersOf(c.op.otype, c.shape)
    ensures Booked(calls + [c]) == Booked(calls) + if Submits(c) then ShortEffect(c.op.otype, c.shape) else 0.0
  {
  }

  /** For a task that never sells short: everything spent on entries is within the budget it started with. */
  lemma EntriesWithinBudget(budget: real, remaining: Option<real>, calls: seq<Call>)
    requires BudgetKept(budget, remaining, calls) && OnlySpotEntriesCharge(calls)
    ensures EntryNotional(calls) <= budget + EntryCount(calls) as real * TOLERANCE
  {
    EntriesAreCharges(calls);
  }

  function EntryNotional(calls: seq<Call>): real {
    if calls == [] then 0.0 else
      var c := calls[|calls| - 1];
      EntryNotional(calls[..|calls| - 1]) + if Submits(c) && MainOp(c.op.otype) == Buy then c.notional else 0.0
  }

  function EntryCount(calls: seq<Call>): nat {
    if calls == [] then 0 else
      var c := calls[|calls| - 1];
      EntryCount(calls[..|calls| - 1]) + if Submits(c) && MainOp(c.op.otype) == Buy then 1 else 0
  }

  lemma {:induction false} EntriesAreCharges(calls: seq<Call>)
    requires OnlySpotEntriesCharge(calls)
    ensures EntryNotional(calls) == Spent(calls) && EntryCount(calls) == Charges(calls)
  {
    if calls != [] {
      var front := calls[..|calls| - 1];
      forall i: nat | i < |front|
        ensures ChargesRight(front[i])
      {
        assert ChargesRight(calls[i]);
      }
      EntriesAreCharges(front);
      assert ChargesRight(calls[|calls| - 1]);
    }
  }
}
