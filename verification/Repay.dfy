/** Repaying every margin liability under a total and a per-asset cap. */
module Repay {
  import opened Common

  /** One row of the margin account; rows without an asset name are passed over. */
  datatype AssetRow = AssetRow(asset: Option<string>, borrowed: real, interest: real, free: real)

  datatype Why = NoLiability | ExcludedAsset | TotalCapExhausted | BelowMinOrNoCapacity

  datatype RepayResult =
    | Skipped(asset: string, why: Why)
    | Repaid(asset: string, amount: real)
    | Failed(asset: string, amount: real)

  /** A repayment request as sent: the amount in eight decimals. */
  datatype RepayCall = RepayCall(asset: string, sent: real, accepted: bool)

  datatype Decision = Skip(why: Why) | Try(amount: real)

  const UNIT := 0.00000001

  function Liability(r: AssetRow): real {
    Max(r.borrowed + r.interest, 0.0)
  }

  /** The amount is cut, not rounded, to eight decimals. */
  function FormatDecimalAmount(value: real): real {
    var units := value / UNIT;
    (if units >= 0.0 then units.Floor else -(-units).Floor) as real * UNIT
  }

  lemma FormatCutsDown(value: real)
    requires value >= 0.0
    ensures 0.0 <= FormatDecimalAmount(value) <= value < FormatDecimalAmount(value) + UNIT
  {
  }

  datatype Limits = Limits(perAsset: real, min: real, excluded: set<string>)

  function Decide(r: AssetRow, l: Limits, remaining: real): Decision
    requires r.asset.Some?
  {
    var amount := Min(Min(Min(Liability(r), r.free), l.perAsset), remaining);
    if Liability(r) <= 0.0 then Skip(NoLiability)
    else if r.asset.value in l.excluded then Skip(ExcludedAsset)
    else if remaining < l.min then Skip(TotalCapExhausted)
    else if amount < l.min then Skip(BelowMinOrNoCapacity)
    else Try(amount)
  }

  // ---- Reading the results ----

  function SumRepaid(results: seq<RepayResult>): real
    decreases |results|
  {
    if results == [] then 0.0
    else
      var r := results[|results| - 1];
      SumRepaid(results[..|results| - 1]) + if r.Repaid? then r.amount else 0.0
  }

  function SumAccepted(calls: seq<RepayCall>): real
    decreases |calls|
  {
    if calls == [] then 0.0
    else
      var c := calls[|calls| - 1];
      SumAccepted(calls[..|calls| - 1]) + if c.accepted then c.sent else 0.0
  }

  /** The calls the results stand for, in order: one for each repayment tried. */
  function CallsOf(results: seq<RepayResult>): seq<RepayCall>
    decreases |results|
  {
    if results == [] then []
    else
      var r := results[|results| - 1];
      CallsOf(results[..|results| - 1]) +
      if r.Skipped? then [] else [RepayCall(r.asset, FormatDecimalAmount(r.amount), r.Repaid?)]
  }

  function Named(rows: seq<AssetRow>): (s: seq<AssetRow>)
    ensures forall i :: 0 <= i < |s| ==> s[i].asset.Some?
    decreases |rows|
  {
    if rows == [] then []
    else
      var before := Named(rows[..|rows| - 1]);
      if rows[|rows| - 1].asset.Some? then before + [rows[|rows| - 1]] else before
  }

  /** A result is what the row deserved with what the earlier repayments had left. */
  predicate Follows(row: AssetRow, l: Limits, remaining: real, r: RepayResult) {
    row.asset.Some? && r.asset == row.asset.value &&
    var d := Decide(row, l, remaining);
    if d.Skip? then r == Skipped(r.asset, d.why) else !r.Skipped? && r.amount == d.amount
  }

  predicate FollowsAt(rows: seq<AssetRow>, l: Limits, budget: real, results: seq<RepayResult>, i: nat)
    requires i < |rows| && i < |results|
  {
    Follows(rows[i], l, budget - SumRepaid(results[..i]), results[i])
  }

  /** Row by row, the results are what the caps demand. */
  ghost predicate Explains(rows: seq<AssetRow>, l: Limits, budget: real, results: seq<RepayResult>) {
    && |results| == |rows|
    && forall i: nat {:trigger FollowsAt(rows, l, budget, results, i)} ::
         i < |results| ==> FollowsAt(rows, l, budget, results, i)
  }

  lemma SumsOfOneMore(results: seq<RepayResult>, r: RepayResult)
    ensures SumRepaid(results + [r]) == SumRepaid(results) + if r.Repaid? then r.amount else 0.0
    ensures CallsOf(results + [r]) == CallsOf(results) +
              if r.Skipped? then [] else [RepayCall(r.asset, FormatDecimalAmount(r.amount), r.Repaid?)]
  {
  }

  lemma ExplainsOneMore(
    rows: seq<AssetRow>, l: Limits, budget: real, results: seq<RepayResult>, row: AssetRow, r: RepayResult)
    requires Explains(rows, l, budget, results) && Follows(row, l, budget - SumRepaid(results), r)
    ensures Explains(rows + [row], l, budget, results + [r])
  {
    var rows', more := rows + [row], results + [r];
    forall i: nat | i < |more|
      ensures FollowsAt(rows', l, budget, more, i)
    {
      if i < |results| {
        assert FollowsAt(rows, l, budget, results, i);
        assert more[..i] == results[..i];
      } else {
        assert more[..i] == results;
      }
    }
  }

  lemma ExplainsInit(rows: seq<AssetRow>, l: Limits, budget: real, results: seq<RepayResult>)
    requires Explains(rows, l, budget, results) && results != []
    ensures Explains(rows[..|rows| - 1], l, budget, results[..|results| - 1])
  {
    var n := |results| - 1;
    forall i: nat | i < n
      ensures FollowsAt(rows[..n], l, budget, results[..n], i)
    {
      assert FollowsAt(rows, l, budget, results, i);
      assert results[..n][..i] == results[..i];
    }
  }

  /** What any explained list of results keeps to. */
  lemma RepaymentsBounded(rows: seq<AssetRow>, l: Limits, budget: real, results: seq<RepayResult>, i: nat)
    requires Explains(rows, l, budget, results) && i < |results| && !results[i].Skipped?
    ensures l.min <= results[i].amount <= Liability(rows[i])
    ensures results[i].amount <= rows[i].free && results[i].amount <= l.perAsset
    ensures results[i].amount <= budget - SumRepaid(results[..i])
    ensures results[i].asset !in l.excluded && Liability(rows[i]) > 0.0
  {
    assert FollowsAt(rows, l, budget, results, i);
  }

  /** A row is passed over exactly when it owes nothing, is excluded, or some cap leaves less than the minimum. */
  lemma SkipsJustified(rows: seq<AssetRow>, l: Limits, budget: real, results: seq<RepayResult>, i: nat)
    requires Explains(rows, l, budget, results) && i < |results|
    ensures rows[i].asset == Some(results[i].asset)
    ensures results[i].Skipped? <==>
            results[i].asset in l.excluded || Liability(rows[i]) <= 0.0 || Liability(rows[i]) < l.min ||
            budget - SumRepaid(results[..i]) < l.min || rows[i].free < l.min || l.perAsset < l.min
  {
    assert FollowsAt(rows, l, budget, results, i);
  }

  lemma {:induction false} TotalWithinBudget(rows: seq<AssetRow>, l: Limits, budget: real, results: seq<RepayResult>)
    requires Explains(rows, l, budget, results) && l.min >= 0.0 && budget >= 0.0
    ensures 0.0 <= SumRepaid(results) <= budget
    decreases |results|
  {
    if results != [] {
      var n := |results| - 1;
      ExplainsInit(rows, l, budget, results);
      TotalWithinBudget(rows[..n], l, budget, results[..n]);
      if !results[n].Skipped? {
        RepaymentsBounded(rows, l, budget, results, n);
      }
    }
  }

  /** Less is sent than accounted for, by less than one unit a repayment. */
  lemma {:induction false} SentWithinAccounted(rows: seq<AssetRow>, l: Limits, budget: real, results: seq<RepayResult>)
    requires Explains(rows, l, budget, results) && l.min >= 0.0
    ensures SumAccepted(CallsOf(results)) <= SumRepaid(results)
    ensures SumRepaid(results) <= SumAccepted(CallsOf(results)) + |results| as real * UNIT
    decreases |results|
  {
    if results != [] {
      var n := |results| - 1;
      var init, r := results[..n], results[n];
      ExplainsInit(rows, l, budget, results);
      SentWithinAccounted(rows[..n], l, budget, init);
      assert init + [r] == results;
      SumsOfOneMore(init, r);
      if r.Skipped? {
        assert CallsOf(init) + [] == CallsOf(init);
      } else {
        RepaymentsBounded(rows, l, budget, results, n);
        FormatCutsDown(r.amount);
        AcceptedOneMore(CallsOf(init), RepayCall(r.asset, FormatDecimalAmount(r.amount), r.Repaid?));
      }
    }
  }

  lemma AcceptedOneMore(calls: seq<RepayCall>, c: RepayCall)
    ensures SumAccepted(calls + [c]) == SumAccepted(calls) + if c.accepted then c.sent else 0.0
  {
  }

  // ---- The loop ----

  class CcxtDriver {
    ghost var calls: seq<RepayCall>

    constructor ()
      ensures calls == []
    {
      calls := [];
    }

    /** The exchange accepts or raises. */
    method SendRepay(asset: string, amount: real) returns (accepted: bool)
      modifies this
      ensures calls == old(calls) + [RepayCall(asset, FormatDecimalAmount(amount), accepted)]
    {
      accepted := *;
      calls := calls + [RepayCall(asset, FormatDecimalAmount(amount), accepted)];
    }

    method RepayRow(row: AssetRow, l: Limits, total: real, remaining: real)
        returns (r: RepayResult, total': real, remaining': real)
      requires row.asset.Some? && remaining >= 0.0 && l.min >= 0.0
      modifies this
      ensures Follows(row, l, remaining, r)
      ensures calls == old(calls) +
                if r.Skipped? then [] else [RepayCall(r.asset, FormatDecimalAmount(r.amount), r.Repaid?)]
      ensures total' == total + (if r.Repaid? then r.amount else 0.0)
      ensures total' + remaining' == total + remaining && remaining' >= 0.0
    {
      total', remaining' := total, remaining;
      var asset := row.asset.value;
      if Liability(row) <= 0.0 {
        return Skipped(asset, NoLiability), total, remaining;
      }
      if asset in l.excluded {
        return Skipped(asset, ExcludedAsset), total, remaining;
      }
      if remaining < l.min {
        return Skipped(asset, TotalCapExhausted), total, remaining;
      }
      var amount := Min(Min(Min(Liability(row), row.free), l.perAsset), remaining);
      if amount < l.min {
        return Skipped(asset, BelowMinOrNoCapacity), total, remaining;
      }
      var accepted := SendRepay(asset, amount);
      if accepted {
        return Repaid(asset, amount), total + amount, Max(remaining - amount, 0.0);
      }
      return Failed(asset, amount), total, remaining;
    }

    /** What was repaid and what remains of the cap always make up the cap. */
    method AutoRepayAll(rows: seq<AssetRow>, maxTotal: real, maxPerAsset: real, minAmount: real, excluded: set<string>)
        returns (results: seq<RepayResult>, totalRepaid: real, remainingTotal: real, ok: bool)
      modifies this
      ensures totalRepaid + remainingTotal == Max(maxTotal, 0.0) && remainingTotal >= 0.0
      ensures totalRepaid == SumRepaid(results)
      ensures Explains(Named(rows), Limits(Max(maxPerAsset, 0.0), Max(minAmount, 0.0), excluded),
                       Max(maxTotal, 0.0), results)
      ensures calls == old(calls) + CallsOf(results)
      ensures ok <==> totalRepaid > 0.0
    {
      var l := Limits(Max(maxPerAsset, 0.0), Max(minAmount, 0.0), excluded);
      remainingTotal, totalRepaid, results := Max(maxTotal, 0.0), 0.0, [];
      for i := 0 to |rows|
        invariant totalRepaid + remainingTotal == Max(maxTotal, 0.0) && remainingTotal >= 0.0
        invariant totalRepaid == SumRepaid(results)
        invariant Explains(Named(rows[..i]), l, Max(maxTotal, 0.0), results)
        invariant calls == old(calls) + CallsOf(results)
      {
        assert rows[..i + 1][..i] == rows[..i];
        if rows[i].asset.Some? {
          var r;
          r, totalRepaid, remainingTotal := RepayRow(rows[i], l, totalRepaid, remainingTotal);
          ExplainsOneMore(Named(rows[..i]), l, Max(maxTotal, 0.0), results, rows[i], r);
          SumsOfOneMore(results, r);
          results := results + [r];
        }
      }
      assert rows[..|rows|] == rows;
      ok := totalRepaid > 0.0;
    }
  }
}
