/**
 * Return-series adjustments of the robustness battery: the survivorship-bias penalty,
 * the cost of funding the leveraged part of the volatility-scaled strategies, and the
 * recovery of monthly returns from a cumulative series that starts at 100.
 */
module Adjustments {
  import opened Numerics
  import opened Strategies

  // ---------------------------------------------------------------------------------
  // Survivorship bias

  const SurvivorshipPenaltyAnnual: real := 0.02

  /** The monthly penalty, a twelfth of the annual one. */
  const MonthlyPenalty: real := SurvivorshipPenaltyAnnual / 12.0

  /**
   * The seventh test's adjusted returns: every month loses the monthly penalty, except for
   * SPY, an ETF, whose returns are kept as they are.
   */
  function SurvivorshipAdjusted(v: Variant, rs: seq<real>): (adjusted: seq<real>)
    ensures |adjusted| == |rs|
    ensures v == Spy ==> adjusted == rs
    ensures v != Spy ==> forall i :: 0 <= i < |rs| ==> adjusted[i] == rs[i] - MonthlyPenalty
  {
    if v == Spy then rs
    else seq(|rs|, i requires 0 <= i < |rs| => rs[i] - MonthlyPenalty)
  }

  lemma {:induction false} SumShifted(xs: seq<real>, ys: seq<real>, c: real)
    requires |xs| == |ys|
    requires forall i :: 0 <= i < |xs| ==> ys[i] == xs[i] - c
    ensures Sum(ys) == Sum(xs) - (|xs| as real) * c
    decreases |xs|
  {
    if |xs| > 0 {
      var m := |xs| - 1;
      SumShifted(xs[..m], ys[..m], c);
    }
  }

  /** The penalty lowers the mean monthly return of every strategy but SPY by exactly the monthly penalty. */
  lemma PenaltyShiftsMean(v: Variant, rs: seq<real>)
    requires |rs| > 0
    ensures v != Spy ==> Mean(SurvivorshipAdjusted(v, rs)) == Mean(rs) - MonthlyPenalty
    ensures v == Spy ==> Mean(SurvivorshipAdjusted(v, rs)) == Mean(rs)
  {
    if v != Spy {
      var adjusted := SurvivorshipAdjusted(v, rs);
      var n := |rs| as real;
      SumShifted(rs, adjusted, MonthlyPenalty);
      assert (Sum(rs) - n * MonthlyPenalty) / n == Sum(rs) / n - MonthlyPenalty;
    }
  }

  // ---------------------------------------------------------------------------------
  // Funding cost of leverage

  const FundingCostAnnual: real := 0.05

  /** The funding charge of one month: the leveraged part of the scale factor at a twelfth of 5%. */
  function FundingCharge(scale: real): (c: real)
    ensures c >= 0.0
    ensures c == 0.0 <==> scale <= 1.0
  {
    var leverage := Max(scale - 1.0, 0.0);
    ChargeSign(leverage);
    leverage * (FundingCostAnnual / 12.0)
  }

  lemma ChargeSign(leverage: real)
    requires leverage >= 0.0
    ensures leverage * (FundingCostAnnual / 12.0) >= 0.0
    ensures leverage * (FundingCostAnnual / 12.0) == 0.0 <==> leverage == 0.0
  {
    var rate := FundingCostAnnual / 12.0;
    assert rate > 0.0;
    if leverage > 0.0 {
      assert leverage * rate > 0.0;
    }
  }

  /**
   * The eighth test's adjusted returns, for the volatility-scaled strategies: each month
   * pays the funding charge of its scale factor (element-wise, so the two series have the
   * same length).
   */
  function FundingAdjusted(rs: seq<real>, scales: seq<real>): (adjusted: seq<real>)
    requires |rs| == |scales|
    ensures |adjusted| == |rs|
    ensures forall i :: 0 <= i < |rs| ==> adjusted[i] == rs[i] - FundingCharge(scales[i])
  {
    seq(|rs|, i requires 0 <= i < |rs| => rs[i] - FundingCharge(scales[i]))
  }

  /**
   * Funding never raises a month's return, and leaves it unchanged exactly when the month
   * was not leveraged; so it never raises the mean either.
   */
  lemma FundingOnlyCharges(rs: seq<real>, scales: seq<real>)
    requires |rs| == |scales| && |rs| > 0
    ensures forall i :: 0 <= i < |rs| ==> FundingAdjusted(rs, scales)[i] <= rs[i]
    ensures forall i :: 0 <= i < |rs| ==> (FundingAdjusted(rs, scales)[i] == rs[i] <==> scales[i] <= 1.0)
    ensures Mean(FundingAdjusted(rs, scales)) <= Mean(rs)
  {
    var adjusted := FundingAdjusted(rs, scales);
    SumMonotone(adjusted, rs);
    var n := |rs| as real;
    assert Sum(adjusted) / n <= Sum(rs) / n;
  }

  /** Only the volatility-scaled strategies carry scale factors and pay for funding. */
  function FundedReturns(v: Variant, rs: seq<real>, scales: seq<real>): (adjusted: Option<seq<real>>)
    requires |rs| == |scales|
    ensures adjusted.Some? <==> IsVolScale(v)
    ensures adjusted.Some? ==> adjusted.value == FundingAdjusted(rs, scales)
  {
    if IsVolScale(v) then Some(FundingAdjusted(rs, scales)) else None
  }

  // ---------------------------------------------------------------------------------
  // Monthly returns from a cumulative series

  /** The month-i return of a cumulative series starting at 100; 0 after a zero point. */
  function MonthFromCumulative(cumulative: seq<real>, i: nat): real
    requires i < |cumulative|
  {
    if i == 0 then cumulative[0] / 100.0 - 1.0
    else if cumulative[i - 1] != 0.0 then cumulative[i] / cumulative[i - 1] - 1.0
    else 0.0
  }

  /** `calc_monthly_returns_from_cumulative`: one return per point of the series, in order. */
  method MonthlyFromCumulative(cumulative: seq<real>) returns (monthly: seq<real>)
    ensures |monthly| == |cumulative|
    ensures forall i :: 0 <= i < |cumulative| ==> monthly[i] == MonthFromCumulative(cumulative, i)
  {
    monthly := [];
    for i := 0 to |cumulative|
      invariant |monthly| == i
      invariant forall k :: 0 <= k < i ==> monthly[k] == MonthFromCumulative(cumulative, k)
    {
      if i == 0 {
        monthly := monthly + [cumulative[i] / 100.0 - 1.0];
      } else {
        if cumulative[i - 1] != 0.0 {
          monthly := monthly + [cumulative[i] / cumulative[i - 1] - 1.0];
        } else {
          monthly := monthly + [0.0];
        }
      }
    }
  }

  /** The returns of the whole series, as the loop produces them. */
  function MonthsFromCumulative(cumulative: seq<real>): (monthly: seq<real>)
    ensures |monthly| == |cumulative|
  {
    seq(|cumulative|, i requires 0 <= i < |cumulative| => MonthFromCumulative(cumulative, i))
  }

  lemma GrowthStep(before: real, after: real)
    requires before != 0.0
    ensures before * (1.0 + (after / before - 1.0)) == after
  {
  }

  /**
   * Compounding the recovered returns from 100 gives the cumulative series back, up to
   * the first point that is 0.
   */
  lemma {:induction false} CompoundingRecovers(cumulative: seq<real>, i: nat)
    requires i < |cumulative|
    requires forall k :: 0 <= k < i ==> cumulative[k] != 0.0
    ensures 100.0 * Compound(MonthsFromCumulative(cumulative)[..i + 1]) == cumulative[i]
    decreases i
  {
    var monthly := MonthsFromCumulative(cumulative);
    if i == 0 {
      assert monthly[..1] == [] + [monthly[0]];
      CompoundAppend([], monthly[0]);
    } else {
      CompoundingRecovers(cumulative, i - 1);
      PrefixGrows(monthly, i);
      CompoundAppend(monthly[..i], monthly[i]);
      var before := Compound(monthly[..i]);
      assert 100.0 * before == cumulative[i - 1];
      GrowthStep(cumulative[i - 1], cumulative[i]);
      assert 100.0 * (before * (1.0 + monthly[i])) == cumulative[i - 1] * (1.0 + monthly[i]);
    }
  }
}
