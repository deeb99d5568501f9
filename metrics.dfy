/**
 * The performance figures both scripts report for a return series: compounded growth,
 * CAGR, the maximum drawdown against the running peak, and the Sharpe, Sortino and
 * Calmar ratios with their zero and fallback rules.  The 13-variant backtest reports
 * percentages and also volatility and turnover; the robustness script reports
 * fractions and an empty result for an empty series.
 */
module Metrics {
  import opened Numerics
  import opened Accounting

  /** Months per year, the annualisation factor of monthly figures. */
  const MonthsPerYear: real := 12.0

  /** The downside deviation used when no month lost money. */
  const NoDownsideStd: real := 0.001

  // ---------------------------------------------------------------------------------
  // Drawdown

  /** numpy's `maximum.accumulate`: the highest point so far. */
  function RunningPeak(cs: seq<real>): (p: seq<real>)
    ensures |p| == |cs|
    decreases |cs|
  {
    if |cs| == 0 then []
    else if |cs| == 1 then [cs[0]]
    else
      var before := RunningPeak(cs[..|cs| - 1]);
      before + [Max(before[|before| - 1], cs[|cs| - 1])]
  }

  /** The running peak is the highest point so far: at or above every earlier point and equal to one of them. */
  lemma {:induction false} RunningPeakIsMaximum(cs: seq<real>, k: int)
    requires 0 <= k < |cs|
    ensures forall j :: 0 <= j <= k ==> cs[j] <= RunningPeak(cs)[k]
    ensures exists j :: 0 <= j <= k && cs[j] == RunningPeak(cs)[k]
    decreases |cs|
  {
    var n := |cs| - 1;
    var p := RunningPeak(cs);
    if n > 0 {
      var before := RunningPeak(cs[..n]);
      assert p == before + [Max(before[n - 1], cs[n])];
      if k < n {
        RunningPeakIsMaximum(cs[..n], k);
        assert p[k] == before[k];
      } else {
        RunningPeakIsMaximum(cs[..n], n - 1);
        var j :| 0 <= j <= n - 1 && cs[..n][j] == before[n - 1];
        if p[k] == cs[n] {
          assert cs[k] == p[k];
        } else {
          assert cs[j] == p[k];
        }
      }
    }
  }

  /** The fall from the peak as a fraction of the peak; a zero peak (numpy's NaN) counts as no fall. */
  function Drawdown(c: real, peak: real): real
  {
    if peak == 0.0 then 0.0 else (c - peak) / peak
  }

  function Drawdowns(cs: seq<real>): (d: seq<real>)
    ensures |d| == |cs|
  {
    var p := RunningPeak(cs);
    seq(|cs|, k requires 0 <= k < |cs| => Drawdown(cs[k], p[k]))
  }

  /** numpy's `min`. */
  function MinOf(xs: seq<real>): (m: real)
    requires |xs| > 0
    ensures forall k :: 0 <= k < |xs| ==> m <= xs[k]
    ensures exists k :: 0 <= k < |xs| && m == xs[k]
    decreases |xs|
  {
    if |xs| == 1 then xs[0]
    else
      var rest := MinOf(xs[..|xs| - 1]);
      assert forall k :: 0 <= k < |xs| - 1 ==> xs[..|xs| - 1][k] == xs[k];
      Min(rest, xs[|xs| - 1])
  }

  /** The deepest drawdown of the compounded series, as a fraction. */
  function MaxDrawdown(monthly: seq<real>): real
    requires |monthly| > 0
  {
    MinOf(Drawdowns(CompoundSeries(monthly)))
  }

  /** The first point is its own peak, so the deepest drawdown is never above zero. */
  lemma MaxDrawdownNonPositive(monthly: seq<real>)
    requires |monthly| > 0
    ensures MaxDrawdown(monthly) <= 0.0
  {
    var cs := CompoundSeries(monthly);
    assert RunningPeak(cs)[0] == cs[0] by {
      if |cs| > 1 {
        RunningPeakIsMaximum(cs, 0);
      }
    }
    assert Drawdowns(cs)[0] == 0.0;
  }

  /** Below a positive peak every drawdown lies in [-1, 0] when the series stays non-negative, and is 0 at a new peak. */
  lemma DrawdownBounds(cs: seq<real>, k: int)
    requires 0 <= k < |cs| && RunningPeak(cs)[k] > 0.0 && cs[k] >= 0.0
    ensures -1.0 <= Drawdowns(cs)[k] <= 0.0
    ensures Drawdowns(cs)[k] == 0.0 <==> cs[k] == RunningPeak(cs)[k]
  {
    var p := RunningPeak(cs);
    RunningPeakIsMaximum(cs, k);
    assert cs[k] <= p[k];
    FallBounds(cs[k], p[k]);
    var d := (cs[k] - p[k]) / p[k];
    assert Drawdowns(cs)[k] == d;
    assert -1.0 <= d <= 0.0 && (d == 0.0 <==> cs[k] == p[k]);
  }

  lemma FallBounds(c: real, peak: real)
    requires 0.0 <= c <= peak && peak > 0.0
    ensures -1.0 <= (c - peak) / peak <= 0.0
    ensures (c - peak) / peak == 0.0 <==> c == peak
  {
    var d := (c - peak) / peak;
    assert d * peak == c - peak;
  }

  // ---------------------------------------------------------------------------------
  // Ratios

  /** Annualised mean over annualised standard deviation, 0 when the series has no spread. */
  function Sharpe(lib: Lib, monthly: seq<real>): (s: real)
    requires |monthly| > 0
    ensures Variance(monthly) == 0.0 ==> s == 0.0
    ensures s > 0.0 <==> Variance(monthly) > 0.0 && Mean(monthly) > 0.0
    ensures s < 0.0 <==> Variance(monthly) > 0.0 && Mean(monthly) < 0.0
  {
    var stdRet := Std(lib, monthly) * lib.sqrt(MonthsPerYear);
    if stdRet > 0.0 then
      var m := Mean(monthly) * MonthsPerYear;
      SignOfQuotient(m, stdRet);
      m / stdRet
    else 0.0
  }

  lemma SignOfQuotient(a: real, b: real)
    requires b > 0.0
    ensures a / b > 0.0 <==> a > 0.0
    ensures a / b < 0.0 <==> a < 0.0
  {
    if a > 0.0 {
      QuotientPositive(a, b);
    } else if a < 0.0 {
      QuotientPositive(-a, b);
      assert -a / b == -(a / b);
    }
  }

  /** The losing months, in order (`returns[returns < 0]`). */
  function Negatives(monthly: seq<real>): (neg: seq<real>)
    ensures |neg| <= |monthly|
    ensures forall k :: 0 <= k < |neg| ==> neg[k] < 0.0
    ensures forall r :: r in monthly && r < 0.0 ==> r in neg
    decreases |monthly|
  {
    if |monthly| == 0 then []
    else
      var last := monthly[|monthly| - 1];
      assert forall r :: r in monthly ==> r in monthly[..|monthly| - 1] || r == last;
      Negatives(monthly[..|monthly| - 1]) + (if last < 0.0 then [last] else [])
  }

  /** Annualised standard deviation of the losing months, 0.001 when there are none. */
  function DownsideStd(lib: Lib, monthly: seq<real>): (d: real)
    ensures d >= 0.0
    ensures Negatives(monthly) == [] ==> d == NoDownsideStd
  {
    var neg := Negatives(monthly);
    if |neg| > 0 then ProductNonNegative(Std(lib, neg), lib.sqrt(MonthsPerYear)); Std(lib, neg) * lib.sqrt(MonthsPerYear)
    else NoDownsideStd
  }

  /** Annualised mean over the downside deviation, 0 when that deviation is 0. */
  function Sortino(lib: Lib, monthly: seq<real>): (s: real)
    requires |monthly| > 0
    ensures DownsideStd(lib, monthly) == 0.0 ==> s == 0.0
    ensures Negatives(monthly) == [] ==> s == Mean(monthly) * MonthsPerYear / NoDownsideStd
    ensures s > 0.0 ==> Mean(monthly) > 0.0
  {
    var d := DownsideStd(lib, monthly);
    if d > 0.0 then
      SignOfQuotient(Mean(monthly) * MonthsPerYear, d);
      Mean(monthly) * MonthsPerYear / d
    else 0.0
  }

  /** Without a losing month the 0.001 fallback applies, so a gaining series has a positive Sortino ratio. */
  lemma SortinoWithoutLossesIsPositiveForGains(lib: Lib, monthly: seq<real>)
    requires |monthly| > 0 && Negatives(monthly) == [] && Mean(monthly) > 0.0
    ensures Sortino(lib, monthly) > 0.0
  {
    var m := Mean(monthly) * MonthsPerYear;
    QuotientPositive(m, NoDownsideStd);
  }

  /** The 13-variant backtest's Calmar ratio: CAGR over the drawdown's size, 0 when the drawdown is 0. */
  function GrailCalmar(cagr: real, maxDd: real): (c: real)
    ensures maxDd == 0.0 ==> c == 0.0
    ensures maxDd != 0.0 ==> c * Abs(maxDd) == cagr
  {
    if maxDd != 0.0 then cagr / Abs(maxDd) else 0.0
  }

  /** The robustness script's Calmar ratio: the same quotient, taken only when the drawdown is negative. */
  function RobustCalmar(cagr: real, maxDd: real): (c: real)
    ensures maxDd >= 0.0 ==> c == 0.0
    ensures maxDd < 0.0 ==> c * -maxDd == cagr
  {
    if maxDd < 0.0 then cagr / Abs(maxDd) else 0.0
  }

  /** Since a drawdown is never positive, the two Calmar guards agree. */
  lemma CalmarGuardsAgree(monthly: seq<real>, cagr: real)
    requires |monthly| > 0
    ensures GrailCalmar(cagr, MaxDrawdown(monthly)) == RobustCalmar(cagr, MaxDrawdown(monthly))
  {
    MaxDrawdownNonPositive(monthly);
  }

  // ---------------------------------------------------------------------------------
  // The two reports

  /** The 13-variant backtest's figures, in percent except for the ratios. */
  datatype GrailReport = GrailReport(
    cumulative: real, cagr: real, maxDd: real, volatility: real,
    sharpe: real, sortino: real, calmar: real, avgTurnover: real, annualCost: real)

  /** The robustness script's figures, as fractions. */
  datatype RobustReport = RobustReport(
    cumulative: real, cagr: real, maxDd: real, sharpe: real, sortino: real, calmar: real)

  /** The average turnover in percent, 0 without turnovers. */
  function AverageTurnover(turnovers: seq<real>): (a: real)
    ensures turnovers == [] ==> a == 0.0
  {
    if |turnovers| > 0 then Mean(turnovers) * 100.0 else 0.0
  }

  /**
   * `calc_metrics` of the 13-variant backtest, given the returns, the running growth the
   * loop kept and the turnovers.  The script divides by the number of years, so it needs
   * at least one month.
   */
  function GrailMetrics(lib: Lib, monthly: seq<real>, cumulative: real, turnovers: seq<real>): (m: GrailReport)
    requires |monthly| > 0
    ensures m.cumulative == (cumulative - 1.0) * 100.0
    ensures m.maxDd <= 0.0 && m.maxDd == MaxDrawdown(monthly) * 100.0
    ensures m.sharpe == Sharpe(lib, monthly) && m.sortino == Sortino(lib, monthly)
    ensures m.cagr == (lib.pow(cumulative, 1.0 / ((|monthly| as real) / MonthsPerYear)) - 1.0) * 100.0
    ensures m.volatility == Std(lib, monthly) * lib.sqrt(MonthsPerYear) * 100.0
    ensures m.calmar == GrailCalmar(m.cagr, m.maxDd)
    ensures m.avgTurnover == AverageTurnover(turnovers)
    ensures m.annualCost == AverageTurnover(turnovers) * MonthsPerYear * TransactionCost * 100.0
  {
    var years := (|monthly| as real) / MonthsPerYear;
    var cagr := (lib.pow(cumulative, 1.0 / years) - 1.0) * 100.0;
    var maxDd := MaxDrawdown(monthly) * 100.0;
    MaxDrawdownNonPositive(monthly);
    var avgTurnover := AverageTurnover(turnovers);
    var calmar := GrailCalmar(cagr, maxDd);
    GrailReport(
      (cumulative - 1.0) * 100.0, cagr, maxDd,
      Std(lib, monthly) * lib.sqrt(MonthsPerYear) * 100.0,
      Sharpe(lib, monthly), Sortino(lib, monthly), calmar,
      avgTurnover, avgTurnover * MonthsPerYear * TransactionCost * 100.0)
  }

  /** `calc_metrics` of the robustness script: nothing for an empty series. */
  function RobustMetrics(lib: Lib, monthly: seq<real>): (m: Option<RobustReport>)
    ensures m.None? <==> monthly == []
    ensures m.Some? ==> m.value.cumulative == Compound(monthly) - 1.0
    ensures m.Some? ==> m.value.maxDd <= 0.0 && m.value.maxDd == MaxDrawdown(monthly)
    ensures m.Some? ==> m.value.sharpe == Sharpe(lib, monthly) && m.value.sortino == Sortino(lib, monthly)
    ensures m.Some? && m.value.maxDd == 0.0 ==> m.value.calmar == 0.0
  {
    if |monthly| == 0 then None
    else
      var cumulative := Compound(monthly) - 1.0;
      var years := (|monthly| as real) / MonthsPerYear;
      var cagr := lib.pow(1.0 + cumulative, 1.0 / years) - 1.0;
      MaxDrawdownNonPositive(monthly);
      var maxDd := MaxDrawdown(monthly);
      Some(RobustReport(cumulative, cagr, maxDd, Sharpe(lib, monthly), Sortino(lib, monthly), RobustCalmar(cagr, maxDd)))
  }
}
