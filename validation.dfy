/**
 * Out-of-sample checks of a monthly return series: the rolling walk-forward analysis
 * (five years in sample, the next year out of sample, stepping a year at a time) and the
 * holdout split that keeps the last fifth of the series unseen.
 */
module Validation {
  import opened Numerics
  import opened Metrics

  /**
   * The Sharpe ratio the validation tests use: annualised mean over the annualised
   * sample (ddof = 1) standard deviation, and 0 when the population deviation is 0.
   */
  function WindowSharpe(lib: Lib, rs: seq<real>): (s: real)
    requires |rs| > 0
    ensures Variance(rs) == 0.0 ==> s == 0.0
    ensures s > 0.0 <==> Variance(rs) > 0.0 && Mean(rs) > 0.0
    ensures s < 0.0 <==> Variance(rs) > 0.0 && Mean(rs) < 0.0
  {
    if Std(lib, rs) > 0.0 then
      PositiveSpreadNeedsTwo(rs);
      var sd := SampleStd(lib, rs) * lib.sqrt(MonthsPerYear);
      var m := Mean(rs) * MonthsPerYear;
      SignOfQuotient(m, sd);
      m / sd
    else 0.0
  }

  /** The relative change from the in-sample to the out-of-sample figure, 0 when the in-sample figure is 0. */
  function Degradation(train: real, test: real): (g: real)
    ensures train == 0.0 ==> g == 0.0
    ensures train != 0.0 ==> (g > 0.0 <==> test > train) && (g < 0.0 <==> test < train)
    ensures train != 0.0 ==> g * Abs(train) == test - train
  {
    if train != 0.0 then
      SignOfQuotient(test - train, Abs(train));
      (test - train) / Abs(train)
    else 0.0
  }

  // ---------------------------------------------------------------------------------
  // Walk-forward analysis

  const WindowMonths: nat := 60
  const StepMonths: nat := 12

  datatype Period = Period(startYear: int, trainSharpe: real, testSharpe: real, degradation: real)

  /** Window k trains on months [12k, 12k + 60) and tests on the following twelve. */
  function PeriodAt(lib: Lib, rs: seq<real>, k: nat): (p: Period)
    requires StepMonths * k + WindowMonths + StepMonths <= |rs|
    ensures p.startYear == k
  {
    var start := StepMonths * k;
    var train := WindowSharpe(lib, rs[start..start + WindowMonths]);
    var test := WindowSharpe(lib, rs[start + WindowMonths..start + WindowMonths + StepMonths]);
    Period(start / 12, train, test, Degradation(train, test))
  }

  /** The number of whole windows: `(len - 72) / 12 + 1`. */
  function WindowCount(n: nat): (c: nat)
    requires n >= WindowMonths + StepMonths
    ensures StepMonths * (c - 1) + WindowMonths + StepMonths <= n < StepMonths * c + WindowMonths + StepMonths
  {
    (n - WindowMonths - StepMonths) / StepMonths + 1
  }

  function Periods(lib: Lib, rs: seq<real>): (ps: seq<Period>)
    requires |rs| >= WindowMonths + StepMonths
    ensures |ps| == WindowCount(|rs|)
  {
    seq(WindowCount(|rs|), k requires 0 <= k < WindowCount(|rs|) => PeriodAt(lib, rs, k))
  }

  datatype WalkForwardResult = WalkForwardResult(nPeriods: nat, avgDegradation: real, consistency: real, periods: seq<Period>)

  function Degradations(ps: seq<Period>): (gs: seq<real>)
    ensures |gs| == |ps|
  {
    seq(|ps|, k requires 0 <= k < |ps| => ps[k].degradation)
  }

  function PositiveTests(ps: seq<Period>): (hits: seq<bool>)
    ensures |hits| == |ps|
    ensures forall k :: 0 <= k < |ps| ==> (hits[k] <==> ps[k].testSharpe > 0.0)
  {
    seq(|ps|, k requires 0 <= k < |ps| => ps[k].testSharpe > 0.0)
  }

  /** One pass of the walk-forward loop: the Sharpe ratios in and out of sample and the degradation between them. */
  method ScoreWindow(lib: Lib, rs: seq<real>, start: nat) returns (period: Period)
    requires start % StepMonths == 0 && start + WindowMonths + StepMonths <= |rs|
    ensures period == PeriodAt(lib, rs, start / StepMonths)
  {
    ghost var k := start / StepMonths;
    assert StepMonths * k == start;
    var trainSharpe := WindowSharpe(lib, rs[start..start + WindowMonths]);
    var testSharpe := WindowSharpe(lib, rs[start + WindowMonths..start + WindowMonths + StepMonths]);
    period := Period(start / 12, trainSharpe, testSharpe, Degradation(trainSharpe, testSharpe));
  }

  /**
   * `walk_forward_analysis`: `None` below 72 months; otherwise one period per window,
   * the mean degradation, and the share of windows with a positive out-of-sample Sharpe.
   */
  method WalkForward(lib: Lib, rs: seq<real>) returns (result: Option<WalkForwardResult>)
    ensures result.None? <==> |rs| < WindowMonths + StepMonths
    ensures result.Some? ==>
              && result.value.periods == Periods(lib, rs)
              && result.value.nPeriods == (|rs| - 72) / 12 + 1
              && result.value.avgDegradation == Mean(Degradations(result.value.periods))
              && result.value.consistency == Fraction(PositiveTests(result.value.periods))
              && 0.0 <= result.value.consistency <= 1.0
  {
    if |rs| < WindowMonths + StepMonths {
      return None;
    }
    ghost var all := Periods(lib, rs);
    var periods: seq<Period> := [];
    var start := 0;
    while start + WindowMonths + StepMonths <= |rs|
      invariant start == StepMonths * |periods|
      invariant |periods| <= |all| && periods == all[..|periods|]
      decreases |rs| - start
    {
      var period := ScoreWindow(lib, rs, start);
      PrefixGrows(all, |periods|);
      periods := periods + [period];
      start := start + StepMonths;
    }
    assert periods == all;
    result := Some(WalkForwardResult(|periods|, Mean(Degradations(periods)), Fraction(PositiveTests(periods)), periods));
  }

  // ---------------------------------------------------------------------------------
  // Holdout

  /** `int(len * 0.8)`: the first four fifths are in sample. */
  function HoldoutSplit(n: nat): (split: nat)
    ensures split <= n
    ensures 5 * split <= 4 * n < 5 * split + 5
  {
    (4 * n) / 5
  }

  datatype HoldoutResult = HoldoutResult(
    trainMonths: nat, testMonths: nat,
    trainSharpe: real, testSharpe: real, sharpeDegradation: real,
    trainCagr: real, testCagr: real, cagrDegradation: real,
    testPValue: real, testSignificant: bool, isRobust: bool)

  /**
   * `holdout_validation`: `calc_metrics` on both parts and the t-test of the out-of-sample
   * months.  The script reads the metrics of both parts, so it needs a month in each.
   */
  function Holdout(lib: Lib, rs: seq<real>): (h: HoldoutResult)
    requires |rs| >= 2
    ensures h.trainMonths == HoldoutSplit(|rs|) && h.trainMonths + h.testMonths == |rs|
    ensures h.trainMonths > 0 && h.testMonths > 0
    ensures h.trainSharpe == Sharpe(lib, rs[..h.trainMonths]) && h.testSharpe == Sharpe(lib, rs[h.trainMonths..])
    ensures h.sharpeDegradation == Degradation(h.trainSharpe, h.testSharpe)
    ensures h.cagrDegradation == Degradation(h.trainCagr, h.testCagr)
    ensures h.testSignificant <==> h.testPValue < 0.05
    ensures h.isRobust <==> h.sharpeDegradation > -0.5 && h.testSharpe > 0.0
  {
    var split := HoldoutSplit(|rs|);
    var train := RobustMetrics(lib, rs[..split]).value;
    var test := RobustMetrics(lib, rs[split..]).value;
    var sharpeDegradation := Degradation(train.sharpe, test.sharpe);
    var cagrDegradation := Degradation(train.cagr, test.cagr);
    var p := lib.tTestPValue(rs[split..]);
    HoldoutResult(split, |rs| - split, train.sharpe, test.sharpe, sharpeDegradation,
                  train.cagr, test.cagr, cagrDegradation, p, p < 0.05,
                  sharpeDegradation > -0.5 && test.sharpe > 0.0)
  }

  /** The two parts are the whole series, in order, cut at the split. */
  lemma HoldoutPartitions(lib: Lib, rs: seq<real>)
    requires |rs| >= 2
    ensures rs[..Holdout(lib, rs).trainMonths] + rs[Holdout(lib, rs).trainMonths..] == rs
    ensures Holdout(lib, rs).testMonths >= |rs| / 5
  {
    CutJoins(rs, Holdout(lib, rs).trainMonths);
    TestShareAtLeastFifth(|rs|);
  }

  lemma CutJoins<T>(xs: seq<T>, k: nat)
    requires k <= |xs|
    ensures xs[..k] + xs[k..] == xs
  {
  }

  lemma TestShareAtLeastFifth(n: nat)
    ensures n - HoldoutSplit(n) >= n / 5
  {
    var q := n / 5;
    assert 5 * q <= n;
    assert 5 * (n - HoldoutSplit(n)) >= n;
  }

  /**
   * An out-of-sample Sharpe that is positive and at least the in-sample one always counts
   * as robust; a non-positive out-of-sample Sharpe never does.
   */
  lemma HoldoutRobustness(lib: Lib, rs: seq<real>)
    requires |rs| >= 2
    ensures var h := Holdout(lib, rs);
            h.testSharpe > 0.0 && h.testSharpe >= h.trainSharpe ==> h.isRobust
    ensures Holdout(lib, rs).testSharpe <= 0.0 ==> !Holdout(lib, rs).isRobust
  {
    var h := Holdout(lib, rs);
    if h.trainSharpe != 0.0 && h.testSharpe >= h.trainSharpe {
      assert h.sharpeDegradation >= 0.0;
    }
  }
}
