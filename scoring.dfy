/**
 * The composite robustness score of the battery's last step: five tests of a strategy's
 * monthly returns against SPY's, one point for each test passed.
 */
module Scoring {
  import opened Numerics
  import opened Strategies
  import opened Resampling
  import opened EffectSize
  import opened MultipleTesting
  import opened Cscv
  import opened Validation
  import opened Adjustments

  /** Fewer monthly returns than this are too few to score. */
  const MinScoringMonths: nat := 60
  const MaxScore: nat := 5

  const EffectThreshold: real := 0.2
  const PboThreshold: real := 0.30
  const ConsistencyThreshold: real := 0.60

  /** The probability of overfitting assumed when the history is too short for the cross-validation. */
  const MissingPbo: real := 0.5

  datatype Interpretation = BenchmarkLabel | InsufficientData | Graded(magnitude: Magnitude)
  datatype PboGrade = NotApplicable | Risk(risk: OverfitRisk)

  datatype Evaluation = Evaluation(
    mcPValue: real, mcSignificant: bool,
    cohensD: Option<real>, interpretation: Interpretation,
    bonferroniSignificant: bool,
    pbo: real, pboRisk: PboGrade,
    wfaConsistency: real, wfaDegradation: real,
    score: nat)

  /** The entry of SPY itself and of a strategy with too short a history: no test run, no point. */
  function Skipped(grade: Interpretation): Evaluation
  {
    Evaluation(1.0, false, Some(0.0), grade, false, 0.0, NotApplicable, 0.0, 0.0, 0)
  }

  /** The five criteria, in the order the points are awarded. */
  function Criteria(e: Evaluation): (c: seq<bool>)
    ensures |c| == MaxScore
  {
    [ e.mcSignificant,
      e.cohensD.Some? && Abs(e.cohensD.value) >= EffectThreshold,
      e.bonferroniSignificant,
      e.pbo < PboThreshold,
      e.wfaConsistency >= ConsistencyThreshold ]
  }

  /** The p-value the permutation test reports for these draws of signs. */
  function PermutationPValue(strategy: seq<real>, benchmark: seq<real>, signs: seq<seq<int>>): real
    requires |signs| > 0
    requires forall i :: 0 <= i < |signs| ==> |signs[i]| == |Excess(strategy, benchmark)| && SignVector(signs[i])
  {
    var excess := Excess(strategy, benchmark);
    assert forall i :: 0 <= i < |signs| ==> |signs[i]| == |excess| && SignVector(signs[i]);
    if |excess| == 0 then 0.0
    else Fraction(AtLeast(SimulatedMeans(excess, signs), Mean(excess)))
  }

  /** The five `score += 1` steps. */
  method Tally(mc: bool, effect: bool, bonferroni: bool, pbo: bool, wfa: bool) returns (score: nat)
    ensures score == CountTrue([mc, effect, bonferroni, pbo, wfa])
    ensures score <= MaxScore
  {
    score := 0;
    if mc {
      score := score + 1;
    }
    if effect {
      score := score + 1;
    }
    if bonferroni {
      score := score + 1;
    }
    if pbo {
      score := score + 1;
    }
    if wfa {
      score := score + 1;
    }
    CountFive(mc, effect, bonferroni, pbo, wfa);
  }

  function Point(b: bool): nat
  {
    if b then 1 else 0
  }

  lemma CountFive(a: bool, b: bool, c: bool, d: bool, e: bool)
    ensures CountTrue([a, b, c, d, e]) == Point(a) + Point(b) + Point(c) + Point(d) + Point(e)
  {
    CountTrueAppend([], a);
    assert [] + [a] == [a];
    CountTrueAppend([a], b);
    assert [a] + [b] == [a, b];
    CountTrueAppend([a, b], c);
    assert [a, b] + [c] == [a, b, c];
    CountTrueAppend([a, b, c], d);
    assert [a, b, c] + [d] == [a, b, c, d];
    CountTrueAppend([a, b, c, d], e);
    assert [a, b, c, d] + [e] == [a, b, c, d, e];
  }

  /** The first n months of a series. */
  function Head(rs: seq<real>, n: nat): seq<real>
    requires n <= |rs|
  {
    rs[..n]
  }

  /**
   * What the five tests report on the common months of a strategy and SPY: the
   * permutation test, the effect size, the test at a Bonferroni level of 0.05/13, the
   * overfitting probability of the cross-validation on 16 blocks (0.5 and a moderate grade
   * when it cannot run) and the walk-forward consistency and degradation (0 when it
   * cannot run).
   */
  predicate Assessed(lib: Lib, strategy: seq<real>, benchmark: seq<real>, signs: seq<seq<int>>, e: Evaluation)
    requires |signs| > 0
    requires forall i :: 0 <= i < |signs| ==> |signs[i]| == |Excess(strategy, benchmark)| && SignVector(signs[i])
  {
    var excess := Excess(strategy, benchmark);
    && e.mcPValue == PermutationPValue(strategy, benchmark, signs)
    && (e.mcSignificant <==> e.mcPValue < 0.05)
    && e.cohensD == CohensD(lib, strategy, benchmark)
    && e.interpretation == Graded(InterpretCohensD(e.cohensD))
    && (e.bonferroniSignificant <==> e.mcPValue < ScoringBonferroniAlpha)
    && (if |excess| / DefaultBlocks < 2 then e.pbo == MissingPbo && e.pboRisk == Risk(ModerateRisk)
        else e.pbo == CscvOutcome(lib, excess, DefaultBlocks).pbo && e.pboRisk == Risk(InterpretPbo(e.pbo)))
    && (if |strategy| < WindowMonths + StepMonths then e.wfaConsistency == 0.0 && e.wfaDegradation == 0.0
        else && e.wfaConsistency == Fraction(PositiveTests(Periods(lib, strategy)))
             && e.wfaDegradation == Mean(Degradations(Periods(lib, strategy))))
  }

  /** The five tests, then the five `score += 1` steps. */
  method AssessCommon(lib: Lib, strategy: seq<real>, benchmark: seq<real>, signs: seq<seq<int>>) returns (e: Evaluation)
    requires |signs| > 0
    requires forall i :: 0 <= i < |signs| ==> |signs[i]| == |Excess(strategy, benchmark)| && SignVector(signs[i])
    ensures Assessed(lib, strategy, benchmark, signs, e)
    ensures e.score == CountTrue(Criteria(e))
  {
    var mc := PermutationTest(strategy, benchmark, signs);
    var d := CohensD(lib, strategy, benchmark);
    var interpretation := InterpretCohensD(d);
    var bonferroniSignificant := mc.pValue < ScoringBonferroniAlpha;
    var pboResult := CscvPbo(lib, strategy, benchmark, DefaultBlocks);
    var pbo, pboRisk;
    if pboResult.Some? {
      pbo := pboResult.value.pbo;
      pboRisk := Risk(InterpretPbo(pbo));
    } else {
      pbo := MissingPbo;
      pboRisk := Risk(ModerateRisk);
    }
    var wfa := WalkForward(lib, strategy);
    var consistency, degradation;
    if wfa.Some? {
      consistency := wfa.value.consistency;
      degradation := wfa.value.avgDegradation;
    } else {
      consistency := 0.0;
      degradation := 0.0;
    }
    var score := Tally(mc.significant005, d.Some? && Abs(d.value) >= EffectThreshold, bonferroniSignificant,
                       pbo < PboThreshold, consistency >= ConsistencyThreshold);
    e := Evaluation(mc.pValue, mc.significant005, d, Graded(interpretation), bonferroniSignificant,
                    pbo, pboRisk, consistency, degradation, score);
  }

  /**
   * One strategy's entry of the composite evaluation.  SPY is the benchmark and is not
   * scored; a strategy whose cumulative series gives fewer than 60 monthly returns is not
   * scored either; otherwise both series are cut to their common length and assessed.
   */
  method Evaluate(lib: Lib, v: Variant, cumulative: seq<real>, spyMonthly: seq<real>, signs: seq<seq<int>>)
    returns (e: Evaluation)
    requires |signs| > 0
    requires forall i :: 0 <= i < |signs| ==>
               |signs[i]| == (if |cumulative| <= |spyMonthly| then |cumulative| else |spyMonthly|)
               && SignVector(signs[i])
    ensures e.score <= MaxScore
    ensures v == Spy ==> e == Skipped(BenchmarkLabel)
    ensures v != Spy && |cumulative| < MinScoringMonths ==> e == Skipped(InsufficientData)
    ensures v != Spy && |cumulative| >= MinScoringMonths ==>
              var n := if |cumulative| <= |spyMonthly| then |cumulative| else |spyMonthly|;
              var strategy := Head(MonthsFromCumulative(cumulative), n);
              var benchmark := Head(spyMonthly, n);
              Assessed(lib, strategy, benchmark, signs, e) && e.score == CountTrue(Criteria(e))
  {
    if v == Spy {
      return Skipped(BenchmarkLabel);
    }
    var monthly := MonthlyFromCumulative(cumulative);
    assert monthly == MonthsFromCumulative(cumulative);
    if |monthly| == 0 || |monthly| < MinScoringMonths {
      return Skipped(InsufficientData);
    }
    var n := if |monthly| <= |spyMonthly| then |monthly| else |spyMonthly|;
    var strategy := monthly[..n];
    var benchmark := spyMonthly[..n];
    e := AssessCommon(lib, strategy, benchmark, signs);
  }

  /**
   * A strategy whose returns match SPY's month for month passes neither the permutation
   * test, nor the effect-size test, nor the Bonferroni test: it can earn at most the two
   * points of the overfitting and walk-forward tests.
   */
  lemma BenchmarkTwinScoresAtMostTwo(lib: Lib, rs: seq<real>, signs: seq<seq<int>>, e: Evaluation)
    requires |rs| >= 2 && |signs| > 0
    requires forall i :: 0 <= i < |signs| ==> |signs[i]| == |rs| && SignVector(signs[i])
    requires Assessed(lib, rs, rs, signs, e)
    ensures e.mcPValue == 1.0
    ensures CountTrue(Criteria(e)) <= 2
  {
    TwinPValue(rs, signs);
    TwinEffect(lib, rs);
    var c := Criteria(e);
    CountFive(c[0], c[1], c[2], c[3], c[4]);
    assert c == [c[0], c[1], c[2], c[3], c[4]];
  }

  lemma TwinPValue(rs: seq<real>, signs: seq<seq<int>>)
    requires |rs| > 0 && |signs| > 0
    requires forall i :: 0 <= i < |signs| ==> |signs[i]| == |rs| && SignVector(signs[i])
    ensures PermutationPValue(rs, rs, signs) == 1.0
  {
    IdenticalSeriesNeverSignificant(rs, signs);
  }

  lemma TwinEffect(lib: Lib, rs: seq<real>)
    requires |rs| >= 2
    ensures CohensD(lib, rs, rs) == Some(0.0)
  {
    assert Mean(rs) - Mean(rs) == 0.0;
  }
}
