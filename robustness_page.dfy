/**
 * The robustness page's overall evaluation: for each strategy, one point per passed test
 * among the ten whose results the page loads, a record of which tests were passed, and
 * the strategies listed from the highest score down.  Each test's per-strategy entry is
 * reduced to the one field the tally reads.
 */
module RobustnessPage {
  import opened Numerics
  import opened Sorting
  import opened Strategies

  /** One test's results: absent altogether, or keyed by strategy name. */
  type TestResults<V> = Option<map<string, V>>

  datatype RobustnessTests = RobustnessTests(
    monteCarlo: TestResults<bool>,        // significant_005
    cohensD: TestResults<real>,           // value
    bonferroni: TestResults<bool>,        // significant
    fdr: TestResults<bool>,               // fdr_significant
    bootstrap: TestResults<real>,         // prob_sharpe_gt_1
    dsrPsr: TestResults<real>,            // dsr
    pbo: TestResults<real>,               // pbo
    wfa: TestResults<real>,               // consistency
    oos: TestResults<bool>,               // is_robust
    regimeChange: TestResults<bool>)      // regime_changed

  /** `tests.testN?.[strategy]`. */
  function Lookup<V>(results: TestResults<V>, strategy: string): (entry: Option<V>)
    ensures entry.Some? <==> results.Some? && strategy in results.value
  {
    if results.Some? && strategy in results.value then Some(results.value[strategy]) else None
  }

  const MaxRobustnessScore: nat := 10

  /** The `details` keys, in the order the tests are tallied. */
  const TestKeys: seq<string> := ["monte_carlo", "cohens_d", "bonferroni", "fdr", "bootstrap",
                                  "dsr_psr", "pbo", "wfa", "oos", "regime_change"]

  function Verdict<V>(entry: Option<V>, passes: V -> bool): (v: Option<bool>)
    ensures v.Some? <==> entry.Some?
    ensures v.Some? ==> v.value == passes(entry.value)
  {
    if entry.Some? then Some(passes(entry.value)) else None
  }

  /**
   * Each test's verdict for the strategy, `None` when its result is missing: significance
   * of the permutation, Bonferroni and FDR tests, |d| >= 0.2, P(Sharpe > 1) >= 0.5,
   * DSR >= 0.95, PBO < 0.5, walk-forward consistency >= 0.6, a robust holdout, and no
   * change of regime.
   */
  function Verdicts(strategy: string, tests: RobustnessTests): (v: seq<Option<bool>>)
    ensures |v| == |TestKeys|
  {
    [ Lookup(tests.monteCarlo, strategy),
      Verdict(Lookup(tests.cohensD, strategy), d => Abs(d) >= 0.2),
      Lookup(tests.bonferroni, strategy),
      Lookup(tests.fdr, strategy),
      Verdict(Lookup(tests.bootstrap, strategy), p => p >= 0.5),
      Verdict(Lookup(tests.dsrPsr, strategy), dsr => dsr >= 0.95),
      Verdict(Lookup(tests.pbo, strategy), pbo => pbo < 0.5),
      Verdict(Lookup(tests.wfa, strategy), c => c >= 0.6),
      Lookup(tests.oos, strategy),
      Verdict(Lookup(tests.regimeChange, strategy), changed => !changed) ]
  }

  /** Which tests passed. */
  function Passes(verdicts: seq<Option<bool>>): (p: seq<bool>)
    ensures |p| == |verdicts|
    ensures forall i :: 0 <= i < |verdicts| ==> (p[i] <==> verdicts[i] == Some(true))
  {
    seq(|verdicts|, i requires 0 <= i < |verdicts| => verdicts[i] == Some(true))
  }

  /** Whether a test's results hold an entry for the strategy. */
  predicate Has<V>(results: TestResults<V>, strategy: string)
  {
    results.Some? && strategy in results.value
  }

  /**
   * The pass condition of each test, read off the raw results: a test passes only when
   * its results hold an entry for the strategy and that entry meets the test's threshold.
   */
  lemma PassThresholds(strategy: string, tests: RobustnessTests)
    ensures var p := Passes(Verdicts(strategy, tests));
      && (p[0] <==> Has(tests.monteCarlo, strategy) && tests.monteCarlo.value[strategy])
      && (p[1] <==> Has(tests.cohensD, strategy) && Abs(tests.cohensD.value[strategy]) >= 0.2)
      && (p[2] <==> Has(tests.bonferroni, strategy) && tests.bonferroni.value[strategy])
      && (p[3] <==> Has(tests.fdr, strategy) && tests.fdr.value[strategy])
      && (p[4] <==> Has(tests.bootstrap, strategy) && tests.bootstrap.value[strategy] >= 0.5)
      && (p[5] <==> Has(tests.dsrPsr, strategy) && tests.dsrPsr.value[strategy] >= 0.95)
      && (p[6] <==> Has(tests.pbo, strategy) && tests.pbo.value[strategy] < 0.5)
      && (p[7] <==> Has(tests.wfa, strategy) && tests.wfa.value[strategy] >= 0.6)
      && (p[8] <==> Has(tests.oos, strategy) && tests.oos.value[strategy])
      && (p[9] <==> Has(tests.regimeChange, strategy) && !tests.regimeChange.value[strategy])
  {
  }

  /** The `details` record after the first k tests. */
  function DetailsAfter(verdicts: seq<Option<bool>>, k: nat): map<string, bool>
    requires k <= |verdicts| == |TestKeys|
  {
    if k == 0 then map[]
    else
      var before := DetailsAfter(verdicts, k - 1);
      if verdicts[k - 1].Some? then before[TestKeys[k - 1] := verdicts[k - 1].value] else before
  }

  /** The keys with a passing verdict. */
  function Passed(details: map<string, bool>): set<string>
  {
    set key | key in details && details[key]
  }

  lemma KeysDistinct()
    ensures forall i, j :: 0 <= i < j < |TestKeys| ==> TestKeys[i] != TestKeys[j]
  {
    forall i, j | 0 <= i < j < |TestKeys|
      ensures TestKeys[i] != TestKeys[j]
    {
      assert TestKeys[i][..2] != TestKeys[j][..2] || |TestKeys[i]| != |TestKeys[j]| || TestKeys[i][2] != TestKeys[j][2];
    }
  }

  /**
   * After k tests, `details` holds exactly the tallied tests whose results were present,
   * each with its verdict.
   */
  lemma DetailsAfterEntries(verdicts: seq<Option<bool>>, k: nat)
    requires k <= |verdicts| == |TestKeys|
    ensures forall j :: 0 <= j < k ==>
              (TestKeys[j] in DetailsAfter(verdicts, k) <==> verdicts[j].Some?)
              && (verdicts[j].Some? ==> DetailsAfter(verdicts, k)[TestKeys[j]] == verdicts[j].value)
    ensures forall key :: key in DetailsAfter(verdicts, k) ==> key in TestKeys[..k]
  {
    DetailsAfterKeys(verdicts, k);
    DetailsAfterValues(verdicts, k);
  }

  /** After k tests, only the first k keys can be recorded. */
  lemma {:induction false} DetailsAfterKeys(verdicts: seq<Option<bool>>, k: nat)
    requires k <= |verdicts| == |TestKeys|
    ensures forall key :: key in DetailsAfter(verdicts, k) ==> key in TestKeys[..k]
    decreases k
  {
    if k > 0 {
      DetailsAfterKeys(verdicts, k - 1);
      assert forall key :: key in TestKeys[..k - 1] ==> key in TestKeys[..k];
    }
  }

  /** After k tests, each of the first k keys is recorded, with its verdict, when its result was present. */
  lemma {:induction false} DetailsAfterValues(verdicts: seq<Option<bool>>, k: nat)
    requires k <= |verdicts| == |TestKeys|
    ensures forall j :: 0 <= j < k ==>
              (TestKeys[j] in DetailsAfter(verdicts, k) <==> verdicts[j].Some?)
              && (verdicts[j].Some? ==> DetailsAfter(verdicts, k)[TestKeys[j]] == verdicts[j].value)
    decreases k
  {
    if k > 0 {
      DetailsAfterValues(verdicts, k - 1);
      KeyNotYetRecorded(verdicts, k - 1);
      KeysDistinct();
      var before, after := DetailsAfter(verdicts, k - 1), DetailsAfter(verdicts, k);
      forall j | 0 <= j < k
        ensures TestKeys[j] in after <==> verdicts[j].Some?
        ensures verdicts[j].Some? ==> after[TestKeys[j]] == verdicts[j].value
      {
        if j < k - 1 {
          assert TestKeys[j] != TestKeys[k - 1];
          assert TestKeys[j] in after <==> TestKeys[j] in before;
          if verdicts[j].Some? {
            assert after[TestKeys[j]] == before[TestKeys[j]];
          }
        }
      }
    }
  }

  /** After k tests, the passed keys are as many as the passing verdicts so far. */
  lemma {:induction false} DetailsAfterPassed(verdicts: seq<Option<bool>>, k: nat)
    requires k <= |verdicts| == |TestKeys|
    ensures |Passed(DetailsAfter(verdicts, k))| == CountTrue(Passes(verdicts)[..k])
    decreases k
  {
    if k > 0 {
      var before := DetailsAfter(verdicts, k - 1);
      var key := TestKeys[k - 1];
      DetailsAfterPassed(verdicts, k - 1);
      KeyNotYetRecorded(verdicts, k - 1);
      PrefixGrows(Passes(verdicts), k - 1);
      CountTrueAppend(Passes(verdicts)[..k - 1], Passes(verdicts)[k - 1]);
      if verdicts[k - 1].Some? {
        var b := verdicts[k - 1].value;
        assert Passed(before[key := b]) == Passed(before) + (if b then {key} else {});
      }
    }
  }

  lemma KeyNotYetRecorded(verdicts: seq<Option<bool>>, k: nat)
    requires k < |verdicts| == |TestKeys|
    ensures TestKeys[k] !in DetailsAfter(verdicts, k)
  {
    DetailsAfterKeys(verdicts, k);
    KeysDistinct();
  }

  /** One test's block: record its verdict when its result is present, and score a pass. */
  method Tally(verdicts: seq<Option<bool>>, k: nat, details: map<string, bool>, score: nat)
    returns (details': map<string, bool>, score': nat)
    requires k < |verdicts| == |TestKeys|
    requires details == DetailsAfter(verdicts, k) && score == CountTrue(Passes(verdicts)[..k])
    ensures details' == DetailsAfter(verdicts, k + 1) && score' == CountTrue(Passes(verdicts)[..k + 1])
  {
    details', score' := details, score;
    PrefixGrows(Passes(verdicts), k);
    CountTrueAppend(Passes(verdicts)[..k], Passes(verdicts)[k]);
    var verdict := verdicts[k];
    if verdict.Some? {
      details' := details'[TestKeys[k] := verdict.value];
      if verdict.value {
        score' := score' + 1;
      }
    }
  }

  /**
   * `calculateRobustnessScore`: the score is the number of tests passed, which is the
   * number of `details` entries that are true; a test without a result for the strategy
   * leaves no entry and adds no point.
   */
  method RobustnessScore(strategy: string, tests: RobustnessTests)
    returns (score: nat, maxScore: nat, details: map<string, bool>)
    ensures maxScore == MaxRobustnessScore
    ensures score == CountTrue(Passes(Verdicts(strategy, tests)))
    ensures score == |Passed(details)| && score <= maxScore
    ensures forall key :: key in details ==> key in TestKeys
    ensures forall j :: 0 <= j < |TestKeys| ==>
              (TestKeys[j] in details <==> Verdicts(strategy, tests)[j].Some?)
              && (TestKeys[j] in details ==> details[TestKeys[j]] == Verdicts(strategy, tests)[j].value)
  {
    var verdicts := Verdicts(strategy, tests);
    maxScore := MaxRobustnessScore;
    details, score := TallyAll(verdicts);
  }

  /** The ten test blocks in turn, from an empty record and a score of 0. */
  method TallyAll(verdicts: seq<Option<bool>>) returns (details: map<string, bool>, score: nat)
    requires |verdicts| == |TestKeys|
    ensures score == CountTrue(Passes(verdicts))
    ensures score == |Passed(details)| && score <= MaxRobustnessScore
    ensures forall key :: key in details ==> key in TestKeys
    ensures forall j :: 0 <= j < |TestKeys| ==>
              (TestKeys[j] in details <==> verdicts[j].Some?)
              && (TestKeys[j] in details ==> details[TestKeys[j]] == verdicts[j].value)
  {
    details, score := map[], 0;
    details, score := Tally(verdicts, 0, details, score);
    details, score := Tally(verdicts, 1, details, score);
    details, score := Tally(verdicts, 2, details, score);
    details, score := Tally(verdicts, 3, details, score);
    details, score := Tally(verdicts, 4, details, score);
    details, score := Tally(verdicts, 5, details, score);
    details, score := Tally(verdicts, 6, details, score);
    details, score := Tally(verdicts, 7, details, score);
    details, score := Tally(verdicts, 8, details, score);
    details, score := Tally(verdicts, 9, details, score);
    DetailsComplete(verdicts, details, score);
  }

  /** The record after all ten tests. */
  lemma DetailsComplete(verdicts: seq<Option<bool>>, details: map<string, bool>, score: nat)
    requires |verdicts| == |TestKeys|
    requires details == DetailsAfter(verdicts, 10) && score == CountTrue(Passes(verdicts)[..10])
    ensures score == CountTrue(Passes(verdicts))
    ensures score == |Passed(details)| && score <= MaxRobustnessScore
    ensures forall key :: key in details ==> key in TestKeys
    ensures forall j :: 0 <= j < |TestKeys| ==>
              (TestKeys[j] in details <==> verdicts[j].Some?)
              && (TestKeys[j] in details ==> details[TestKeys[j]] == verdicts[j].value)
  {
    DetailsAfterEntries(verdicts, 10);
    DetailsAfterPassed(verdicts, 10);
    assert Passes(verdicts)[..10] == Passes(verdicts);
    assert TestKeys[..10] == TestKeys;
  }

  // ---------------------------------------------------------------------------------
  // The ranking

  /** The page's own strategy list. */
  const PageStrategies: seq<Variant> := [
    D2, D3, D2VolScale, D3VolScale, Def3, Def5, Def3VolScale, Def5VolScale,
    D2Hybrid, D3Hybrid, D2HybridVolScale, D3HybridVolScale, Spy]

  datatype StrategyEvaluation = StrategyEvaluation(strategy: string, score: nat, maxScore: nat, details: map<string, bool>)

  function ScoreKey(e: StrategyEvaluation): real
  {
    e.score as real
  }

  /** A strategy's evaluation, as `calculateRobustnessScore` reports it. */
  function EvaluationOf(strategy: string, tests: RobustnessTests): StrategyEvaluation
  {
    var verdicts := Verdicts(strategy, tests);
    StrategyEvaluation(strategy, CountTrue(Passes(verdicts)), MaxRobustnessScore, DetailsAfter(verdicts, |TestKeys|))
  }

  method EvaluateOne(strategy: string, tests: RobustnessTests) returns (e: StrategyEvaluation)
    ensures e == EvaluationOf(strategy, tests)
  {
    var score, maxScore, details := RobustnessScore(strategy, tests);
    ghost var verdicts := Verdicts(strategy, tests);
    DetailsAfterEntries(verdicts, |TestKeys|);
    assert TestKeys[..|TestKeys|] == TestKeys;
    assert details == DetailsAfter(verdicts, |TestKeys|) by {
      forall key | key in details
        ensures key in DetailsAfter(verdicts, |TestKeys|) && details[key] == DetailsAfter(verdicts, |TestKeys|)[key]
      {
        var j :| 0 <= j < |TestKeys| && TestKeys[j] == key;
      }
      forall key | key in DetailsAfter(verdicts, |TestKeys|)
        ensures key in details
      {
        var j :| 0 <= j < |TestKeys| && TestKeys[j] == key;
      }
    }
    e := StrategyEvaluation(strategy, score, maxScore, details);
  }

  /**
   * `StrategyEvaluationSection`: every strategy of the page evaluated, then sorted by
   * descending score (stable, so equal scores keep the page's order).
   */
  method RankedEvaluations(tests: RobustnessTests) returns (ranked: seq<StrategyEvaluation>)
    ensures ranked == SortDesc(seq(|PageStrategies|, i requires 0 <= i < |PageStrategies| =>
                                 EvaluationOf(Name(PageStrategies[i]), tests)), ScoreKey)
    ensures NonIncreasing(ranked, ScoreKey)
    ensures multiset(ranked) == multiset(seq(|PageStrategies|, i requires 0 <= i < |PageStrategies| =>
                                               EvaluationOf(Name(PageStrategies[i]), tests)))
  {
    ghost var all := seq(|PageStrategies|, i requires 0 <= i < |PageStrategies| =>
                           EvaluationOf(Name(PageStrategies[i]), tests));
    var evaluations: seq<StrategyEvaluation> := [];
    for i := 0 to |PageStrategies|
      invariant evaluations == all[..i]
    {
      var e := EvaluateOne(Name(PageStrategies[i]), tests);
      PrefixGrows(all, i);
      evaluations := evaluations + [e];
    }
    assert evaluations == all;
    ranked := SortDesc(evaluations, ScoreKey);
    SortDescCorrect(evaluations, ScoreKey);
  }
}
