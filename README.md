# holystat momentum strategies and robustness battery, in Dafny

This project models the computational core of holystat, a dashboard of thirteen monthly
momentum strategies and the statistical tests that check how robust they are.

- **The GRAIL engine** (`client/public/docs/grail.py`). Once a month it scores each universe
  by 126-day momentum and keeps the top names. Those names are weighted by inverse volatility,
  with one pass of a 40% cap and renormalisation. The universes are the S&P 100 and S&P 500
  stocks (D2, D3) and a list of defensive ETFs (TOP5, TOP3).
  - Each of the thirteen variants earns that month's weighted price return, net of a 0.2%
    cost on turnover.
  - The hybrids hold the attack picks in a bull regime (SPY at or above its 200-day average)
    and the TOP3 defensive picks otherwise.
  - The VolScale variants scale exposure towards a target volatility, clipped to [0.5, 1.5].
  - SPY is the benchmark.
  - The engine keeps the monthly results, the regime log and yearly compounding, then
    summarises each variant: cumulative return, CAGR, drawdown, Sharpe, Sortino, Calmar
    and cost.
- **The robustness engine** (`client/public/docs/robust.py`). It re-runs the same
  strategies with its own loop. The start can be shifted, and D2/D3 VolScale aim at 1.36× the
  target. Its signal, selection and accounting functions (lines 128-316) repeat grail.py's,
  so the model shares one definition of each.
- **The robustness battery**, run on the robustness engine's results:
  - tail risk, and a block bootstrap;
  - a sign-flip permutation test and Cohen's d;
  - Bonferroni and Benjamini–Hochberg corrections;
  - combinatorially symmetric cross-validation (probability of backtest overfitting);
  - walk-forward analysis and a hold-out test;
  - survivorship and funding adjustments;
  - the five-point composite score.
- **The web page** (`client/src/components/RobustnessPageNew.tsx`). It gives each strategy
  one point per passed test, out of ten, and lists the strategies from the highest score down.
- **The dashboard's yearly chart** (`client/src/data/integratedData.ts`). It compounds each
  strategy's calendar-year returns from 100.

How the model is built:

- **Two engines.** `GrailEngine.GrailBacktest` and `RobustEngine.RobustBacktest` are classes.
  Their fields (per-variant results, previous weights, the month and regime logs, yearly
  growth) are updated month by month, as the scripts' dictionaries are.
  - The month's work is done by heap-free methods over maps. Each of these is proved against
    ghost functions that state one variant's step.
  - A class invariant records the shape of each variant's results, and that every VolScale
    variant stays in step with its unscaled twin: the same months, the same turnover, and its
    return equal to the twin's times its factor.
- **Analyses.** The loops of the analyses (rolling windows, drawdown spells, losing streaks,
  bootstrap draws, the split loop, walk-forward windows, the step-up adjustment, the tallies)
  are methods proved equal to specification functions. Lemmas then state what those functions
  promise.
- **Injected values.** Library numerics (square root, median, the t-test's p-value) are
  parameters of type `Numerics.Lib`. The random draws (bootstrap block starts, permutation sign
  vectors) are given to the methods as sequences. Prices are a map from symbol to a sequence of
  optional closes, where a missing close stands for NaN.

Where the code and the repository's own description of it differ, the model follows the code:

- Testing a strategy against itself, the permutation test gives p = 1 (every simulated mean,
  0, is at or above the observed 0), not about one half.
- The single cap pass can leave a weight above the 40% cap (`Selection.SingleCapPassCanExceedCap`).
- The Bonferroni table uses 0.05/12. The composite score uses 0.05/13.
- `grail.py` logs the month and its regime before it skips a month with an empty selection.
- A permutation test over an empty common history reports p = 0 with both significance flags
  set (numpy's NaN comparisons are false).
- The hold-out split `int(len × 0.8)` is modelled as ⌊4·len/5⌋.

## Model

| member | source | states |
|---|---|---|
| Signals.Momentum | client/public/docs/grail.py:180-189 | momentum is defined exactly when the symbol has prices, idx ≥ period, both closes are numbers and the past close is positive |
| Signals.MomentumIsPriceRelative | client/public/docs/grail.py:185-189 | a defined momentum m is the price relative: past close × (1 + m) = current close |
| Signals.DailyReturns | client/public/docs/grail.py:219-220 | the NaN-filtered day-over-day returns of a window: at most one per consecutive pair of closes, none for fewer than two closes |
| Signals.DailyReturnsComplete | client/public/docs/grail.py:219-220 | when every close of the window is present and non-zero, no return is dropped (n closes give n − 1 returns) |
| Signals.HorizonReturns | client/public/docs/grail.py:218-220 | a horizon of `period` days yields at most `period` returns |
| Signals.HorizonVol | client/public/docs/grail.py:217-232 | a horizon volatility, when it qualifies (enough history and at least 10 or 20 returns), is non-negative |
| Signals.Annualised | client/public/docs/grail.py:221 | the std × √252 scaling is non-negative and positive exactly when the daily std is |
| Signals.SymbolVolatility | client/public/docs/grail.py:212-245 | the estimate is never below the 5% floor; an unknown symbol gets exactly 5%; with both horizons qualifying it is max(0.7 × short + 0.3 × long, 5%), lying between the two values (or at the floor); with one horizon it is that horizon's value floored at 5%; with neither it is the 20% default |
| Signals.BlendLeansShort | client/public/docs/grail.py:234-236 | above the floor the blended estimate lies between the two horizon values and at least as close to the 21-day value as to the 60-day one |
| Signals.LookbackReturns | client/public/docs/grail.py:373-378 | a holding qualifies for the VolScale estimate only with all 21 returns defined, and then has exactly 21 |
| Signals.Holdings | client/public/docs/grail.py:369-380 | at most one holding per selected symbol, each carrying 21 daily returns |
| Signals.VolOfHoldings | client/public/docs/grail.py:382-392 | the realized portfolio volatility is the 15% fallback or at least the 5% floor |
| Signals.PortfolioVol | client/public/docs/grail.py:363-392 | 15% when idx < 21 or no selected symbol qualifies; otherwise 15% or at least 5% |
| Signals.PortfolioVolatility | client/public/docs/grail.py:363-392 | the symbol-by-symbol collection loop computes exactly PortfolioVol |
| Signals.ScaleFor | client/public/docs/grail.py:420-421 | the exposure factor always lies in [0.5, 1.5] and is 1 when realized volatility is not positive |
| Signals.ScaleForHitsTarget | client/public/docs/grail.py:414-421 | inside the clip band factor × realized volatility equals the target; above it the factor is 1.5, below it 0.5 |
| Signals.VolScaleFactor | client/public/docs/grail.py:417-423 | returns the realized portfolio volatility and the clipped factor derived from it, which lies in [0.5, 1.5] |
| Signals.IsBull | client/public/docs/grail.py:502-510 | Bull before day 200 or when the SPY close or its 200-day mean is NaN; otherwise Bull exactly when close ≥ 0.95 × MA200 |
| Signals.NoSpyMeansBull | client/public/docs/grail.py:149 | with no SPY column (an all-NaN series) every day is Bull |
| Selection.Candidates | client/public/docs/grail.py:269-273 | every scored entry is a universe member whose momentum is defined and equals the recorded score |
| Selection.CandidatesComplete | client/public/docs/grail.py:269-273 | every universe member with a defined momentum is scored |
| Selection.CandidatesDistinct | client/public/docs/grail.py:269-273 | a universe without repeats gives scored symbols without repeats |
| Selection.ScoreUniverse | client/public/docs/grail.py:269-273 | the append loop builds exactly the candidate list |
| Selection.SelectionEmptyIff | client/public/docs/grail.py:275-276 | the selection is empty exactly when fewer than top_n members have a defined momentum (or top_n is 0) |
| Selection.SelectedAreRankedPrefix | client/public/docs/grail.py:278-279 | a non-empty selection is the first top_n symbols of the candidates sorted by momentum, descending and stable |
| Selection.SelectionMembers | client/public/docs/grail.py:278-279 | a non-empty selection has exactly top_n universe members, each with the momentum of its rank |
| Selection.LeftOutRanksLower | client/public/docs/grail.py:278-279 | every universe member left out has momentum no higher than any selected rank |
| Selection.SelectionIsTopN | client/public/docs/grail.py:269-279 | a non-empty selection is exactly top_n symbols with defined momentum, in non-increasing momentum order, and no left-out member beats any selected one |
| Selection.SelectionDistinct | client/public/docs/grail.py:279 | a universe without repeats gives a selection without repeats |
| Selection.InvVol | client/public/docs/grail.py:284-285 | each inverse volatility is positive |
| Selection.InverseVols | client/public/docs/grail.py:282-285 | one positive inverse volatility per selected symbol, in order |
| Selection.InverseVolatilities | client/public/docs/grail.py:282-285 | the append loop builds exactly InverseVols |
| Selection.CappedShares | client/public/docs/grail.py:287-288 | each capped share is min(share of the inverse-vol total, 0.40) and positive |
| Selection.WeightDict | client/public/docs/grail.py:287-292 | the dictionary comprehensions give the capped-then-renormalised weights keyed by the selected symbols |
| Selection.Select | client/public/docs/grail.py:248-341 | `select_attack_stocks` / `select_defense_etfs` return the top-N selection and its weights |
| Selection.SelectionWeightsKeys | client/public/docs/grail.py:288-292 | the weights are keyed exactly by the selected symbols |
| Selection.CapThenRenormaliseIsAllocation | client/public/docs/grail.py:287-292 | after the cap and renormalisation every weight is positive and the weights sum to 1 |
| Selection.CapThenRenormaliseMonotone | client/public/docs/grail.py:287-292 | a lower-volatility symbol never gets a smaller weight |
| Selection.UncappedIsProportional | client/public/docs/grail.py:287-292 | when no inverse-vol share exceeds 0.40 the weights are the plain inverse-vol shares |
| Selection.UncappedSharesSumToOne | client/public/docs/grail.py:287-288 | when no share is capped the capped shares already sum to 1 |
| Selection.WeightsAreAllocation | client/public/docs/grail.py:281-292 | for a selection without repeats the weights are keyed by the selection, positive and sum to 1 |
| Selection.UncappedWeightsAreInverseVolShares | client/public/docs/grail.py:281-292 | with no share above 0.40 each selected symbol's weight is its inverse volatility over the total |
| Selection.SingleCapPassCanExceedCap | client/public/docs/grail.py:287-292 | the single cap pass turns shares 0.6/0.2/0.2 into 0.5/0.25/0.25, so a weight can end above 0.40 |
| Accounting.Change | client/public/docs/grail.py:446-448 | each symbol's weight change is non-negative and zero exactly when both weights (missing = 0) agree |
| Accounting.Turnover | client/public/docs/grail.py:443-449 | the loop over the union of keys returns half the sum of absolute weight changes, which is non-negative |
| Accounting.TurnoverOfIdentical | client/public/docs/grail.py:443-449 | identical weights give turnover 0 |
| Accounting.TurnoverSymmetric | client/public/docs/grail.py:443-449 | turnover is symmetric in its two arguments |
| Accounting.TurnoverAtMostHalfTotals | client/public/docs/grail.py:443-449 | for non-negative weights turnover is at most half the sum of the two weight totals |
| Accounting.TurnoverWithinUnit | client/public/docs/grail.py:443-449 | for non-negative weights each summing to at most 1, turnover lies in [0, 1] |
| Accounting.FirstMonthTurnover | client/public/docs/grail.py:443-449 | the first month, against the empty dictionary, trades a fully invested book at turnover exactly 0.5 |
| Accounting.AccumulateGross | client/public/docs/grail.py:476-485 | the loop sums weight × (end/start − 1) over the selected symbols with a valid positive start price |
| Accounting.UniformMoveScalesByWeight | client/public/docs/grail.py:476-485 | if every selected symbol moves by r, the gross return is the weight total times r |
| Accounting.FullyInvestedFollowsUniformMove | client/public/docs/grail.py:476-485 | with weights summing to 1 and every symbol moving by r, the gross return is r |
| Accounting.NothingTradableEarnsNothing | client/public/docs/grail.py:477-483 | when no selected symbol has valid prices the gross return is 0 |
| Accounting.MonthlyReturnWithCost | client/public/docs/grail.py:452-493 | returns the gross return minus cost × turnover, and the turnover against the previous weights |
| Accounting.MonthlyReturnVolScaleWithCost | client/public/docs/grail.py:496-499 | returns the already cost-adjusted return times the scale, and the same turnover |
| Accounting.UnchangedIdleMonthIsFlat | client/public/docs/grail.py:476-493 | unchanged weights with no tradable symbol give a net return of exactly 0 |
| Accounting.CostNeverHelps | client/public/docs/grail.py:488-493 | with a non-negative cost rate the cost never raises the return |
| Strategies.Unscaled | client/public/docs/grail.py:528-541 | maps each VolScale variant to its unscaled twin; it fixes the others and keeps SPY apart |
| Strategies.AllVariantsListed | client/public/docs/grail.py:528-542 | the results dictionary has thirteen distinct variants, each listed |
| Strategies.NamesDistinct | client/public/docs/grail.py:528-542 | different variants have different dictionary keys |
| Strategies.UniverseListsDiffer | client/public/docs/grail.py:119-131 | the D2 universe of the first engine (103 names) differs from the second engine's S&P 100 list (102 names) |
| Strategies.PresentSymbols | client/public/docs/grail.py:135 | the D2 universe keeps exactly the listed symbols that have prices |
| Strategies.AttackSymbols | client/public/docs/grail.py:134 | the D3 universe is exactly the priced symbols that are not defensive ETFs |
| Strategies.RegimeAt | client/public/docs/grail.py:574-575 | the month is labelled Bull exactly when the regime rule says Bull |
| Strategies.Held | client/public/docs/grail.py:631-654 | the D2/D3 hybrids (plain and VolScale) hold the attack selection in a Bull month and the top-three ETFs otherwise |
| Strategies.SpyReturn | client/public/docs/grail.py:657-660 | SPY's return is defined exactly when both closes are numbers and the first is positive |
| GrailEngine.TargetsOfVariants | client/public/docs/grail.py:89-96 | each VolScale variant looks up its own target (19%, 19%, 8%, 8%, 11%, 14%) and an unlisted name falls back to 12% |
| GrailEngine.SpyStep | client/public/docs/grail.py:657-666 | SPY records its buy-and-hold return, or 0 when a close is invalid, with turnover 0 and no weights or scale |
| GrailEngine.PickStep | client/public/docs/grail.py:599-604 | a variant's month records the pick's weights and the turnover against its previous weights; it has a scale exactly when it has a target, and that scale lies in [0.5, 1.5] |
| GrailEngine.ScaledTwin | client/public/docs/grail.py:671-677 | a VolScale variant trades the same turnover and weights as its twin, and its return is the twin's net return times the factor |
| GrailEngine.TargetOf | client/public/docs/grail.py:587-594 | a variant has a volatility target exactly when it is a VolScale variant |
| GrailEngine.GrailStep | client/public/docs/grail.py:599-734 | every variant but SPY ends the month holding its selection's weights; only VolScale variants record a scale; SPY's turnover is 0 |
| GrailEngine.PickMonth | client/public/docs/grail.py:599-603 | one variant's return and turnover computation equals PickStep |
| GrailEngine.VariantStep | client/public/docs/grail.py:599-734 | each variant's branch of the month computes exactly GrailStep |
| GrailEngine.EmptyTrackOk | client/public/docs/grail.py:528-542 | a fresh results entry (no returns, cumulative 1) is consistent with zero months |
| GrailEngine.RecordKeepsTrackOk | client/public/docs/grail.py:600-603 | appending a month keeps all lists equal in length, cumulative equal to ∏(1 + r) and the series equal to the running products |
| GrailEngine.YearlyGrowthIsCompoundOfYear | client/public/docs/grail.py:737-741 | a year's yearly figure exists exactly for years with traded months and is the compounded growth of that year's returns |
| GrailEngine.YearlyGrowthAppend | client/public/docs/grail.py:737-741 | growing the yearly figure by the new month equals recomputing it over the longer history |
| GrailEngine.MonthSteps | client/public/docs/grail.py:599-734 | the month's loop over the thirteen variants produces GrailStep for every variant |
| GrailEngine.RecordAll | client/public/docs/grail.py:600-603 | every variant's entry records its step |
| GrailEngine.CarryWeights | client/public/docs/grail.py:604 | every variant but SPY takes the weights it just used as its previous weights |
| GrailEngine.GrowAll | client/public/docs/grail.py:737-741 | every variant's yearly figure is multiplied by 1 + its latest return |
| GrailEngine.SelectAll | client/public/docs/grail.py:578-581 | the four selections are made from the selection day on the two stock universes and the ETF list |
| GrailEngine.MonthKeepsTrack | client/public/docs/grail.py:600-741 | recording a month keeps one variant's entry consistent and its yearly figure equal to the per-year compounding |
| GrailEngine.StepsKeepTracksOk | client/public/docs/grail.py:599-741 | after a traded month all thirteen entries are consistent with one more month |
| GrailEngine.TradeMonth | client/public/docs/grail.py:599-741 | records every variant's step, replaces previous weights by the weights used, grows the yearly figures and keeps all entries consistent |
| GrailEngine.GrailBacktest.constructor | client/public/docs/grail.py:528-558 | starts every variant with an empty entry and empty previous weights (SPY has none) |
| GrailEngine.GrailBacktest.RecordMonth | client/public/docs/grail.py:599-741 | the new state is the old one traded on the given steps: every variant's entry records its step, the previous weights become the weights just used, the yearly figures grow and the year is appended; the month and regime logs are unchanged |
| GrailEngine.GrailBacktest.TradeSelected | client/public/docs/grail.py:587-741 | the new state is the old one traded on GrailStep of every variant for its previous weights, so every variant but SPY then holds its selection's weights |
| GrailEngine.GrailBacktest.LogAndTrade | client/public/docs/grail.py:566-584 | a month with selection day < 126 changes nothing; otherwise month and regime are logged, and the month is traded only when all four selections are non-empty |
| GrailEngine.LoggedMonthLogs | client/public/docs/grail.py:566-575 | a month adds one entry to the month log and one to the regime log exactly when its selection day has 126 days of history |
| GrailEngine.LoggedMonthTradesIff | client/public/docs/grail.py:566-741 | a month is traded (its year appended) exactly when the selection day has 126 days of history and all four selections are non-empty; then every variant's entry records its GrailStep and its previous weights become the weights it held; otherwise entries, previous weights, yearly figures and years are unchanged |
| GrailEngine.LoggedMonthKeepsBookOk | client/public/docs/grail.py:566-741 | one month, traded or skipped, keeps every variant's entry consistent and the logs at least as long as the traded years |
| GrailEngine.GrailMonthsKeepBookOk | client/public/docs/grail.py:561-741 | any number of months keeps every variant's entry consistent |
| GrailEngine.GrailMonthsLogEligible | client/public/docs/grail.py:561-575 | after n months the logs have grown by exactly the number of eligible months among them |
| GrailEngine.GrailBacktest.StepMonth | client/public/docs/grail.py:562-741 | the selections are the top-N picks of the selection day start − 1, and the new state is the month's effect on the old one: logged and traded, logged only, or unchanged |
| GrailEngine.GrailBacktest.NextMonth | client/public/docs/grail.py:561-741 | one more iteration of the main loop extends the months run so far by one |
| GrailEngine.GrailBacktest.Run | client/public/docs/grail.py:561-741 | the final state is the initial one after every month between consecutive month starts, each with the day-before picks, and the logs grow by exactly the eligible months |
| GrailEngine.RegimeSwitches | client/public/docs/grail.py:910-917 | the loop collects exactly the regime switches |
| GrailEngine.SwitchesAreChanges | client/public/docs/grail.py:910-917 | a switch is listed exactly for each month whose label differs from the previous month's |
| GrailEngine.SwitchesChain | client/public/docs/grail.py:910-917 | every switch changes the label, each switch starts where the previous one ended, and the last ends at the current label |
| GrailEngine.NoSwitchMeansConstant | client/public/docs/grail.py:910-917 | no switch means the last month has the first month's label |
| GrailEngine.LastSwitchIsCurrent | client/public/docs/grail.py:910-917 | the last switch ends at the latest month's label |
| Metrics.RunningPeakIsMaximum | client/public/docs/grail.py:770 | the running peak at month k is the largest compounded value up to k, and one of those values |
| Metrics.MinOf | client/public/docs/grail.py:772 | the minimum lies at or below every element and is one of them |
| Metrics.MaxDrawdownNonPositive | client/public/docs/grail.py:767-772 | the maximum drawdown is never positive |
| Metrics.DrawdownBounds | client/public/docs/grail.py:771 | with a positive peak and a non-negative value, a month's drawdown lies in [−1, 0] and is 0 exactly at a new peak |
| Metrics.Sharpe | client/public/docs/grail.py:778 | a flat series scores 0; the ratio is positive (negative) exactly when there is spread and the mean is positive (negative) |
| Metrics.Negatives | client/public/docs/grail.py:781 | the losing months: every kept month is negative and every negative month is kept |
| Metrics.DownsideStd | client/public/docs/grail.py:782 | the downside deviation is non-negative and is the 0.001 stand-in when no month loses |
| Metrics.Sortino | client/public/docs/grail.py:783 | zero downside deviation gives 0; with no losing month the ratio uses the 0.001 stand-in; a positive ratio needs a positive mean |
| Metrics.SortinoWithoutLossesIsPositiveForGains | client/public/docs/grail.py:782-783 | a series with no losing month and a positive mean has a positive Sortino ratio |
| Metrics.GrailCalmar | client/public/docs/grail.py:786 | Calmar is 0 without drawdown, otherwise CAGR divided by the drawdown's size |
| Metrics.RobustCalmar | client/public/docs/robust.py:339 | Calmar is 0 unless the drawdown is negative, otherwise CAGR divided by its size |
| Metrics.CalmarGuardsAgree | client/public/docs/robust.py:339 | the two engines' guards (drawdown ≠ 0 and drawdown < 0) give the same Calmar on any real drawdown |
| Metrics.AverageTurnover | client/public/docs/grail.py:789 | the average turnover of no months is 0 |
| Metrics.GrailMetrics | client/public/docs/grail.py:757-804 | the report: cumulative return in percent; CAGR = (growth^(12/months) − 1) in percent; a non-positive max drawdown in percent; volatility = std × √12 in percent; the Sharpe and Sortino ratios; Calmar as GrailCalmar of CAGR and drawdown (0 without drawdown, else Calmar × drawdown size = CAGR); the average turnover; annual cost = average turnover × 12 × 0.2% in percent |
| Metrics.RobustMetrics | client/public/docs/robust.py:317-348 | no report for an empty series; otherwise compounded cumulative return, non-positive max drawdown, the Sharpe and Sortino ratios, Calmar 0 without drawdown |
| RobustEngine.RebalanceStart | client/public/docs/robust.py:419 | the shifted start is start + offset, capped at the day before the month's end |
| RobustEngine.RobustTarget | client/public/docs/robust.py:495-541 | only VolScale variants have a target; D2/D3 VolScale aim at 1.36 × the target volatility, the other VolScale variants at the target itself |
| RobustEngine.RobustStep | client/public/docs/robust.py:429-546 | SPY records its price return when both prices are usable; every other variant trades exactly when its holding is non-empty, takes its holding's weights, scales only if it is a VolScale variant, by a factor in [0.5, 1.5] |
| RobustEngine.TwinSteps | client/public/docs/robust.py:495-501 | a VolScale variant trades exactly when its unscaled twin does, with the same turnover and weights, and its return is the twin's return times its factor |
| RobustEngine.RobustVariantStep | client/public/docs/robust.py:429-546 | computes the variant's month as RobustStep states it |
| RobustEngine.AfterMonthKeepsTrackOk | client/public/docs/robust.py:430-434 | appending a month keeps the results' shape: SPY returns only; others a scale and a turnover per return; scales 1.0 or in [0.5, 1.5] |
| RobustEngine.AfterMonthKeepsTwins | client/public/docs/robust.py:495-501 | appending twin months keeps a VolScale variant's results in step with its twin's |
| RobustEngine.RobustMonthSteps | client/public/docs/robust.py:429-546 | one step per variant, each as RobustStep states it |
| RobustEngine.AppendAll | client/public/docs/robust.py:432-434 | every variant's results extended by its step |
| RobustEngine.CarryTraded | client/public/docs/robust.py:435 | each non-SPY variant now holds its new weights if it traded, its old ones otherwise |
| RobustEngine.StepsKeepRobustOk | client/public/docs/robust.py:429-546 | a month of steps keeps the loop invariant: results' shapes and VolScale twins in step with equal previous weights |
| RobustEngine.RobustTradeMonth | client/public/docs/robust.py:429-546 | the month's new results and held weights, variant by variant, and the invariant kept |
| RobustEngine.RobustBacktest.constructor | client/public/docs/robust.py:405-412 | every variant starts with no results and every non-SPY variant with no previous weights |
| RobustEngine.RobustBacktest.TradeOn | client/public/docs/robust.py:429-546 | each variant's results grow by its step and its held weights follow, given the month's selections and regime |
| RobustEngine.RobustBacktest.StepMonth | client/public/docs/robust.py:414-426 | a month whose selection day lacks momentum history changes nothing; the invariant is kept |
| RobustEngine.RobustBacktest.Run | client/public/docs/robust.py:414-420 | the loop over consecutive month starts keeps the invariant |
| TailRisk.RollingReturns | client/public/docs/robust.py:682-692 | one compounded window return per start position, |rs| − w + 1 of them |
| TailRisk.SpellsCoverDrawdownMonths | client/public/docs/robust.py:700-710 | the drawdown spells are positive lengths that add up to the number of months below the peak |
| TailRisk.DrawdownDurations | client/public/docs/robust.py:700-710 | the loop collects exactly the spells of consecutive months below the running peak |
| TailRisk.Longest | client/public/docs/robust.py:713 | the longest spell bounds every spell and is one of them; 0 when there is none |
| TailRisk.MaxLosingStreak | client/public/docs/robust.py:716-723 | the loop computes the longest losing streak |
| TailRisk.LongestStreakBoundsEveryRun | client/public/docs/robust.py:716-723 | every run of consecutive negative months is no longer than the longest streak |
| TailRisk.LongestStreakAttained | client/public/docs/robust.py:716-723 | some run of negative months is exactly as long as the longest streak |
| TailRisk.TailMetrics | client/public/docs/robust.py:672-731 | no report below 12 months; otherwise the worst 12- and 3-month returns are the minimum window returns, plus the longest drawdown spell and losing streak |
| Resampling.BlockCount | client/public/docs/robust.py:850 | enough blocks to cover the series, and no more than needed |
| Resampling.BlocksAt | client/public/docs/robust.py:853-855 | position o of block j in the concatenated blocks is month starts[j] + o |
| Resampling.BlockSample | client/public/docs/robust.py:857 | the sample, cut to the series length, is as long as the series |
| Resampling.BlockSampleAt | client/public/docs/robust.py:853-857 | each month of the cut sample comes from its block at its offset |
| Resampling.DrawSample | client/public/docs/robust.py:851-857 | the block loop builds exactly the cut sample |
| Resampling.BootstrapSharpes | client/public/docs/robust.py:848-861 | one Sharpe ratio per draw, of that draw's sample |
| Resampling.BootstrapDrawdowns | client/public/docs/robust.py:848-862 | one maximum drawdown per draw, of that draw's sample |
| Resampling.BootstrapDrawdownsNonPositive | client/public/docs/robust.py:862 | every bootstrap drawdown is non-positive |
| Resampling.Above | client/public/docs/robust.py:872 | marks exactly the values above the threshold |
| Resampling.ScoreSample | client/public/docs/robust.py:859-862 | one draw's Sharpe ratio and maximum drawdown |
| Resampling.BlockBootstrap | client/public/docs/robust.py:832-872 | the Sharpe and drawdown lists over all draws and P(Sharpe > 1) as the share of draws above 1 |
| Resampling.Excess | client/public/docs/robust.py:1137-1141 | the excess series is as long as the shorter input |
| Resampling.SimulatedMeans | client/public/docs/robust.py:1144-1147 | one simulated mean per sign vector |
| Resampling.AtLeast | client/public/docs/robust.py:1149 | marks exactly the values at or above the threshold |
| Resampling.PermutationTest | client/public/docs/robust.py:1133-1156 | p in [0, 1]; each flag is p below its level; no common months gives no observed mean and p = 0; otherwise p is the share of simulated means at or above the observed mean |
| Resampling.StricterLevelImpliesLooser | client/public/docs/robust.py:1154-1155 | significance at 1% implies significance at 5% |
| Resampling.ZeroExcessMeans | client/public/docs/robust.py:1141-1147 | an all-zero excess series gives only zero simulated means |
| Resampling.IdenticalSeriesNeverSignificant | client/public/docs/robust.py:1141-1149 | a strategy tested against itself has observed mean 0 and p = 1 |
| EffectSize.PooledVariance | client/public/docs/robust.py:1181-1183 | the pooled variance is non-negative and 0 exactly when both series are flat |
| EffectSize.CohensD | client/public/docs/robust.py:1179-1186 | undefined below two months in either series; 0 when both are flat; positive (negative) exactly when the pooled deviation is positive and the strategy's mean is above (below) the benchmark's |
| EffectSize.CohensDAntisymmetric | client/public/docs/robust.py:1179-1186 | swapping the two series negates d |
| EffectSize.InterpretCohensD | client/public/docs/robust.py:1188-1197 | negligible exactly below 0.2 in magnitude, large exactly at 0.8 or above |
| EffectSize.InterpretMonotone | client/public/docs/robust.py:1188-1197 | the label depends on |d| only and does not shrink as |d| grows |
| EffectSize.InterpretPbo | client/public/docs/robust.py:1312-1318 | low risk exactly below 0.10, high risk exactly at 0.30 or above |
| Cscv.BuildBlocks | client/public/docs/robust.py:1270-1274 | the block loop builds exactly the blocks |
| Cscv.BlocksCover | client/public/docs/robust.py:1270-1274 | the blocks laid end to end give back the excess series |
| Cscv.BlockLengths | client/public/docs/robust.py:1272-1273 | every block but the last is n // n_blocks long; the last takes the remainder as well |
| Cscv.CombinationsCount | client/public/docs/robust.py:1276 | there are C(n, k) combinations |
| Cscv.CombinationsShape | client/public/docs/robust.py:1276 | each combination is an increasing choice of k block indices |
| Cscv.ChoosePositive | client/public/docs/robust.py:1276 | there is at least one split |
| Cscv.Complement | client/public/docs/robust.py:1280 | the test blocks are exactly the blocks not in the training set, ascending |
| Cscv.TestNonEmpty | client/public/docs/robust.py:1280 | half the blocks in sample always leave some out of sample |
| Cscv.ScoreSplit | client/public/docs/robust.py:1282-1286 | the in-sample Sharpe ratio is that of the training blocks laid end to end |
| Cscv.SplitResults | client/public/docs/robust.py:1276-1291 | C(n_blocks, n_blocks // 2) split results, at least one |
| Cscv.ScoreSplits | client/public/docs/robust.py:1278-1291 | the split loop produces exactly the split results, in combination order |
| Cscv.TopCount | client/public/docs/robust.py:1298 | at least one and at most all of the splits are examined |
| Cscv.Pbo | client/public/docs/robust.py:1299-1300 | the probability of backtest overfitting lies in [0, 1] |
| Cscv.CscvOutcome | client/public/docs/robust.py:1293-1309 | C(n_blocks, n_blocks // 2) combinations and a PBO in [0, 1] |
| Cscv.CscvPbo | client/public/docs/robust.py:1256-1310 | no result exactly when the blocks would be shorter than two months; otherwise the outcome above |
| Validation.WindowSharpe | client/public/docs/robust.py:1359-1360 | a flat window scores 0; the sign follows the mean when there is spread |
| Validation.Degradation | client/public/docs/robust.py:1363-1366 | 0 when the training value is 0; otherwise the change relative to |train|, positive exactly when the test value is higher |
| Validation.WindowCount | client/public/docs/robust.py:1355 | the number of 72-month windows stepped by 12 that fit in the series |
| Validation.Periods | client/public/docs/robust.py:1352-1376 | one period per window |
| Validation.PositiveTests | client/public/docs/robust.py:1378 | marks exactly the windows with a positive test Sharpe |
| Validation.ScoreWindow | client/public/docs/robust.py:1356-1373 | one window's period as specified |
| Validation.WalkForward | client/public/docs/robust.py:1343-1385 | no result below 72 months; otherwise (n − 72) // 12 + 1 periods, mean degradation, and consistency as the share of positive tests, in [0, 1] |
| Validation.HoldoutSplit | client/public/docs/robust.py:1425 | the cut is ⌊0.8 n⌋ |
| Validation.Holdout | client/public/docs/robust.py:1424-1452 | both parts non-empty and together the whole series; Sharpe and CAGR degradations; significance at 5%; robust exactly when degradation > −0.5 and the test Sharpe is positive |
| Validation.HoldoutPartitions | client/public/docs/robust.py:1425-1428 | training and test months are the series split in two; at least a fifth is held out |
| Validation.HoldoutRobustness | client/public/docs/robust.py:1451 | a positive test Sharpe no lower than the training one is robust; a non-positive test Sharpe never is |
| MultipleTesting.TwelveTests | client/public/docs/robust.py:1225 | twelve strategies are tested (all but SPY) |
| MultipleTesting.Bonferroni | client/public/docs/robust.py:1226-1243 | each entry keeps its p-value, reports α = 0.05/12 and is significant exactly when 12 p < 0.05 |
| MultipleTesting.ScoringLevelStricter | client/public/docs/robust.py:1778-1780 | the scoring's 0.05/13 level implies the report's 0.05/12 one but not conversely (p = 0.004) |
| MultipleTesting.SortedBy | client/public/docs/robust.py:1555-1556 | the sorted p-values are the p-values in the order's positions |
| MultipleTesting.StepUpIsMinimum | client/public/docs/robust.py:1563-1567 | the adjusted value at rank k is the minimum of p(j)·n/(j+1) over j ≥ k |
| MultipleTesting.TiedRanksAgree | client/public/docs/robust.py:1555-1567 | tied p-values in the ascending order get the same adjusted value, so it does not matter how the sort orders ties |
| MultipleTesting.StepUpMonotone | client/public/docs/robust.py:1563-1567 | adjusted values never decrease with rank |
| MultipleTesting.StepUpAtLeastRaw | client/public/docs/robust.py:1563-1567 | on sorted non-negative p-values, the adjusted value is at least the raw one |
| MultipleTesting.StepUpAtMostRaw | client/public/docs/robust.py:1563-1567 | the adjusted value is at most the Bonferroni value p·n |
| MultipleTesting.StepUpRule | client/public/docs/robust.py:1563-1580 | an FDR discovery at rank k exactly when some rank j ≥ k has p(j)·n/(j+1) < α |
| MultipleTesting.BonferroniImpliesDiscovery | client/public/docs/robust.py:1567-1581 | Bonferroni significance implies an FDR discovery |
| MultipleTesting.AdjustSorted | client/public/docs/robust.py:1562-1567 | the backward loop fills each rank with its step-up value |
| MultipleTesting.Unsort | client/public/docs/robust.py:1570-1572 | each adjusted value goes back to its original position |
| MultipleTesting.BenjaminiHochberg | client/public/docs/robust.py:1538-1584 | each strategy's entry: its p-value, the adjusted value capped at 1, FDR significance, and Bonferroni significance at α/n |
| MultipleTesting.Report | client/public/docs/robust.py:1575-1582 | one entry per p-value with the cap and both significance flags |
| MultipleTesting.ReportedAdjustedBounds | client/public/docs/robust.py:1579 | a reported adjusted value is at most 1 and at least the raw p-value when p ≤ 1 |
| Adjustments.SurvivorshipAdjusted | client/public/docs/robust.py:1000-1009 | every non-SPY month loses 2%/12; SPY is unchanged |
| Adjustments.PenaltyShiftsMean | client/public/docs/robust.py:1000-1009 | the penalty lowers the mean return by exactly 2%/12, except for SPY |
| Adjustments.FundingCharge | client/public/docs/robust.py:1060-1061 | the charge is non-negative and 0 exactly when the scale is at most 1 |
| Adjustments.FundingAdjusted | client/public/docs/robust.py:1060-1062 | each month loses the funding charge of its scale |
| Adjustments.FundingOnlyCharges | client/public/docs/robust.py:1060-1062 | a month never gains, is unchanged exactly when unlevered, and the mean never rises |
| Adjustments.FundedReturns | client/public/docs/robust.py:1030-1064 | only VolScale variants are adjusted for funding |
| Adjustments.MonthlyFromCumulative | client/public/docs/robust.py:1712-1724 | one monthly return per cumulative value |
| Adjustments.CompoundingRecovers | client/public/docs/robust.py:1712-1724 | compounding the recovered months from 100 gives back the cumulative value |
| Scoring.Tally | client/public/docs/robust.py:1801-1811 | the score counts the passed criteria, at most 5 |
| Scoring.AssessCommon | client/public/docs/robust.py:1767-1837 | the five criteria computed on the common months, and the score as their count |
| Scoring.Evaluate | client/public/docs/robust.py:1732-1837 | SPY gets the benchmark entry; fewer than 60 months the insufficient-data entry; otherwise the assessment on the common months; score at most 5 |
| Scoring.BenchmarkTwinScoresAtMostTwo | client/public/docs/robust.py:1772-1811 | a strategy scored against itself has p = 1 and scores at most 2 |
| Scoring.TwinPValue | client/public/docs/robust.py:1141-1149 | a strategy against itself has permutation p-value 1 |
| Scoring.TwinEffect | client/public/docs/robust.py:1179-1186 | a strategy against itself has Cohen's d of 0 |
| RobustnessPage.Lookup | client/src/components/RobustnessPageNew.tsx:132 | an entry exactly when the test's results exist and hold the strategy |
| RobustnessPage.Verdict | client/src/components/RobustnessPageNew.tsx:133-200 | a verdict exactly when there is an entry, and then the test's threshold applied to it |
| RobustnessPage.Passes | client/src/components/RobustnessPageNew.tsx:133-200 | a test passes exactly when its verdict is true |
| RobustnessPage.PassThresholds | client/src/components/RobustnessPageNew.tsx:131-200 | each test's pass condition on the raw results: significance, \|d\| ≥ 0.2, P(Sharpe > 1) ≥ 0.5, DSR ≥ 0.95, PBO < 0.5, consistency ≥ 0.6, robust holdout, no regime change |
| RobustnessPage.Tally | client/src/components/RobustnessPageNew.tsx:131-200 | one test block adds its verdict to `details` and a point if it passed |
| RobustnessPage.DetailsComplete | client/src/components/RobustnessPageNew.tsx:127-202 | after all ten tests, `details` holds exactly the present tests with their verdicts, and the score is its number of true entries |
| RobustnessPage.RobustnessScore | client/src/components/RobustnessPageNew.tsx:126-203 | maximum 10; score = number of passed tests = number of true `details` entries; a test without results leaves no entry |
| RobustnessPage.TallyAll | client/src/components/RobustnessPageNew.tsx:131-202 | the ten blocks in turn give the score and `details` stated above |
| RobustnessPage.EvaluateOne | client/src/components/RobustnessPageNew.tsx:699-701 | a strategy's evaluation, as specified |
| RobustnessPage.RankedEvaluations | client/src/components/RobustnessPageNew.tsx:697-703 | every page strategy's evaluation, sorted stably by descending score: non-increasing, and a permutation |
| Sorting.SortDescPermutes | client/src/components/RobustnessPageNew.tsx:702 | the sort rearranges its input |
| Sorting.SortDescOrdered | client/public/docs/grail.py:278 | the sort's keys never increase |
| Sorting.SortDescCorrect | client/public/docs/grail.py:278 | the sorted list is a permutation with non-increasing keys |
| Sorting.SortDescStable | client/src/components/RobustnessPageNew.tsx:702 | the sort is stable: for every key, the elements carrying it keep their input order |
| YearlyChart.YearsOfMeaning | client/src/data/integratedData.ts:694-700 | a year is charted exactly when some chosen strategy has a return for it |
| YearlyChart.CollectYears | client/src/data/integratedData.ts:694-700 | the loop collects exactly those years |
| YearlyChart.SortYears | client/src/data/integratedData.ts:702 | the years ascending, each once |
| YearlyChart.StartAt100 | client/src/data/integratedData.ts:703-704 | every chosen strategy starts at 100 |
| YearlyChart.AdvanceYear | client/src/data/integratedData.ts:710-714 | each strategy grows by its year's return (0 when missing) and emits its rounded value |
| YearlyChart.ChartYear | client/src/data/integratedData.ts:708-716 | one point for the year; the running values stay 100 compounded over the years so far |
| YearlyChart.ChartPoints | client/src/data/integratedData.ts:708-717 | one point per year, in order, each emitting the rounded running values up to its year |
| YearlyChart.CumulativeReturns | client/src/data/integratedData.ts:693-719 | one point per distinct year, ascending; every point carries every chosen strategy; each value is 100 compounded over the years so far, rounded |
| YearlyChart.RunningIsCompound | client/src/data/integratedData.ts:711-712 | the running value is 100 × the compounded yearly returns |
| YearlyChart.FlatWithoutData | client/src/data/integratedData.ts:711 | a strategy without data stays at 100 |
| Numerics.Round | client/src/data/integratedData.ts:713 | `Math.round`: the nearest integer, halves rounded up |
| Numerics.Clip | client/public/docs/grail.py:421 | `np.clip`: the value when inside [lo, hi], else the nearer bound |
| Numerics.Std | client/public/docs/grail.py:778 | the population standard deviation is non-negative and positive exactly when there is spread |
| RobustnessPage.DetailsAfterEntries | client/src/components/RobustnessPageNew.tsx:127-200 | after k tests, `details` holds exactly those of them whose results were present, each with its verdict |
| Numerics.SampleVariance | client/public/docs/robust.py:1182 | the ddof = 1 variance is non-negative and equals the population variance × n/(n − 1) |

## Left out

- Probabilistic and deflated Sharpe ratios, CVaR and percentiles, bootstrap confidence intervals, the Spearman rank correlation of the CSCV splits, the Kolmogorov–Smirnov regime test and the t-test's internals: they need distribution functions that are not part of this model. The t-test p-value and the median come from the `Lib` parameter.
- Random number generation: seeded numpy draws become parameters (block starts, sign vectors). The model states the result for any draws that fit their ranges.
- Loading price and JSON data, writing result files, printing, and rendering the React page and chart: I/O and UI.
- Floating point: all arithmetic is on reals. NaN is modelled only where the code tests for it (missing closes, missing results). numpy's infinity for a zero previous close is not modelled: such a return is dropped.
- `np.argsort` ties: the order is any ascending order of the p-values. Tied p-values get the same adjusted value (`MultipleTesting.TiedRanksAgree`), so the reported values do not depend on how ties are ordered.
- A drawdown whose running peak is 0: the model gives 0, where numpy would divide by zero (NaN or −inf). A peak of 0 needs a month with return −100%.
- Metrics.GrailMetrics: requires at least one month. The source divides by the number of years and raises ZeroDivisionError on an empty series.
- Weights of repeated symbols: the source sums inverse volatilities over a list but renormalises over a dictionary, which would differ for a repeated symbol. The model states the weights for universes without repeats. The D2 list (103 names), the symbol set and the ETF list have none.
- The number of CSCV splits is stated as `Choose(n_blocks, n_blocks // 2)` (12870 for 16 blocks), not as the literal.
- `Resampling.PermutationTest`: requires at least one simulation, because the source's mean over zero simulations is NaN.
- `Resampling.BlockBootstrap`: requires a series at least one block long and at least one draw, because `randint` fails on an empty range. Its result holds the two lists and P(Sharpe > 1); the summaries `sharpe_mean`, `sharpe_std` and `max_dd_mean` (robust.py lines 864-868), plain means and a standard deviation of those lists, are not computed, and neither are the percentile bounds.
- `Validation.Holdout`: requires at least two months, because below that one half of the split is empty and the source's metrics fail on it.
- RobustnessPage: each test's per-strategy entry is reduced to the one field the tally reads. JavaScript truthiness of an entry object is modelled as its presence.
- TailRisk.SpellsCoverDrawdownMonths: states that the spells are positive and add up to the months below the peak, not that each spell is a maximal run of such months.
- TailRisk.TailMetrics: the average drawdown duration is computed but no property of it is stated beyond its definition.
- RobustEngine.RobustBacktest.StepMonth: states the skipped month and the invariant. The traded month is stated by `RobustBacktest.TradeOn`, which it calls.
- RobustEngine.RobustBacktest.Run: states only that the loop keeps the invariant.
- YearlyChart.CumulativeReturns: the per-strategy values are stated for a strategy list without repeats. The JavaScript `|| 0` on a NaN return is not modelled. Year keys are integers, so a strategy named "year" cannot clash with the point's year field as it could in the object literal.
