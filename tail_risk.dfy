/**
 * Tail-risk figures of a monthly return series (`calc_tail_metrics`): the worst
 * compounded 12-month and 3-month windows, the lengths of the spells spent below the
 * running peak, and the longest run of losing months.  The 5% CVaR needs a percentile
 * and is not part of this model.
 */
module TailRisk {
  import opened Numerics
  import opened Metrics

  /** Fewer months than this give no tail figures at all. */
  const MinTailMonths: nat := 12

  // ---------------------------------------------------------------------------------
  // Rolling windows

  /** The compounded return of months i .. i + w - 1. */
  function WindowReturn(rs: seq<real>, i: int, w: nat): real
    requires 0 <= i && i + w <= |rs|
  {
    Compound(rs[i..i + w]) - 1.0
  }

  /** The rolling list: `np.prod(1 + returns[i:i+w]) - 1` for every start i, collected in order. */
  method RollingReturns(rs: seq<real>, w: nat) returns (rolling: seq<real>)
    requires w <= |rs|
    ensures |rolling| == |rs| - w + 1
    ensures forall i :: 0 <= i < |rolling| ==> rolling[i] == WindowReturn(rs, i, w)
  {
    rolling := [];
    for i := 0 to |rs| - w + 1
      invariant |rolling| == i
      invariant forall j :: 0 <= j < i ==> rolling[j] == WindowReturn(rs, j, w)
    {
      rolling := rolling + [WindowReturn(rs, i, w)];
    }
  }

  // ---------------------------------------------------------------------------------
  // Spells below the running peak

  /** The loop's state after a prefix: the spells already closed and the length of the open one. */
  datatype SpellScan = SpellScan(closed: seq<nat>, current: nat)

  function Scan(inDd: seq<bool>): (s: SpellScan)
    ensures s.current <= |inDd|
    decreases |inDd|
  {
    if |inDd| == 0 then SpellScan([], 0)
    else
      var before := Scan(inDd[..|inDd| - 1]);
      if inDd[|inDd| - 1] then SpellScan(before.closed, before.current + 1)
      else if before.current > 0 then SpellScan(before.closed + [before.current], 0)
      else SpellScan(before.closed, 0)
  }

  /** The lengths of the maximal spells of consecutive `true` months, in order. */
  function Spells(inDd: seq<bool>): seq<nat>
  {
    var s := Scan(inDd);
    s.closed + (if s.current > 0 then [s.current] else [])
  }

  function Total(xs: seq<nat>): nat
    decreases |xs|
  {
    if |xs| == 0 then 0 else Total(xs[..|xs| - 1]) + xs[|xs| - 1]
  }

  lemma {:induction false} TotalAppend(xs: seq<nat>, x: nat)
    ensures Total(xs + [x]) == Total(xs) + x
  {
    assert (xs + [x])[..|xs|] == xs;
  }

  /** The closed spells plus the open one account for every month below the peak, and no spell is empty. */
  lemma {:induction false} ScanCounts(inDd: seq<bool>)
    ensures Total(Scan(inDd).closed) + Scan(inDd).current == CountTrue(inDd)
    ensures forall k :: 0 <= k < |Scan(inDd).closed| ==> Scan(inDd).closed[k] > 0
    decreases |inDd|
  {
    if |inDd| > 0 {
      var before := Scan(inDd[..|inDd| - 1]);
      ScanCounts(inDd[..|inDd| - 1]);
      TotalAppend(before.closed, before.current);
    }
  }

  /** Every month below the peak lies in exactly one spell, and every spell has at least one month. */
  lemma SpellsCoverDrawdownMonths(inDd: seq<bool>)
    ensures Total(Spells(inDd)) == CountTrue(inDd)
    ensures forall k :: 0 <= k < |Spells(inDd)| ==> Spells(inDd)[k] > 0
  {
    var s := Scan(inDd);
    ScanCounts(inDd);
    if s.current > 0 {
      TotalAppend(s.closed, s.current);
      assert Spells(inDd) == s.closed + [s.current];
    } else {
      assert Spells(inDd) == s.closed;
    }
  }

  /** The duration loop: extend the open spell, or close it on a month at the peak, and close it at the end. */
  method DrawdownDurations(inDd: seq<bool>) returns (durations: seq<nat>)
    ensures durations == Spells(inDd)
  {
    durations := [];
    var currentDuration: nat := 0;
    for i := 0 to |inDd|
      invariant Scan(inDd[..i]) == SpellScan(durations, currentDuration)
    {
      assert inDd[..i + 1][..i] == inDd[..i];
      if inDd[i] {
        currentDuration := currentDuration + 1;
      } else {
        if currentDuration > 0 {
          durations := durations + [currentDuration];
        }
        currentDuration := 0;
      }
    }
    assert inDd[..|inDd|] == inDd;
    if currentDuration > 0 {
      durations := durations + [currentDuration];
    }
  }

  /** Whether each point of the compounded series is strictly below its running peak. */
  function BelowPeak(cs: seq<real>): (b: seq<bool>)
    ensures |b| == |cs|
  {
    var p := RunningPeak(cs);
    seq(|cs|, k requires 0 <= k < |cs| => cs[k] < p[k])
  }

  /** The longest entry, 0 for none (`max(xs) if xs else 0`). */
  function Longest(xs: seq<nat>): (m: nat)
    ensures forall k :: 0 <= k < |xs| ==> xs[k] <= m
    ensures |xs| > 0 ==> exists k :: 0 <= k < |xs| && xs[k] == m
    ensures |xs| == 0 ==> m == 0
    decreases |xs|
  {
    if |xs| == 0 then 0
    else
      var rest := Longest(xs[..|xs| - 1]);
      assert forall k :: 0 <= k < |xs| - 1 ==> xs[..|xs| - 1][k] == xs[k];
      if xs[|xs| - 1] >= rest then xs[|xs| - 1] else rest
  }

  // ---------------------------------------------------------------------------------
  // Losing streaks

  /** The number of losing months that end the series. */
  function TrailingLosses(rs: seq<real>): (t: nat)
    ensures t <= |rs|
    decreases |rs|
  {
    if |rs| == 0 then 0
    else if rs[|rs| - 1] < 0.0 then TrailingLosses(rs[..|rs| - 1]) + 1
    else 0
  }

  /** The longest run of losing months in the series. */
  function LongestLosingStreak(rs: seq<real>): (m: nat)
    ensures m >= TrailingLosses(rs)
    decreases |rs|
  {
    if |rs| == 0 then 0
    else
      var before := LongestLosingStreak(rs[..|rs| - 1]);
      var t := TrailingLosses(rs);
      if t > before then t else before
  }

  /** The streak loop, month by month. */
  method MaxLosingStreak(rs: seq<real>) returns (longest: nat)
    ensures longest == LongestLosingStreak(rs)
  {
    longest := 0;
    var currentStreak: nat := 0;
    for i := 0 to |rs|
      invariant currentStreak == TrailingLosses(rs[..i])
      invariant longest == LongestLosingStreak(rs[..i])
    {
      assert rs[..i + 1][..i] == rs[..i];
      if rs[i] < 0.0 {
        currentStreak := currentStreak + 1;
        longest := if longest > currentStreak then longest else currentStreak;
      } else {
        currentStreak := 0;
      }
    }
    assert rs[..|rs|] == rs;
  }

  /** A run of losing months ending at j makes the trailing count of the prefix at least as long. */
  lemma {:induction false} TrailingCoversRun(rs: seq<real>, i: int, j: int)
    requires 0 <= i <= j <= |rs|
    requires forall k :: i <= k < j ==> rs[k] < 0.0
    ensures TrailingLosses(rs[..j]) >= j - i
    decreases j - i
  {
    if i < j {
      TrailingCoversRun(rs, i, j - 1);
      assert rs[..j][..j - 1] == rs[..j - 1];
    }
  }

  /** The longest streak of a prefix never exceeds that of the whole series. */
  lemma {:induction false} LongestGrows(rs: seq<real>, j: int)
    requires 0 <= j <= |rs|
    ensures LongestLosingStreak(rs[..j]) <= LongestLosingStreak(rs)
    decreases |rs| - j
  {
    if j < |rs| {
      LongestGrows(rs, j + 1);
      assert rs[..j + 1][..j] == rs[..j];
    } else {
      assert rs[..j] == rs;
    }
  }

  /** Every run of consecutive losing months is at most the longest losing streak. */
  lemma LongestStreakBoundsEveryRun(rs: seq<real>, i: int, j: int)
    requires 0 <= i <= j <= |rs|
    requires forall k :: i <= k < j ==> rs[k] < 0.0
    ensures LongestLosingStreak(rs) >= j - i
  {
    TrailingCoversRun(rs, i, j);
    LongestGrows(rs, j);
  }

  /** The trailing losing months are all losses. */
  lemma {:induction false} TrailingAreLosses(rs: seq<real>)
    ensures forall k :: |rs| - TrailingLosses(rs) <= k < |rs| ==> rs[k] < 0.0
    decreases |rs|
  {
    if |rs| > 0 && rs[|rs| - 1] < 0.0 {
      TrailingAreLosses(rs[..|rs| - 1]);
    }
  }

  /** Months j - m .. j - 1 are all losses. */
  ghost predicate LosingRun(rs: seq<real>, j: int, m: nat)
  {
    m <= j <= |rs| && forall k :: j - m <= k < j ==> rs[k] < 0.0
  }

  /** The longest streak is attained: some run of exactly that many losing months exists. */
  lemma {:induction false} LongestStreakAttained(rs: seq<real>)
    ensures exists j :: LosingRun(rs, j, LongestLosingStreak(rs))
    decreases |rs|
  {
    var m := LongestLosingStreak(rs);
    if |rs| == 0 {
      assert LosingRun(rs, 0, m);
    } else {
      var prefix := rs[..|rs| - 1];
      var t := TrailingLosses(rs);
      if t > LongestLosingStreak(prefix) {
        TrailingAreLosses(rs);
        assert LosingRun(rs, |rs|, m);
      } else {
        LongestStreakAttained(prefix);
        var j :| LosingRun(prefix, j, m);
        assert LosingRun(rs, j, m);
      }
    }
  }

  // ---------------------------------------------------------------------------------
  // The report

  datatype TailReport = TailReport(worst12m: real, worst3m: real, avgDdDuration: real,
                                   maxDdDuration: nat, maxLosingStreak: nat)

  /** `calc_tail_metrics` without the CVaR: nothing below twelve months. */
  method TailMetrics(rs: seq<real>) returns (report: Option<TailReport>)
    ensures report.None? <==> |rs| < MinTailMonths
    ensures report.Some? ==>
      && (forall i :: 0 <= i <= |rs| - 12 ==> report.value.worst12m <= WindowReturn(rs, i, 12))
      && (exists i :: 0 <= i <= |rs| - 12 && report.value.worst12m == WindowReturn(rs, i, 12))
    ensures report.Some? ==>
      && (forall i :: 0 <= i <= |rs| - 3 ==> report.value.worst3m <= WindowReturn(rs, i, 3))
      && (exists i :: 0 <= i <= |rs| - 3 && report.value.worst3m == WindowReturn(rs, i, 3))
    ensures report.Some? ==>
      report.value.maxDdDuration == Longest(Spells(BelowPeak(CompoundSeries(rs))))
    ensures report.Some? ==> report.value.maxLosingStreak == LongestLosingStreak(rs)
  {
    if |rs| < MinTailMonths {
      return None;
    }
    var rolling12 := RollingReturns(rs, 12);
    var worst12m := MinOf(rolling12);
    var rolling3 := RollingReturns(rs, 3);
    var worst3m := MinOf(rolling3);
    var durations := DrawdownDurations(BelowPeak(CompoundSeries(rs)));
    var avgDuration := if |durations| > 0 then (Total(durations) as real) / (|durations| as real) else 0.0;
    var streak := MaxLosingStreak(rs);
    report := Some(TailReport(worst12m, worst3m, avgDuration, Longest(durations), streak));
  }
}
