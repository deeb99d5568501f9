/**
 * The yearly chart of the dashboard: the calendar-year returns of the chosen strategies
 * compounded from 100 into one chart point per year.
 */
module YearlyChart {
  import opened Numerics

  /** Each strategy's calendar-year returns, by year. */
  type YearlyReturns<K> = map<K, map<int, real>>

  /** One chart point: its year and the rounded running value of every chosen strategy. */
  datatype ChartPoint<K> = ChartPoint(year: int, values: map<K, int>)

  /** The years found in the returns of the chosen strategies that have any. */
  function YearsOf<K(==)>(strategies: seq<K>, data: YearlyReturns<K>): set<int>
    decreases |strategies|
  {
    if |strategies| == 0 then {}
    else
      var last := strategies[|strategies| - 1];
      YearsOf(strategies[..|strategies| - 1], data) + (if last in data then data[last].Keys else {})
  }

  /** A year is charted exactly when some chosen strategy has a return for it. */
  lemma {:induction false} YearsOfMeaning<K>(strategies: seq<K>, data: YearlyReturns<K>, year: int)
    ensures year in YearsOf(strategies, data) <==>
              exists i :: 0 <= i < |strategies| && strategies[i] in data && year in data[strategies[i]]
    decreases |strategies|
  {
    if |strategies| > 0 {
      var n := |strategies| - 1;
      YearsOfMeaning(strategies[..n], data, year);
      if year in YearsOf(strategies, data) && year !in YearsOf(strategies[..n], data) {
        assert strategies[n] in data && year in data[strategies[n]];
      }
      if i :| 0 <= i < |strategies| && strategies[i] in data && year in data[strategies[i]] {
        if i < n {
          assert strategies[..n][i] == strategies[i];
        }
      }
    }
  }

  /** The return of a strategy in a year; a strategy or a year without data counts as 0. */
  function YearReturn<K>(data: YearlyReturns<K>, strategy: K, year: int): real
  {
    if strategy in data && year in data[strategy] then data[strategy][year] else 0.0
  }

  function ReturnsOver<K>(data: YearlyReturns<K>, strategy: K, years: seq<int>): (rs: seq<real>)
    ensures |rs| == |years|
  {
    seq(|years|, k requires 0 <= k < |years| => YearReturn(data, strategy, years[k]))
  }

  /** One year's growth of a running value: `cumulative * (1 + r)`. */
  function Grown(value: real, r: real): real
  {
    value * (1.0 + r)
  }

  /** The unrounded running value after the given years: 100 grown by each year's return in turn. */
  function Running<K>(data: YearlyReturns<K>, strategy: K, years: seq<int>): real
    decreases |years|
  {
    if |years| == 0 then 100.0
    else Grown(Running(data, strategy, years[..|years| - 1]), YearReturn(data, strategy, years[|years| - 1]))
  }

  predicate StrictlyIncreasing(xs: seq<int>)
  {
    forall i, j :: 0 <= i < j < |xs| ==> xs[i] < xs[j]
  }

  function PointYears<K(==)>(points: seq<ChartPoint<K>>): (years: seq<int>)
    ensures |years| == |points|
  {
    seq(|points|, i requires 0 <= i < |points| => points[i].year)
  }

  /** The first loop: the set of years of every chosen strategy that has returns. */
  method CollectYears<K(==)>(strategies: seq<K>, data: YearlyReturns<K>) returns (allYears: set<int>)
    ensures allYears == YearsOf(strategies, data)
  {
    allYears := {};
    for i := 0 to |strategies|
      invariant allYears == YearsOf(strategies[..i], data)
    {
      assert strategies[..i + 1][..i] == strategies[..i];
      var s := strategies[i];
      if s in data {
        allYears := allYears + data[s].Keys;
      }
    }
    assert strategies[..|strategies|] == strategies;
  }

  lemma {:induction false} LeastYear(years: set<int>) returns (least: int)
    requires years != {}
    ensures least in years && forall y :: y in years ==> least <= y
    decreases |years|
  {
    if forall y :: y !in years {
      assert false;
    }
    var some :| some in years;
    var rest := years - {some};
    if rest == {} {
      assert years == {some};
      least := some;
    } else {
      var restLeast := LeastYear(rest);
      least := if some < restLeast then some else restLeast;
      assert forall y :: y in years ==> y == some || y in rest;
    }
  }

  /** The numeric ascending sort of the collected years: each year once, smallest first. */
  method SortYears(allYears: set<int>) returns (years: seq<int>)
    ensures StrictlyIncreasing(years)
    ensures forall y :: y in years <==> y in allYears
    ensures |years| == |allYears|
  {
    years := [];
    var remaining := allYears;
    while remaining != {}
      invariant StrictlyIncreasing(years)
      invariant forall y :: y in allYears <==> y in years || y in remaining
      invariant forall k, y :: 0 <= k < |years| && y in remaining ==> years[k] < y
      invariant |years| + |remaining| == |allYears|
      decreases |remaining|
    {
      ghost var least := LeastYear(remaining);
      var m :| m in remaining && forall y :: y in remaining ==> m <= y;
      years := years + [m];
      remaining := remaining - {m};
    }
  }

  /**
   * One year of the chart: every chosen strategy, in order, has its running value
   * multiplied by (1 + that year's return) and emits the rounded value.
   */
  method AdvanceYear<K(==)>(strategies: seq<K>, data: YearlyReturns<K>, year: int, cumulative: map<K, real>)
    returns (cumulative': map<K, real>, values: map<K, int>)
    requires forall j :: 0 <= j < |strategies| ==> strategies[j] in cumulative
    ensures forall s :: s in cumulative' <==> s in cumulative
    ensures forall s :: s in values <==> s in strategies
    ensures Distinct(strategies) ==> forall j :: 0 <= j < |strategies| ==>
              && strategies[j] in cumulative' && strategies[j] in values
              && cumulative'[strategies[j]] == Grown(cumulative[strategies[j]], YearReturn(data, strategies[j], year))
              && values[strategies[j]] == Round(cumulative'[strategies[j]])
  {
    cumulative' := cumulative;
    values := map[];
    for i := 0 to |strategies|
      invariant forall s :: s in cumulative' <==> s in cumulative
      invariant forall s :: s in values <==> s in strategies[..i]
      invariant Distinct(strategies) ==> forall j :: 0 <= j < i ==>
                  && cumulative'[strategies[j]] == Grown(cumulative[strategies[j]], YearReturn(data, strategies[j], year))
                  && values[strategies[j]] == Round(cumulative'[strategies[j]])
      invariant Distinct(strategies) ==> forall j :: i <= j < |strategies| ==>
                  cumulative'[strategies[j]] == cumulative[strategies[j]]
    {
      var strategy := strategies[i];
      var yearlyReturn := YearReturn(data, strategy, year);
      cumulative' := cumulative'[strategy := Grown(cumulative'[strategy], yearlyReturn)];
      values := values[strategy := Round(cumulative'[strategy])];
      assert strategies[..i + 1] == strategies[..i] + [strategy];
    }
    assert strategies[..|strategies|] == strategies;
  }

  /** `allYears` collected and then sorted numerically. */
  method ChartYears<K(==)>(strategies: seq<K>, data: YearlyReturns<K>) returns (years: seq<int>)
    ensures StrictlyIncreasing(years)
    ensures forall y :: y in years <==> y in YearsOf(strategies, data)
    ensures |years| == |YearsOf(strategies, data)|
  {
    var allYears := CollectYears(strategies, data);
    years := SortYears(allYears);
  }

  lemma RunningStep<K>(data: YearlyReturns<K>, strategy: K, years: seq<int>, t: nat)
    requires t < |years|
    ensures Running(data, strategy, years[..t + 1]) == Grown(Running(data, strategy, years[..t]), YearReturn(data, strategy, years[t]))
  {
    assert years[..t + 1][..t] == years[..t];
  }

  /** Every chosen strategy's running value is 100 compounded over the given years. */
  predicate Tracks<K(==)>(cumulative: map<K, real>, strategies: seq<K>, data: YearlyReturns<K>, years: seq<int>)
  {
    forall j :: 0 <= j < |strategies| ==>
      strategies[j] in cumulative && cumulative[strategies[j]] == Running(data, strategies[j], years)
  }

  /** Every chosen strategy's emitted value is its running value over the given years, rounded. */
  predicate Emits<K(==)>(values: map<K, int>, strategies: seq<K>, data: YearlyReturns<K>, years: seq<int>)
  {
    forall j :: 0 <= j < |strategies| ==>
      strategies[j] in values && values[strategies[j]] == Round(Running(data, strategies[j], years))
  }

  lemma StartTracks<K>(cumulative: map<K, real>, strategies: seq<K>, data: YearlyReturns<K>, years: seq<int>)
    requires forall s :: s in strategies ==> s in cumulative && cumulative[s] == 100.0
    ensures Tracks(cumulative, strategies, data, years[..0])
  {
    assert |years[..0]| == 0;
  }

  /** `cumulative[s] = 100` for every chosen strategy. */
  method StartAt100<K(==)>(strategies: seq<K>) returns (cumulative: map<K, real>)
    ensures forall s :: s in cumulative <==> s in strategies
    ensures forall s :: s in cumulative ==> cumulative[s] == 100.0
  {
    cumulative := map[];
    for i := 0 to |strategies|
      invariant forall s :: s in cumulative <==> s in strategies[..i]
      invariant forall s :: s in cumulative ==> cumulative[s] == 100.0
    {
      cumulative := cumulative[strategies[i] := 100.0];
      assert strategies[..i + 1] == strategies[..i] + [strategies[i]];
    }
    assert strategies[..|strategies|] == strategies;
  }

  /** The point of year t: each running value compounded once more and emitted rounded. */
  method ChartYear<K(==)>(strategies: seq<K>, data: YearlyReturns<K>, years: seq<int>, t: nat, cumulative: map<K, real>)
    returns (cumulative': map<K, real>, point: ChartPoint<K>)
    requires t < |years|
    requires forall s :: s in cumulative <==> s in strategies
    requires Distinct(strategies) ==> Tracks(cumulative, strategies, data, years[..t])
    ensures forall s :: s in cumulative' <==> s in strategies
    ensures point.year == years[t]
    ensures forall s :: s in point.values <==> s in strategies
    ensures Distinct(strategies) ==> Tracks(cumulative', strategies, data, years[..t + 1])
    ensures Distinct(strategies) ==> Emits(point.values, strategies, data, years[..t + 1])
  {
    var values;
    cumulative', values := AdvanceYear(strategies, data, years[t], cumulative);
    TracksStep(cumulative, cumulative', values, strategies, data, years, t);
    point := ChartPoint(years[t], values);
  }

  lemma TracksStep<K>(cumulative: map<K, real>, cumulative': map<K, real>, values: map<K, int>,
                   strategies: seq<K>, data: YearlyReturns<K>, years: seq<int>, t: nat)
    requires t < |years|
    requires Distinct(strategies) ==> Tracks(cumulative, strategies, data, years[..t])
    requires Distinct(strategies) ==> forall j :: 0 <= j < |strategies| ==>
               && strategies[j] in cumulative' && strategies[j] in values
               && cumulative'[strategies[j]] == Grown(cumulative[strategies[j]], YearReturn(data, strategies[j], years[t]))
               && values[strategies[j]] == Round(cumulative'[strategies[j]])
    ensures Distinct(strategies) ==> Tracks(cumulative', strategies, data, years[..t + 1])
    ensures Distinct(strategies) ==> Emits(values, strategies, data, years[..t + 1])
  {
    if Distinct(strategies) {
      TracksAdvance(cumulative, cumulative', values, strategies, data, years, t);
    }
  }

  lemma TracksAdvance<K>(cumulative: map<K, real>, cumulative': map<K, real>, values: map<K, int>,
                      strategies: seq<K>, data: YearlyReturns<K>, years: seq<int>, t: nat)
    requires t < |years|
    requires Tracks(cumulative, strategies, data, years[..t])
    requires forall j :: 0 <= j < |strategies| ==>
               && strategies[j] in cumulative' && strategies[j] in values
               && cumulative'[strategies[j]] == Grown(cumulative[strategies[j]], YearReturn(data, strategies[j], years[t]))
               && values[strategies[j]] == Round(cumulative'[strategies[j]])
    ensures Tracks(cumulative', strategies, data, years[..t + 1])
    ensures Emits(values, strategies, data, years[..t + 1])
  {
    forall j | 0 <= j < |strategies|
      ensures cumulative'[strategies[j]] == Running(data, strategies[j], years[..t + 1])
    {
      RunningStep(data, strategies[j], years, t);
    }
  }

  /** Each point so far emits the running values over the years up to its own. */
  predicate EmitsUpTo<K>(points: seq<ChartPoint<K>>, strategies: seq<K>, data: YearlyReturns<K>, years: seq<int>)
    requires |points| <= |years|
  {
    forall k :: 0 <= k < |points| ==> Emits(points[k].values, strategies, data, years[..k + 1])
  }

  lemma EmitsExtend<K>(points: seq<ChartPoint<K>>, point: ChartPoint<K>, strategies: seq<K>, data: YearlyReturns<K>, years: seq<int>)
    requires |points| < |years|
    requires Distinct(strategies) ==> EmitsUpTo(points, strategies, data, years)
    requires Distinct(strategies) ==> Emits(point.values, strategies, data, years[..|points| + 1])
    ensures Distinct(strategies) ==> EmitsUpTo(points + [point], strategies, data, years)
  {
  }

  /**
   * `calculateCumulativeReturns`: one point per distinct year of the chosen strategies,
   * years ascending; every point carries every chosen strategy; each strategy's value is
   * 100 grown by each year's return so far (a missing year as 0), rounded only when emitted.
   */
  method CumulativeReturns<K(==)>(strategies: seq<K>, data: YearlyReturns<K>) returns (points: seq<ChartPoint<K>>)
    ensures StrictlyIncreasing(PointYears(points))
    ensures forall y :: y in PointYears(points) <==> y in YearsOf(strategies, data)
    ensures |points| == |YearsOf(strategies, data)|
    ensures forall t, s :: 0 <= t < |points| ==> (s in points[t].values <==> s in strategies)
    ensures Distinct(strategies) ==> EmitsUpTo(points, strategies, data, PointYears(points))
  {
    var years := ChartYears(strategies, data);
    points := ChartPoints(strategies, data, years);
  }

  /** `years.forEach`: the running values start at 100 and each year emits one point. */
  method ChartPoints<K(==)>(strategies: seq<K>, data: YearlyReturns<K>, years: seq<int>) returns (points: seq<ChartPoint<K>>)
    ensures PointYears(points) == years
    ensures forall t, s :: 0 <= t < |points| ==> (s in points[t].values <==> s in strategies)
    ensures Distinct(strategies) ==> EmitsUpTo(points, strategies, data, years)
  {
    var cumulative := StartAt100(strategies);
    StartTracks(cumulative, strategies, data, years);
    points := [];
    for t := 0 to |years|
      invariant |points| == t
      invariant forall k :: 0 <= k < t ==> points[k].year == years[k]
      invariant forall s :: s in cumulative <==> s in strategies
      invariant forall k, s :: 0 <= k < t ==> (s in points[k].values <==> s in strategies)
      invariant Distinct(strategies) ==> Tracks(cumulative, strategies, data, years[..t])
      invariant Distinct(strategies) ==> EmitsUpTo(points, strategies, data, years)
    {
      var point;
      cumulative, point := ChartYear(strategies, data, years, t, cumulative);
      EmitsExtend(points, point, strategies, data, years);
      points := points + [point];
    }
    assert PointYears(points) == years;
  }

  /** Growing 100 year by year is 100 times the compounded growth of the same returns. */
  lemma {:induction false} RunningIsCompound<K>(data: YearlyReturns<K>, strategy: K, years: seq<int>)
    ensures Running(data, strategy, years) == 100.0 * Compound(ReturnsOver(data, strategy, years))
    decreases |years|
  {
    if |years| > 0 {
      var n := |years| - 1;
      RunningIsCompound(data, strategy, years[..n]);
      var rs := ReturnsOver(data, strategy, years);
      assert rs[..n] == ReturnsOver(data, strategy, years[..n]);
      assert 100.0 * (Compound(rs[..n]) * (1.0 + rs[n])) == (100.0 * Compound(rs[..n])) * (1.0 + rs[n]);
    }
  }

  lemma {:induction false} CompoundOfZeros(rs: seq<real>)
    requires forall k :: 0 <= k < |rs| ==> rs[k] == 0.0
    ensures Compound(rs) == 1.0
    decreases |rs|
  {
    if |rs| > 0 {
      CompoundOfZeros(rs[..|rs| - 1]);
    }
  }

  /** A chosen strategy without returns for any of the years stays at 100 on every point. */
  lemma FlatWithoutData<K>(data: YearlyReturns<K>, strategy: K, years: seq<int>)
    requires forall k :: 0 <= k < |years| ==> strategy !in data || years[k] !in data[strategy]
    ensures Running(data, strategy, years) == 100.0
    ensures Round(Running(data, strategy, years)) == 100
  {
    RunningIsCompound(data, strategy, years);
    CompoundOfZeros(ReturnsOver(data, strategy, years));
  }
}
