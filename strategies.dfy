/**
 * The thirteen strategy variants both backtest engines run, the universes they select
 * from, and the vocabulary of one month of trading: the four selections, the regime and
 * the per-variant outcome that is appended to the results.
 */
module Strategies {
  import opened Numerics
  import opened Signals

  /** The result keys of the scripts, one constructor each. */
  datatype Variant =
    | D2 | D3 | Def5 | Def3 | D2Hybrid | D3Hybrid | Spy
    | D2VolScale | D3VolScale | Def5VolScale | Def3VolScale | D2HybridVolScale | D3HybridVolScale

  /** The variants in the order the results dictionary lists them. */
  const AllVariants: seq<Variant> := [
    D2, D3, Def5, Def3, D2Hybrid, D3Hybrid, Spy,
    D2VolScale, D3VolScale, Def5VolScale, Def3VolScale, D2HybridVolScale, D3HybridVolScale
  ]

  /** The dictionary key each variant is stored under. */
  function Name(v: Variant): string
  {
    match v
    case D2 => "D2"
    case D3 => "D3"
    case Def5 => "防御型TOP5"
    case Def3 => "防御型TOP3"
    case D2Hybrid => "D2+防御型"
    case D3Hybrid => "D3+防御型"
    case Spy => "SPY"
    case D2VolScale => "D2_VolScale"
    case D3VolScale => "D3_VolScale"
    case Def5VolScale => "防御型TOP5_VolScale"
    case Def3VolScale => "防御型TOP3_VolScale"
    case D2HybridVolScale => "D2+防御型_VolScale"
    case D3HybridVolScale => "D3+防御型_VolScale"
  }

  predicate IsVolScale(v: Variant)
  {
    v.D2VolScale? || v.D3VolScale? || v.Def5VolScale? || v.Def3VolScale? || v.D2HybridVolScale? || v.D3HybridVolScale?
  }

  /** The variant without exposure scaling; a VolScale variant holds exactly what this one holds. */
  function Unscaled(v: Variant): (u: Variant)
    ensures !IsVolScale(u)
    ensures !IsVolScale(v) ==> u == v
    ensures u == Spy <==> v == Spy
  {
    match v
    case D2VolScale => D2
    case D3VolScale => D3
    case Def5VolScale => Def5
    case Def3VolScale => Def3
    case D2HybridVolScale => D2Hybrid
    case D3HybridVolScale => D3Hybrid
    case _ => v
  }

  /** The position of a variant in the results dictionary. */
  function Position(v: Variant): (k: nat)
    ensures k < |AllVariants| && AllVariants[k] == v
  {
    match v
    case D2 => 0
    case D3 => 1
    case Def5 => 2
    case Def3 => 3
    case D2Hybrid => 4
    case D3Hybrid => 5
    case Spy => 6
    case D2VolScale => 7
    case D3VolScale => 8
    case Def5VolScale => 9
    case Def3VolScale => 10
    case D2HybridVolScale => 11
    case D3HybridVolScale => 12
  }

  /** The variant listed at position i sits at position i. */
  lemma PositionOfListed(i: int)
    requires 0 <= i < |AllVariants|
    ensures Position(AllVariants[i]) == i
  {
  }

  /** Every variant is listed, and listed once. */
  lemma AllVariantsListed()
    ensures |AllVariants| == 13
    ensures forall v :: v in AllVariants
    ensures Distinct(AllVariants)
  {
    forall v
      ensures v in AllVariants
    {
      assert AllVariants[Position(v)] == v;
    }
    forall i, j | 0 <= i < j < |AllVariants|
      ensures AllVariants[i] != AllVariants[j]
    {
      assert Position(AllVariants[i]) == i && Position(AllVariants[j]) == j;
    }
  }

  /**
   * `for key in results`: the variants' dictionary rebuilt key by key in the listed
   * order, the touched keys set to their new value and the others kept.
   */
  method UpdateVariants<V>(m: map<Variant, V>, touched: Variant -> bool, f: Variant -> V) returns (r: map<Variant, V>)
    requires forall v :: touched(v) ==> v in m
    ensures forall v :: v in r <==> v in m
    ensures forall v :: v in r ==> r[v] == if touched(v) then f(v) else m[v]
  {
    AllVariantsListed();
    r := m;
    for i := 0 to |AllVariants|
      invariant forall v :: v in r <==> v in m
      invariant forall k :: 0 <= k < i && AllVariants[k] in r ==>
                  r[AllVariants[k]] == if touched(AllVariants[k]) then f(AllVariants[k]) else m[AllVariants[k]]
      invariant forall k :: i <= k < |AllVariants| && AllVariants[k] in r ==> r[AllVariants[k]] == m[AllVariants[k]]
    {
      var v := AllVariants[i];
      if touched(v) {
        r := r[v := f(v)];
      }
    }
    forall v | v in r
      ensures r[v] == if touched(v) then f(v) else m[v]
    {
      var k := Position(v);
    }
  }

  /** A map that has every listed variant as a key has every variant as a key. */
  lemma ListedKeysCoverAll<T>(m: map<Variant, T>)
    requires forall k :: 0 <= k < |AllVariants| ==> AllVariants[k] in m
    ensures forall v :: v in m
  {
    forall v
      ensures v in m
    {
      var k := Position(v);
    }
  }

  /** Distinct variants are stored under distinct keys. */
  lemma NamesDistinct(a: Variant, b: Variant)
    requires a != b
    ensures Name(a) != Name(b)
  {
  }

  /** The thirteen defensive ETFs. */
  const DefenseEtfs: seq<string> := ["GLD", "EEM", "IWM", "QQQ", "SPY", "EFA", "DBC", "LQD", "AGG", "SHY", "TLT", "TIP", "IYR"]

  const AttackTopN: nat := 5
  const DefenseTopN5: nat := 5
  const DefenseTopN3: nat := 3

  /** The fixed S&P 100 list of the 13-variant backtest. */
  const GrailD2Universe: seq<string> := [
    "AAPL", "ABBV", "ABT", "ACN", "ADBE", "AIG", "ALL", "AMAT", "AMD", "AMGN",
    "AMZN", "AXP", "BA", "BAC", "BK", "BKNG", "BLK", "BMY", "BRK-B", "C",
    "CAT", "CHTR", "CL", "CMCSA", "COF", "COP", "COST", "CRM", "CSCO", "CVS",
    "CVX", "DE", "DHR", "DIS", "DOW", "DUK", "EMR", "EXC", "F", "FDX",
    "GD", "GE", "GILD", "GM", "GOOG", "GOOGL", "GS", "HD", "HON", "IBM",
    "INTC", "JNJ", "JPM", "KHC", "KO", "LIN", "LLY", "LMT", "LOW", "MA",
    "MCD", "MDLZ", "MDT", "MET", "META", "MMM", "MO", "MRK", "MS", "MSFT",
    "NEE", "NFLX", "NKE", "NVDA", "ORCL", "OXY", "PEP", "PFE", "PG", "PM",
    "PYPL", "QCOM", "RTX", "SBUX", "SCHW", "SO", "SPG", "T", "TGT", "TMO",
    "TMUS", "TSLA", "TXN", "UNH", "UNP", "UPS", "USB", "V", "VZ", "WBA",
    "WFC", "WMT", "XOM"
  ]

  /** The S&P 100 list of the robustness script. */
  const RobustSp100Universe: seq<string> := [
    "AAPL", "ABBV", "ABT", "ACN", "ADBE", "AIG", "AMD", "AMGN", "AMT", "AMZN",
    "AVGO", "AXP", "BA", "BAC", "BK", "BKNG", "BLK", "BMY", "BRK.B", "C",
    "CAT", "CHTR", "CL", "CMCSA", "COF", "COP", "COST", "CRM", "CSCO", "CVS",
    "CVX", "DE", "DHR", "DIS", "DOW", "DUK", "EMR", "EXC", "F", "FDX",
    "GD", "GE", "GILD", "GM", "GOOG", "GOOGL", "GS", "HD", "HON", "IBM",
    "INTC", "JNJ", "JPM", "KHC", "KO", "LIN", "LLY", "LMT", "LOW", "MA",
    "MCD", "MDLZ", "MDT", "MET", "META", "MMM", "MO", "MRK", "MS", "MSFT",
    "NEE", "NFLX", "NKE", "NVDA", "ORCL", "PEP", "PFE", "PG", "PM", "PYPL",
    "QCOM", "RTX", "SBUX", "SCHW", "SO", "SPG", "T", "TGT", "TMO", "TMUS",
    "TSLA", "TXN", "UNH", "UNP", "UPS", "USB", "V", "VZ", "WBA", "WFC",
    "WMT", "XOM"
  ]

  /** The two S&P 100 lists are not the same universe: they do not even have the same length. */
  lemma UniverseListsDiffer()
    ensures |GrailD2Universe| == 103 && |RobustSp100Universe| == 102
    ensures GrailD2Universe != RobustSp100Universe
  {
  }

  /** The members of a symbol list that have a close series, in list order. */
  function PresentSymbols(symbols: seq<string>, prices: Prices): (r: seq<string>)
    ensures |r| <= |symbols|
    ensures forall s :: s in r <==> s in symbols && s in prices
    decreases |symbols|
  {
    if |symbols| == 0 then []
    else
      var s := symbols[|symbols| - 1];
      PresentSymbols(symbols[..|symbols| - 1], prices) + (if s in prices then [s] else [])
  }

  /** The D3 universe: every symbol with a close series that is not a defensive ETF. */
  function AttackSymbols(allSymbols: seq<string>, prices: Prices): (r: seq<string>)
    ensures forall s :: s in r <==> s in allSymbols && s in prices && s !in DefenseEtfs
    decreases |allSymbols|
  {
    if |allSymbols| == 0 then []
    else
      var s := allSymbols[|allSymbols| - 1];
      AttackSymbols(allSymbols[..|allSymbols| - 1], prices) + (if s in prices && s !in DefenseEtfs then [s] else [])
  }

  /** The market regime of a month. */
  datatype Regime = Bull | Bear

  function RegimeAt(prices: Prices, idx: int): (r: Regime)
    ensures r == Bull <==> IsBull(prices, idx)
  {
    if IsBull(prices, idx) then Bull else Bear
  }

  /** One selection: the chosen symbols and their weights. */
  datatype Pick = Pick(symbols: seq<string>, weights: map<string, real>)

  /** Every chosen symbol has a weight, so the monthly return can read it. */
  predicate Covered(p: Pick)
  {
    forall s :: s in p.symbols ==> s in p.weights
  }

  /** The four selections of a month: D2 and D3 attack stocks, the top five and top three ETFs. */
  datatype Picks = Picks(d2: Pick, d3: Pick, def5: Pick, def3: Pick)

  predicate AllCovered(p: Picks)
  {
    Covered(p.d2) && Covered(p.d3) && Covered(p.def5) && Covered(p.def3)
  }

  /**
   * What a variant holds this month: the hybrids hold the attack selection in a Bull
   * month and the top-three ETFs otherwise; a VolScale variant holds what its unscaled
   * twin holds.  SPY holds no selection.
   */
  function Held(v: Variant, picks: Picks, regime: Regime): (p: Pick)
    requires v != Spy
    ensures v.D2Hybrid? || v.D2HybridVolScale? ==> p == (if regime == Bull then picks.d2 else picks.def3)
    ensures v.D3Hybrid? || v.D3HybridVolScale? ==> p == (if regime == Bull then picks.d3 else picks.def3)
  {
    match Unscaled(v)
    case D2 => picks.d2
    case D3 => picks.d3
    case Def5 => picks.def5
    case Def3 => picks.def3
    case D2Hybrid => if regime == Bull then picks.d2 else picks.def3
    case D3Hybrid => if regime == Bull then picks.d3 else picks.def3
  }

  lemma HeldIsCovered(v: Variant, picks: Picks, regime: Regime)
    requires v != Spy && AllCovered(picks)
    ensures Covered(Held(v, picks, regime))
  {
  }

  /** SPY's buy-and-hold return over the month, when both closes are numbers and the first is positive. */
  function SpyReturn(prices: Prices, startIdx: int, endIdx: int): (r: Option<real>)
    ensures r.Some? <==>
      At(SpySeries(prices), startIdx).Some? && At(SpySeries(prices), endIdx).Some?
      && At(SpySeries(prices), startIdx).value > 0.0
  {
    var s := At(SpySeries(prices), startIdx);
    var e := At(SpySeries(prices), endIdx);
    if s.Some? && e.Some? && s.value > 0.0 then Some(e.value / s.value - 1.0) else None
  }

  /** What one variant records for one month: its return, turnover, exposure scale and the weights it now holds. */
  datatype Step = Step(ret: real, turnover: real, scale: Option<real>, weights: map<string, real>)
}
