/**
 * Shared numeric vocabulary of the backtest scripts: missing values (numpy's NaN),
 * sums, means and variances over reals, compounding, and the handful of library
 * numerics (square root, power, median, t-test) that the scripts take from numpy
 * and scipy.  The library numerics are not defined here: they travel as a `Lib`
 * record of functions, and only the laws the model relies on are stated, in types.
 */
module Numerics {

  /** A value that may be missing; `None` plays the part of numpy's NaN. */
  datatype Option<T> = None | Some(value: T)

  function Abs(x: real): (r: real)
    ensures r >= 0.0 && (r == x || r == -x)
  {
    if x < 0.0 then -x else x
  }

  function Min(a: real, b: real): (r: real)
    ensures r <= a && r <= b && (r == a || r == b)
  {
    if a <= b then a else b
  }

  function Max(a: real, b: real): (r: real)
    ensures r >= a && r >= b && (r == a || r == b)
  {
    if a >= b then a else b
  }

  /** numpy's `clip`: the value pulled into [lo, hi]. */
  function Clip(x: real, lo: real, hi: real): (r: real)
    requires lo <= hi
    ensures lo <= r <= hi
    ensures lo <= x <= hi ==> r == x
    ensures x < lo ==> r == lo
    ensures x > hi ==> r == hi
  {
    Min(Max(x, lo), hi)
  }

  /** A square root as the library supplies it: zero at zero and positive on positive inputs. */
  type SqrtFn = f: real -> real | f(0.0) == 0.0 && forall x :: x > 0.0 ==> f(x) > 0.0
    witness (x: real) => if x > 0.0 then 1.0 else 0.0

  /**
   * Library numerics: square root, real power (`**` on floats), the median of a sample
   * and the two-sided p-value of scipy's one-sample t-test against zero.
   */
  datatype Lib = Lib(
    sqrt: SqrtFn,
    pow: (real, real) -> real,
    median: seq<real> -> real,
    tTestPValue: seq<real> -> real)

  /** Sum of a sequence, accumulated from the left as Python's `sum` does. */
  function Sum(xs: seq<real>): real
    decreases |xs|
  {
    if |xs| == 0 then 0.0 else Sum(xs[..|xs| - 1]) + xs[|xs| - 1]
  }

  function Mean(xs: seq<real>): real
    requires |xs| > 0
  {
    Sum(xs) / (|xs| as real)
  }

  function SquaredDeviations(xs: seq<real>, m: real): (d: seq<real>)
    ensures |d| == |xs|
    ensures forall i :: 0 <= i < |d| ==> d[i] >= 0.0
  {
    seq(|xs|, i requires 0 <= i < |xs| => Square(xs[i] - m))
  }

  function Square(y: real): (r: real)
    ensures r >= 0.0
  {
    if y < 0.0 then (-y) * (-y) else y * y
  }

  /** Population variance (numpy's default, ddof = 0). */
  function Variance(xs: seq<real>): (v: real)
    requires |xs| > 0
    ensures v >= 0.0
  {
    var d := SquaredDeviations(xs, Mean(xs));
    SumNonNegative(d);
    Sum(d) / (|xs| as real)
  }

  /** Sample variance (ddof = 1); numpy gives NaN below two points. */
  function SampleVariance(xs: seq<real>): (v: real)
    requires |xs| >= 2
    ensures v >= 0.0
    ensures v == Variance(xs) * (|xs| as real) / ((|xs| - 1) as real)
  {
    var d := SquaredDeviations(xs, Mean(xs));
    SumNonNegative(d);
    Sum(d) / ((|xs| - 1) as real)
  }

  /** numpy's `std` (ddof = 0). */
  function Std(lib: Lib, xs: seq<real>): (s: real)
    requires |xs| > 0
    ensures s >= 0.0
    ensures s > 0.0 <==> Variance(xs) > 0.0
  {
    lib.sqrt(Variance(xs))
  }

  /** numpy's `std(ddof=1)`. */
  function SampleStd(lib: Lib, xs: seq<real>): (s: real)
    requires |xs| >= 2
    ensures s >= 0.0
    ensures s > 0.0 <==> Variance(xs) > 0.0
  {
    lib.sqrt(SampleVariance(xs))
  }

  /** A single observation has no spread, so a positive standard deviation needs two points. */
  lemma PositiveSpreadNeedsTwo(xs: seq<real>)
    requires |xs| > 0 && Variance(xs) > 0.0
    ensures |xs| >= 2
  {
    if |xs| == 1 {
      SingletonHasNoSpread(xs);
    }
  }

  lemma SingletonHasNoSpread(xs: seq<real>)
    requires |xs| == 1
    ensures Variance(xs) == 0.0
  {
    assert xs[..0] == [];
    assert Sum(xs) == Sum(xs[..0]) + xs[0];
    assert Mean(xs) == xs[0];
    var d := SquaredDeviations(xs, Mean(xs));
    assert d[..0] == [];
    assert Sum(d) == Sum(d[..0]) + d[0];
  }

  /** The growth of one unit over the returns, prod(1 + r). */
  function Compound(rs: seq<real>): real
    decreases |rs|
  {
    if |rs| == 0 then 1.0 else Compound(rs[..|rs| - 1]) * (1.0 + rs[|rs| - 1])
  }

  function CountTrue(bs: seq<bool>): (n: nat)
    ensures n <= |bs|
    decreases |bs|
  {
    if |bs| == 0 then 0 else CountTrue(bs[..|bs| - 1]) + (if bs[|bs| - 1] then 1 else 0)
  }

  /** The fraction of true entries, numpy's `mean` of a boolean array. */
  function Fraction(bs: seq<bool>): (f: real)
    requires |bs| > 0
    ensures 0.0 <= f <= 1.0
  {
    (CountTrue(bs) as real) / (|bs| as real)
  }

  predicate Distinct<T(==)>(xs: seq<T>)
  {
    forall i, j :: 0 <= i < j < |xs| ==> xs[i] != xs[j]
  }

  /** JavaScript's `Math.round`: halves go up. */
  function Round(x: real): (n: int)
    ensures x - 0.5 < n as real <= x + 0.5
  {
    (x + 0.5).Floor
  }

  lemma QuotientPositive(a: real, b: real)
    requires a > 0.0 && b > 0.0
    ensures a / b > 0.0
  {
  }

  lemma {:induction false} SumNonNegative(xs: seq<real>)
    requires forall i :: 0 <= i < |xs| ==> xs[i] >= 0.0
    ensures Sum(xs) >= 0.0
    decreases |xs|
  {
    if |xs| > 0 {
      SumNonNegative(xs[..|xs| - 1]);
    }
  }

  lemma {:induction false} SumPositive(xs: seq<real>)
    requires |xs| > 0
    requires forall i :: 0 <= i < |xs| ==> xs[i] > 0.0
    ensures Sum(xs) > 0.0
    decreases |xs|
  {
    SumNonNegative(xs[..|xs| - 1]);
  }

  lemma {:induction false} SumAppend(xs: seq<real>, ys: seq<real>)
    ensures Sum(xs + ys) == Sum(xs) + Sum(ys)
    decreases |ys|
  {
    if |ys| == 0 {
      assert xs + ys == xs;
    } else {
      assert (xs + ys)[..|xs + ys| - 1] == xs + ys[..|ys| - 1];
      SumAppend(xs, ys[..|ys| - 1]);
    }
  }

  /** Dividing every term by d divides the sum by d. */
  lemma {:induction false} SumDivide(xs: seq<real>, ys: seq<real>, d: real)
    requires d != 0.0 && |xs| == |ys|
    requires forall i :: 0 <= i < |xs| ==> ys[i] == xs[i] / d
    ensures Sum(ys) == Sum(xs) / d
    decreases |xs|
  {
    if |xs| > 0 {
      SumDivide(xs[..|xs| - 1], ys[..|ys| - 1], d);
    }
  }

  /** Sums of pointwise-ordered sequences are ordered. */
  lemma {:induction false} SumMonotone(xs: seq<real>, ys: seq<real>)
    requires |xs| == |ys|
    requires forall i :: 0 <= i < |xs| ==> xs[i] <= ys[i]
    ensures Sum(xs) <= Sum(ys)
    decreases |xs|
  {
    if |xs| > 0 {
      SumMonotone(xs[..|xs| - 1], ys[..|ys| - 1]);
    }
  }

  /** A sequence of equal values has that value as its mean. */
  lemma {:induction false} SumConstant(xs: seq<real>, c: real)
    requires forall i :: 0 <= i < |xs| ==> xs[i] == c
    ensures Sum(xs) == (|xs| as real) * c
    decreases |xs|
  {
    if |xs| > 0 {
      SumConstant(xs[..|xs| - 1], c);
    }
  }

  /** A prefix one longer is the shorter prefix and the next element. */
  lemma PrefixGrows<T>(xs: seq<T>, i: int)
    requires 0 <= i < |xs|
    ensures xs[..i + 1] == xs[..i] + [xs[i]]
  {
  }

  lemma {:induction false} CountTrueAppend(bs: seq<bool>, b: bool)
    ensures CountTrue(bs + [b]) == CountTrue(bs) + (if b then 1 else 0)
  {
    assert (bs + [b])[..|bs|] == bs;
  }

  lemma {:induction false} CountTrueAll(bs: seq<bool>)
    requires forall i :: 0 <= i < |bs| ==> bs[i]
    ensures CountTrue(bs) == |bs|
    decreases |bs|
  {
    if |bs| > 0 {
      CountTrueAll(bs[..|bs| - 1]);
    }
  }

  /** When every entry holds, the fraction is exactly 1. */
  lemma FractionAllTrue(bs: seq<bool>)
    requires |bs| > 0 && forall i :: 0 <= i < |bs| ==> bs[i]
    ensures Fraction(bs) == 1.0
  {
    CountTrueAll(bs);
    var n := |bs| as real;
    assert Fraction(bs) == n / n;
  }

  lemma {:induction false} CompoundAppend(rs: seq<real>, r: real)
    ensures Compound(rs + [r]) == Compound(rs) * (1.0 + r)
  {
    assert (rs + [r])[..|rs|] == rs;
  }

  /** numpy's `cumprod(1 + returns)`: the running growth after each month. */
  function CompoundSeries(rs: seq<real>): (c: seq<real>)
    ensures |c| == |rs|
    decreases |rs|
  {
    if |rs| == 0 then [] else CompoundSeries(rs[..|rs| - 1]) + [Compound(rs)]
  }

  /** Each point of the series is the product of (1 + r) over the months up to and including it. */
  lemma {:induction false} CompoundSeriesPoints(rs: seq<real>, k: int)
    requires 0 <= k < |rs|
    ensures CompoundSeries(rs)[k] == Compound(rs[..k + 1])
    decreases |rs|
  {
    var n := |rs| - 1;
    if k < n {
      CompoundSeriesPoints(rs[..n], k);
      assert rs[..n][..k + 1] == rs[..k + 1];
    } else {
      assert rs[..k + 1] == rs;
    }
  }
}
