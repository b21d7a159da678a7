/** Numeric building blocks shared by every stage of the screener: optional
    values standing for pandas' NaN, sums and means over windows, rolling
    extremes, the sample variance, the coefficient-of-variation test written
    without a square root, and closed-form least squares over x = 0..n-1. */
module Stats {

  /** `None` stands for pandas' NaN: a window that cannot be filled, a
      quotient with a zero denominator, a missing value. */
  datatype Option<+T> = None | Some(value: T)

  /** The outcome of a step that can raise in the source. */
  datatype Result<+T> = Ok(value: T) | Err(reason: string)

  function Abs(x: real): (r: real)
    ensures r >= 0.0 && (r == x || r == -x)
  {
    if x < 0.0 then -x else x
  }

  function Max(a: real, b: real): real { if a >= b then a else b }

  function Min(a: real, b: real): real { if a <= b then a else b }

  function MinNat(a: nat, b: nat): nat { if a <= b then a else b }

  /** The value, or the default that `pandas.isna`-guarded code substitutes. */
  function OrElse(o: Option<real>, default: real): real
  {
    match o
    case Some(v) => v
    case None => default
  }

  /** A comparison against a possibly absent value is false, as with NaN. */
  predicate Gt(o: Option<real>, t: real) { o.Some? && o.value > t }
  predicate Ge(o: Option<real>, t: real) { o.Some? && o.value >= t }
  predicate Lt(o: Option<real>, t: real) { o.Some? && o.value < t }

  /** `a / b`, absent when `b` is zero. */
  function Div(a: real, b: real): (r: Option<real>)
    ensures r.Some? <==> b != 0.0
    ensures r.Some? ==> r.value * b == a
  {
    if b == 0.0 then None else Some(a / b)
  }

  // ---------------------------------------------------------------------
  // Sums, means, extremes

  function Sum(s: seq<real>): real
    decreases |s|
  {
    if |s| == 0 then 0.0 else Sum(s[..|s| - 1]) + s[|s| - 1]
  }

  function Mean(s: seq<real>): real
    requires |s| > 0
  {
    Sum(s) / (|s| as real)
  }

  function MaxOf(s: seq<real>): (m: real)
    requires |s| > 0
    ensures forall i :: 0 <= i < |s| ==> s[i] <= m
    ensures exists i :: 0 <= i < |s| && s[i] == m
    decreases |s|
  {
    if |s| == 1 then s[0] else Max(MaxOf(s[..|s| - 1]), s[|s| - 1])
  }

  function MinOf(s: seq<real>): (m: real)
    requires |s| > 0
    ensures forall i :: 0 <= i < |s| ==> m <= s[i]
    ensures exists i :: 0 <= i < |s| && s[i] == m
    decreases |s|
  {
    if |s| == 1 then s[0] else Min(MinOf(s[..|s| - 1]), s[|s| - 1])
  }

  /** `max()` of a pandas column slice: NaN when the slice is empty. */
  function MaxOpt(s: seq<real>): (r: Option<real>)
    ensures r.Some? <==> |s| > 0
    ensures r.Some? ==> forall i :: 0 <= i < |s| ==> s[i] <= r.value
  {
    if |s| == 0 then None else Some(MaxOf(s))
  }

  /** Every element of `s` lies in [lo, hi], so the sum lies in [n*lo, n*hi]. */
  lemma {:induction false} SumBounds(s: seq<real>, lo: real, hi: real)
    requires forall i :: 0 <= i < |s| ==> lo <= s[i] <= hi
    ensures (|s| as real) * lo <= Sum(s) <= (|s| as real) * hi
    decreases |s|
  {
    if |s| > 0 {
      var p := s[..|s| - 1];
      var k := |p| as real;
      SumBounds(p, lo, hi);
      assert Sum(s) == Sum(p) + s[|s| - 1];
      assert (|s| as real) == k + 1.0;
      Distrib(k, lo);
      Distrib(k, hi);
    }
  }

  /** Dividing bounds `n*lo <= x <= n*hi` by a positive `n`. */
  lemma DivBounds(x: real, n: real, lo: real, hi: real)
    requires n > 0.0 && n * lo <= x <= n * hi
    ensures lo <= x / n <= hi
  {
    var q := x / n;
    assert q * n == x;
    if q < lo {
      MulStrict(q, lo, n);
    }
    if q > hi {
      MulStrict(hi, q, n);
    }
  }

  lemma Distrib(k: real, x: real)
    ensures (k + 1.0) * x == k * x + x
  {
  }

  lemma MulStrict(a: real, b: real, c: real)
    requires a < b && c > 0.0
    ensures a * c < b * c
  {
    assert b * c - a * c == (b - a) * c;
  }

  lemma MulMono(a: real, b: real, c: real)
    requires a <= b && c >= 0.0
    ensures a * c <= b * c
  {
    assert b * c - a * c == (b - a) * c;
  }

  lemma PositiveProduct(a: real, b: real)
    requires a > 0.0 && b > 0.0
    ensures a * b > 0.0
  {
    MulStrict(0.0, a, b);
  }

  lemma SquareNonneg(x: real)
    ensures x * x >= 0.0
  {
    if x < 0.0 {
      assert x * x == (-x) * (-x);
      MulMono(0.0, -x, -x);
    } else {
      MulMono(0.0, x, x);
    }
  }

  /** A mean lies within any bounds of its elements. */
  lemma MeanBounds(s: seq<real>, lo: real, hi: real)
    requires |s| > 0
    requires forall i :: 0 <= i < |s| ==> lo <= s[i] <= hi
    ensures lo <= Mean(s) <= hi
  {
    SumBounds(s, lo, hi);
    DivBounds(Sum(s), |s| as real, lo, hi);
  }

  lemma MeanNonnegative(s: seq<real>)
    requires |s| > 0
    requires forall i :: 0 <= i < |s| ==> s[i] >= 0.0
    ensures Mean(s) >= 0.0
  {
    SumBounds(s, 0.0, MaxOf(s));
    DivBounds(Sum(s), |s| as real, 0.0, MaxOf(s));
  }

  /** The mean of a sequence all of whose elements equal `c` is `c`. */
  lemma MeanOfConstant(s: seq<real>, c: real)
    requires |s| > 0
    requires forall i :: 0 <= i < |s| ==> s[i] == c
    ensures Mean(s) == c
  {
    MeanBounds(s, c, c);
  }

  /** The sum of a concatenation. */
  lemma {:induction false} SumAppend(a: seq<real>, b: seq<real>)
    ensures Sum(a + b) == Sum(a) + Sum(b)
    decreases |b|
  {
    if |b| > 0 {
      var ab := a + b;
      assert ab[..|ab| - 1] == a + b[..|b| - 1];
      SumAppend(a, b[..|b| - 1]);
    } else {
      assert a + b == a;
    }
  }

  // ---------------------------------------------------------------------
  // Windows

  /** The `w` values ending at index `i`: `s[i-w+1..i+1]`. */
  function Window<T>(s: seq<T>, i: nat, w: nat): (r: seq<T>)
    requires w <= i + 1 <= |s|
    ensures |r| == w
    ensures forall k :: 0 <= k < w ==> r[k] == s[i + 1 - w + k]
  {
    s[i + 1 - w .. i + 1]
  }

  /** pandas `tail(n)`: the last `min(n, |s|)` elements. */
  function Tail<T>(s: seq<T>, n: nat): (r: seq<T>)
    ensures |r| == MinNat(n, |s|)
    ensures forall k :: 0 <= k < |r| ==> r[k] == s[|s| - |r| + k]
  {
    s[|s| - MinNat(n, |s|)..]
  }

  /** pandas `head(n)`: the first `min(n, |s|)` elements. */
  function Head<T>(s: seq<T>, n: nat): (r: seq<T>)
    ensures |r| == MinNat(n, |s|)
    ensures forall k :: 0 <= k < |r| ==> r[k] == s[k]
  {
    s[..MinNat(n, |s|)]
  }

  /** The present values of a column, in order (what pandas' `mean()` sees,
      since it skips NaN). */
  function Present(s: seq<Option<real>>): (r: seq<real>)
    ensures |r| <= |s|
    ensures (exists i :: 0 <= i < |s| && s[i].Some?) <==> |r| > 0
    decreases |s|
  {
    if |s| == 0 then []
    else Present(s[..|s| - 1]) + (if s[|s| - 1].Some? then [s[|s| - 1].value] else [])
  }

  /** pandas `mean()` with its default `skipna=True`: absent when no value is. */
  function MeanSkipNa(s: seq<Option<real>>): (r: Option<real>)
    ensures r.Some? <==> exists i :: 0 <= i < |s| && s[i].Some?
  {
    var p := Present(s);
    if |p| == 0 then None else Some(Mean(p))
  }

  function CountTrue(s: seq<bool>): (c: nat)
    ensures c <= |s|
    decreases |s|
  {
    if |s| == 0 then 0 else CountTrue(s[..|s| - 1]) + (if s[|s| - 1] then 1 else 0)
  }

  // ---------------------------------------------------------------------
  // Variance and the coefficient-of-variation test

  function SumSqDev(s: seq<real>, m: real): (r: real)
    ensures r >= 0.0
    decreases |s|
  {
    if |s| == 0 then 0.0
    else
      var d := s[|s| - 1] - m;
      SquareNonneg(d);
      SumSqDev(s[..|s| - 1], m) + d * d
  }

  /** Sample variance (pandas' default `ddof=1`). */
  function Variance(s: seq<real>): (v: real)
    requires |s| >= 2
    ensures v >= 0.0
  {
    SumSqDev(s, Mean(s)) / ((|s| - 1) as real)
  }

  /** A square-root function, as the caller supplies one for `std()`. */
  ghost predicate IsSquareRoot(sqrt: real -> real)
  {
    forall x {:trigger sqrt(x)} :: x >= 0.0 ==> sqrt(x) >= 0.0 && sqrt(x) * sqrt(x) == x
  }

  /** `s.std() / s.mean() < t` evaluated as pandas does, without taking the
      square root: std is NaN below two values, and a zero mean gives NaN or
      +inf, neither of which is below `t`. */
  predicate CvBelow(s: seq<real>, t: real)
  {
    && |s| >= 2
    && var m, v := Mean(s), Variance(s);
       if m > 0.0 then t * m > 0.0 && v < (t * m) * (t * m)
       else if m < 0.0 then t * m < 0.0 || v > (t * m) * (t * m)
       else false
  }

  lemma SquareMonotone(a: real, b: real)
    requires 0.0 <= a && 0.0 <= b
    ensures a < b <==> a * a < b * b
  {
    assert b * b - a * a == (b - a) * (b + a);
    if a < b {
      MulStrict(0.0, b - a, b + a);
    } else if a > b {
      MulStrict(0.0, a - b, a + b);
    }
  }

  /** `CvBelow` is exactly the test `sd / mean < t` for the standard
      deviation `sd`, the square root of the variance. */
  lemma CvBelowIsRatioTest(s: seq<real>, t: real, sd: real)
    requires |s| >= 2 && Mean(s) != 0.0
    requires sd >= 0.0 && sd * sd == Variance(s)
    ensures CvBelow(s, t) <==> sd / Mean(s) < t
  {
    RatioTestOnValues(Mean(s), Variance(s), t, sd);
  }

  /** The square-free form of `sd / m < t` on plain numbers. */
  lemma RatioTestOnValues(m: real, v: real, t: real, sd: real)
    requires m != 0.0 && sd >= 0.0 && sd * sd == v
    ensures sd / m < t <==>
      if m > 0.0 then t * m > 0.0 && v < (t * m) * (t * m)
      else t * m < 0.0 || v > (t * m) * (t * m)
  {
    var tm := t * m;
    if m > 0.0 {
      assert sd / m < t <==> sd < tm;
      if tm > 0.0 {
        SquareMonotone(sd, tm);
      }
    } else {
      assert sd / m < t <==> sd > tm;
      if tm >= 0.0 {
        SquareMonotone(tm, sd);
      }
    }
  }

  /** Every element of a constant sequence equals its mean, so its variance is 0. */
  lemma {:induction false} SumSqDevOfConstant(s: seq<real>, c: real)
    requires forall i :: 0 <= i < |s| ==> s[i] == c
    ensures SumSqDev(s, c) == 0.0
    decreases |s|
  {
    if |s| > 0 {
      SumSqDevOfConstant(s[..|s| - 1], c);
    }
  }

  lemma VarianceOfZeroDeviation(s: seq<real>)
    requires |s| >= 2 && SumSqDev(s, Mean(s)) == 0.0
    ensures Variance(s) == 0.0
  {
  }

  /** A constant positive run always passes a positive CV threshold. */
  lemma ConstantIsCalm(s: seq<real>, c: real, t: real)
    requires |s| >= 2 && c > 0.0 && t > 0.0
    requires forall i :: 0 <= i < |s| ==> s[i] == c
    ensures CvBelow(s, t)
  {
    MeanOfConstant(s, c);
    SumSqDevOfConstant(s, c);
    VarianceOfZeroDeviation(s);
    CvBelowIsRatioTest(s, t, 0.0);
  }

  // ---------------------------------------------------------------------
  // Least squares over x = 0, 1, ..., n-1 (scipy `linregress`, `np.polyfit` degree 1)
  //
  // With x = 0..n-1 the normal equations have sum(x) = n(n-1)/2 and
  // n*sum(x^2) - sum(x)^2 = n^2(n-1)(n+1)/12, so the slope
  // (n*sum(xy) - sum(x)*sum(y)) / (n*sum(x^2) - sum(x)^2) reduces to
  // (12*sum(xy) - 6(n-1)*sum(y)) / (n(n-1)(n+1)).

  /** 0 + 1 + ... + (n-1) */
  function SumIdx(n: nat): int
  {
    if n == 0 then 0 else SumIdx(n - 1) + (n - 1)
  }

  /** 0^2 + 1^2 + ... + (n-1)^2 */
  function SumIdxSq(n: nat): int
  {
    if n == 0 then 0 else SumIdxSq(n - 1) + (n - 1) * (n - 1)
  }

  function SumX(n: nat): real { SumIdx(n) as real }

  function SumXX(n: nat): real { SumIdxSq(n) as real }

  /** sum of i * y[i] */
  function SumXY(y: seq<real>): real
    decreases |y|
  {
    if |y| == 0 then 0.0 else SumXY(y[..|y| - 1]) + ((|y| - 1) as real) * y[|y| - 1]
  }

  lemma {:induction false} SumIdxClosed(n: nat)
    ensures 2 * SumIdx(n) == n * (n - 1)
    ensures 6 * SumIdxSq(n) == (n - 1) * n * (2 * n - 1)
  {
    if n > 0 {
      SumIdxClosed(n - 1);
    }
  }

  lemma CastProducts(n: int)
    ensures ((n * (n - 1)) as real) == (n as real) * ((n as real) - 1.0)
    ensures (((n - 1) * n * (2 * n - 1)) as real)
            == ((n as real) - 1.0) * (n as real) * (2.0 * (n as real) - 1.0)
  {
  }

  /** The closed forms of the two index sums. */
  predicate IndexSumsClosed(n: real, sx: real, sxx: real)
  {
    2.0 * sx == n * (n - 1.0) && 6.0 * sxx == (n - 1.0) * n * (2.0 * n - 1.0)
  }

  /** `sy` and `sxy` are the sums of the line a + b*i over i = 0..n-1. */
  predicate LineSums(n: real, sx: real, sxx: real, sy: real, sxy: real, a: real, b: real)
  {
    sy == n * a + b * sx && sxy == a * sx + b * sxx
  }

  lemma SumXClosed(n: nat)
    ensures IndexSumsClosed(n as real, SumX(n), SumXX(n))
  {
    SumIdxClosed(n);
    CastProducts(n);
  }

  /** The slope from the two sums of `n` points at x = 0..n-1. */
  function SlopeFromSums(n: real, sy: real, sxy: real): real
    requires n >= 2.0
  {
    PositiveProduct(n, n - 1.0);
    PositiveProduct(n * (n - 1.0), n + 1.0);
    (12.0 * sxy - 6.0 * (n - 1.0) * sy) / (n * (n - 1.0) * (n + 1.0))
  }

  /** Ordinary least-squares slope of `y` against x = 0..n-1. */
  function Slope(y: seq<real>): real
    requires |y| >= 2
  {
    SlopeFromSums(|y| as real, Sum(y), SumXY(y))
  }

  /** The intercept mean(y) - slope * mean(x), from the sums of `n` points. */
  function InterceptFromSums(n: real, sx: real, sy: real, slope: real): real
    requires n > 0.0
  {
    (sy - slope * sx) / n
  }

  /** Ordinary least-squares intercept of `y` against x = 0..n-1. */
  function Intercept(y: seq<real>): real
    requires |y| >= 2
  {
    InterceptFromSums(|y| as real, SumX(|y|), Sum(y), Slope(y))
  }

  lemma {:induction false} SumOfLine(y: seq<real>, a: real, b: real)
    requires forall i :: 0 <= i < |y| ==> y[i] == a + b * (i as real)
    ensures Sum(y) == (|y| as real) * a + b * SumX(|y|)
    ensures SumXY(y) == a * SumX(|y|) + b * SumXX(|y|)
    decreases |y|
  {
    if |y| > 0 {
      var n := |y|;
      SumOfLine(y[..n - 1], a, b);
      var k := (n - 1) as real;
      assert y[n - 1] == a + b * k;
      assert k * y[n - 1] == a * k + b * (k * k);
    }
  }

  /** The slope of a straight line, with the sums in closed form. */
  lemma LineArithmetic(n: real, sx: real, sxx: real, sy: real, sxy: real, a: real, b: real)
    requires n >= 2.0
    requires IndexSumsClosed(n, sx, sxx)
    requires LineSums(n, sx, sxx, sy, sxy, a, b)
    ensures SlopeFromSums(n, sy, sxy) == b
  {
    var d := n * (n - 1.0) * (n + 1.0);
    PositiveProduct(n, n - 1.0);
    PositiveProduct(n * (n - 1.0), n + 1.0);
    assert 12.0 * sxy == 6.0 * a * (2.0 * sx) + 2.0 * b * (6.0 * sxx);
    assert 6.0 * (n - 1.0) * sy == 6.0 * (n - 1.0) * n * a + 3.0 * b * (n - 1.0) * (2.0 * sx);
    DivExact(12.0 * sxy - 6.0 * (n - 1.0) * sy, d, b);
  }

  lemma DivExact(x: real, d: real, b: real)
    requires d != 0.0 && x == b * d
    ensures x / d == b
  {
  }

  lemma InterceptArithmetic(n: real, sx: real, sy: real, a: real, b: real)
    requires n > 0.0 && sy == n * a + b * sx
    ensures InterceptFromSums(n, sx, sy, b) == a
  {
  }

  /** Least squares recovers a straight line exactly: for y[i] = a + b*i the
      slope is b and the intercept a. */
  lemma SlopeOfLine(y: seq<real>, a: real, b: real)
    requires |y| >= 2
    requires forall i :: 0 <= i < |y| ==> y[i] == a + b * (i as real)
    ensures Slope(y) == b
    ensures Intercept(y) == a
  {
    assert LineSums(|y| as real, SumX(|y|), SumXX(|y|), Sum(y), SumXY(y), a, b) by {
      SumOfLine(y, a, b);
    }
    SlopeOfSums(y, a, b);
    InterceptOfSums(y, a, b);
  }

  lemma InterceptOfSums(y: seq<real>, a: real, b: real)
    requires |y| >= 2
    requires LineSums(|y| as real, SumX(|y|), SumXX(|y|), Sum(y), SumXY(y), a, b)
    ensures InterceptFromSums(|y| as real, SumX(|y|), Sum(y), b) == a
  {
    InterceptArithmetic(|y| as real, SumX(|y|), Sum(y), a, b);
  }

  lemma SlopeOfSums(y: seq<real>, a: real, b: real)
    requires |y| >= 2
    requires LineSums(|y| as real, SumX(|y|), SumXX(|y|), Sum(y), SumXY(y), a, b)
    ensures Slope(y) == b
  {
    SumXClosed(|y|);
    LineArithmetic(|y| as real, SumX(|y|), SumXX(|y|), Sum(y), SumXY(y), a, b);
  }

  /** A constant window has slope zero. */
  lemma SlopeOfConstant(y: seq<real>, c: real)
    requires |y| >= 2
    requires forall i :: 0 <= i < |y| ==> y[i] == c
    ensures Slope(y) == 0.0
  {
    forall i | 0 <= i < |y| ensures y[i] == c + 0.0 * (i as real) { }
    SlopeOfLine(y, c, 0.0);
  }
}
