/**
 * The metric helpers of the assets router (routes/assets.js): the guarded and
 * clamped Pearson correlation and its matrix, the annualised covariance, beta,
 * the Sharpe, Treynor and Jensen figures for a reporting period, annualised
 * return and volatility, maximum drawdown, daily returns from a price history,
 * the portfolio's volatility and drawdown, and the sector recommendations.
 */
module AssetMetrics {
  import opened Numerics
  import opened Sectors

  // Reporting periods

  /** The keys of the period table: '1M', '3M', '6M' and '1Y'. */
  datatype Period = OneMonth | ThreeMonths | SixMonths | OneYear

  /** Trading days in the period. */
  function Days(p: Period): (d: nat)
    ensures 21 <= d <= 252
  {
    match p
    case OneMonth => 21
    case ThreeMonths => 63
    case SixMonths => 126
    case OneYear => 252
  }

  /** The period as a fraction of a year: the days of the period out of 252. */
  function Factor(p: Period): (f: real)
    ensures 0.0 < f <= 1.0
    ensures f * 252.0 == Days(p) as real
  {
    match p
    case OneMonth => 1.0 / 12.0
    case ThreeMonths => 1.0 / 4.0
    case SixMonths => 1.0 / 2.0
    case OneYear => 1.0
  }

  const AnnualRiskFreeRate: real := 0.035

  /** The risk-free rate compounded over the period: (1 + 3.5%)^factor − 1, `pow` being `Math.pow`. */
  function PeriodicRiskFreeRate(p: Period, pow: (real, real) -> real): real {
    pow(1.0 + AnnualRiskFreeRate, Factor(p)) - 1.0
  }

  // Sharpe, Treynor and Jensen

  /** `calculateSharpeRatio`: the excess return per unit of volatility, 0 when the volatility is 0. */
  function SharpeRatio(ret: real, vol: real, p: Period, pow: (real, real) -> real): (s: real)
    ensures vol == 0.0 ==> s == 0.0
    ensures vol != 0.0 ==> s * vol == ret - PeriodicRiskFreeRate(p, pow)
  {
    if vol == 0.0 then 0.0 else (ret - PeriodicRiskFreeRate(p, pow)) / vol
  }

  /** `calculateTreynorRatio`: the excess return per unit of beta, 0 when beta is 0. */
  function TreynorRatio(ret: real, beta: real, p: Period, pow: (real, real) -> real): (t: real)
    ensures beta == 0.0 ==> t == 0.0
    ensures beta != 0.0 ==> t * beta == ret - PeriodicRiskFreeRate(p, pow)
  {
    if beta == 0.0 then 0.0 else (ret - PeriodicRiskFreeRate(p, pow)) / beta
  }

  /** With a positive volatility, a higher return never has a lower Sharpe ratio. */
  lemma SharpeRatioMonotone(ret: real, ret': real, vol: real, p: Period, pow: (real, real) -> real)
    requires 0.0 < vol && ret <= ret'
    ensures SharpeRatio(ret, vol, p, pow) <= SharpeRatio(ret', vol, p, pow)
  {
    var s, s' := SharpeRatio(ret, vol, p, pow), SharpeRatio(ret', vol, p, pow);
    assert (s' - s) * vol == ret' - ret;
    if s' < s {
      ProductPositive(s - s', vol);
    }
  }

  /** The return the capital asset pricing model expects for beta: rf + beta × (market − rf). */
  function CapmReturn(beta: real, market: real, p: Period, pow: (real, real) -> real): real {
    var rf := PeriodicRiskFreeRate(p, pow);
    rf + beta * (market - rf)
  }

  /** `calculateAlpha`: Jensen's alpha, the return in excess of what the pricing model expects. */
  function Alpha(ret: real, beta: real, market: real, p: Period, pow: (real, real) -> real): (a: real)
    ensures a == 0.0 <==> ret == CapmReturn(beta, market, p, pow)
    ensures a > 0.0 <==> ret > CapmReturn(beta, market, p, pow)
  {
    ret - CapmReturn(beta, market, p, pow)
  }

  // Pearson correlation

  /** The sums of the Pearson quotient: Σ d1·d2, Σ d1², Σ d2² over the first n pairs, both means dividing a whole-series sum by n. */
  function PearsonSums(r1: seq<real>, r2: seq<real>): (sums: (real, real, real))
    requires 0 < |r1| && 0 < |r2|
    ensures 0.0 <= sums.1 && 0.0 <= sums.2
  {
    var n := Min(|r1|, |r2|);
    var m1, m2 := Sum(r1) / n as real, Sum(r2) / n as real;
    CentredSquaresNonNegative(r1, m1, n);
    CentredSquaresNonNegative(r2, m2, n);
    (CentredCross(r1, r2, m1, m2, n), CentredCross(r1, r1, m1, m1, n), CentredCross(r2, r2, m2, m2, n))
  }

  /** The Pearson quotient num / √(d1·d2) of positive deviation sums. */
  function PearsonQuotient(num: real, d1: real, d2: real, sqrt: real -> real): real
    requires IsSqrt(sqrt) && 0.0 < d1 && 0.0 < d2
  {
    ProductPositive(d1, d2);
    SqrtPositive(sqrt, d1 * d2);
    num / sqrt(d1 * d2)
  }

  /** The last step of `calculateCorrelation`: 0 when a deviation sum is 0, else the quotient clamped to [−1, 1]. */
  function ClampedQuotient(num: real, d1: real, d2: real, sqrt: real -> real): (c: real)
    requires IsSqrt(sqrt) && 0.0 <= d1 && 0.0 <= d2
    ensures -1.0 <= c <= 1.0
  {
    if d1 == 0.0 || d2 == 0.0 then 0.0 else Clamp(PearsonQuotient(num, d1, d2, sqrt), -1.0, 1.0)
  }

  /**
   * `calculateCorrelation`: 0 when either series has fewer than 2 points or a
   * deviation sum is 0; otherwise the Pearson quotient clamped to [−1, 1].
   */
  function Correlation(r1: seq<real>, r2: seq<real>, sqrt: real -> real): (c: real)
    requires IsSqrt(sqrt)
    ensures -1.0 <= c <= 1.0
    ensures |r1| < 2 || |r2| < 2 ==> c == 0.0
  {
    if |r1| < 2 || |r2| < 2 then 0.0
    else
      var sums := PearsonSums(r1, r2);
      ClampedQuotient(sums.0, sums.1, sums.2, sqrt)
  }

  /** A zero deviation sum gives correlation 0. */
  lemma CorrelationDegenerate(r1: seq<real>, r2: seq<real>, sqrt: real -> real)
    requires IsSqrt(sqrt) && 2 <= |r1| && 2 <= |r2|
    requires PearsonSums(r1, r2).1 == 0.0 || PearsonSums(r1, r2).2 == 0.0
    ensures Correlation(r1, r2, sqrt) == 0.0
  {
  }

  /**
   * With an exact square root the clamp never cuts: by Cauchy–Schwarz the
   * quotient already lies in [−1, 1], so the result is the plain Pearson quotient.
   */
  lemma CorrelationUnclamped(r1: seq<real>, r2: seq<real>, sqrt: real -> real)
    requires IsSqrt(sqrt) && 2 <= |r1| && 2 <= |r2|
    requires PearsonSums(r1, r2).1 != 0.0 && PearsonSums(r1, r2).2 != 0.0
    ensures Correlation(r1, r2, sqrt) == PearsonQuotient(PearsonSums(r1, r2).0, PearsonSums(r1, r2).1, PearsonSums(r1, r2).2, sqrt)
  {
    var n := Min(|r1|, |r2|);
    var m1, m2 := Sum(r1) / n as real, Sum(r2) / n as real;
    CauchySchwarz(r1, r2, m1, m2, n);
    var sums := PearsonSums(r1, r2);
    ClampInactive(sums.0, sums.1, sums.2, sqrt);
  }

  /** When num² ≤ d1·d2 the quotient num / √(d1·d2) needs no clamping. */
  lemma ClampInactive(num: real, d1: real, d2: real, sqrt: real -> real)
    requires IsSqrt(sqrt) && CauchyHolds(d1, d2, num) && d1 != 0.0 && d2 != 0.0
    ensures ClampedQuotient(num, d1, d2, sqrt) == PearsonQuotient(num, d1, d2, sqrt)
  {
    ProductPositive(d1, d2);
    SqrtPositive(sqrt, d1 * d2);
    CorrelationQuotientBounded(sqrt, num, d1, d2);
  }

  /** The correlation does not depend on the order of its arguments. */
  lemma CorrelationSymmetric(r1: seq<real>, r2: seq<real>, sqrt: real -> real)
    requires IsSqrt(sqrt)
    ensures Correlation(r1, r2, sqrt) == Correlation(r2, r1, sqrt)
  {
    if 2 <= |r1| && 2 <= |r2| {
      var n := Min(|r1|, |r2|);
      assert n == Min(|r2|, |r1|);
      var m1, m2 := Sum(r1) / n as real, Sum(r2) / n as real;
      CentredCrossSymmetric(r1, r2, m1, m2, n);
      var sums := PearsonSums(r1, r2);
    var num, d1, d2 := sums.0, sums.1, sums.2;
      assert PearsonSums(r2, r1) == (num, d2, d1);
      ProductCommutes(d1, d2);
    }
  }

  lemma ProductCommutes(a: real, b: real)
    ensures a * b == b * a
  {
  }

  /** A series with some spread is perfectly correlated with itself. */
  lemma CorrelationWithItself(r: seq<real>, sqrt: real -> real)
    requires IsSqrt(sqrt) && 2 <= |r| && PearsonSums(r, r).1 != 0.0
    ensures Correlation(r, r, sqrt) == 1.0
  {
    var sums := PearsonSums(r, r);
    var num, d1, d2 := sums.0, sums.1, sums.2;
    assert num == d1 && d2 == d1;
    SqrtOfSquare(sqrt, d1);
    assert sqrt(d1 * d2) == d1;
  }

  /** The correlation loop, proved to compute `Correlation`. */
  method CalculateCorrelation(r1: seq<real>, r2: seq<real>, sqrt: real -> real) returns (c: real)
    requires IsSqrt(sqrt)
    ensures c == Correlation(r1, r2, sqrt)
  {
    if |r1| < 2 || |r2| < 2 {
      return 0.0;
    }
    var n := Min(|r1|, |r2|);
    var mean1, mean2 := Sum(r1) / n as real, Sum(r2) / n as real;
    var numerator, denominator1, denominator2 := CentredSums(r1, r2, mean1, mean2, n);
    assert PearsonSums(r1, r2) == (numerator, denominator1, denominator2);
    if denominator1 == 0.0 || denominator2 == 0.0 {
      return 0.0;
    }
    c := ClampedQuotient(numerator, denominator1, denominator2, sqrt);
  }

  /** One asset's symbol and daily returns. */
  datatype AssetReturns = AssetReturns(symbol: string, daily: seq<real>)

  /** Entry (i, j) of the correlation matrix: exactly 1 on the diagonal. */
  function CorrelationEntry(assets: seq<AssetReturns>, i: nat, j: nat, sqrt: real -> real): (c: real)
    requires IsSqrt(sqrt) && i < |assets| && j < |assets|
    ensures -1.0 <= c <= 1.0
    ensures i == j ==> c == 1.0
  {
    if i == j then 1.0 else Correlation(assets[i].daily, assets[j].daily, sqrt)
  }

  /** The matrix is symmetric: entry (i, j) equals entry (j, i). */
  lemma CorrelationEntrySymmetric(assets: seq<AssetReturns>, i: nat, j: nat, sqrt: real -> real)
    requires IsSqrt(sqrt) && i < |assets| && j < |assets|
    ensures CorrelationEntry(assets, i, j, sqrt) == CorrelationEntry(assets, j, i, sqrt)
  {
    CorrelationSymmetric(assets[i].daily, assets[j].daily, sqrt);
  }

  /**
   * `calculateCorrelationMatrix`: the symbols in input order and an N×N matrix
   * of correlations with 1 on the diagonal, symmetric and bounded by 1.
   */
  method CalculateCorrelationMatrix(assets: seq<AssetReturns>, sqrt: real -> real)
    returns (symbols: seq<string>, matrix: Matrix)
    requires IsSqrt(sqrt)
    ensures |symbols| == |assets| && forall i :: 0 <= i < |assets| ==> symbols[i] == assets[i].symbol
    ensures IsSquare(matrix, |assets|)
    ensures forall i, j :: 0 <= i < |assets| && 0 <= j < |assets| ==> matrix[i][j] == CorrelationEntry(assets, i, j, sqrt)
    ensures IsSymmetric(matrix)
  {
    var n := |assets|;
    symbols := seq(n, i requires 0 <= i < n => assets[i].symbol);
    matrix := [];
    for i := 0 to n
      invariant |matrix| == i
      invariant forall k :: 0 <= k < i ==> |matrix[k]| == n
      invariant forall k, j :: 0 <= k < i && 0 <= j < n ==> matrix[k][j] == CorrelationEntry(assets, k, j, sqrt)
    {
      var row: seq<real> := [];
      for j := 0 to n
        invariant |row| == j
        invariant forall l :: 0 <= l < j ==> row[l] == CorrelationEntry(assets, i, l, sqrt)
      {
        if i == j {
          row := row + [1.0];
        } else {
          var c := CalculateCorrelation(assets[i].daily, assets[j].daily, sqrt);
          row := row + [c];
        }
      }
      matrix := matrix + [row];
    }
    forall i, j | 0 <= i < n && 0 <= j < n
      ensures matrix[i][j] == matrix[j][i]
    {
      CorrelationEntrySymmetric(assets, i, j, sqrt);
    }
  }

  // Covariance and beta

  /**
   * `calculateCovariance`: the sample covariance annualised by 252, or 0 when
   * the lengths differ or there are fewer than 2 points.
   */
  function Covariance(r1: seq<real>, r2: seq<real>): (c: real)
    ensures |r1| != |r2| || |r1| < 2 ==> c == 0.0
  {
    if |r1| != |r2| || |r1| < 2 then 0.0
    else CentredCross(r1, r2, Mean(r1), Mean(r2), |r1|) / (|r1| - 1) as real * 252.0
  }

  lemma CovarianceSymmetric(r1: seq<real>, r2: seq<real>)
    ensures Covariance(r1, r2) == Covariance(r2, r1)
  {
    if |r1| == |r2| && 2 <= |r1| {
      CentredCrossSymmetric(r1, r2, Mean(r1), Mean(r2), |r1|);
    }
  }

  /** The covariance of a series with itself, its annualised variance, is never negative. */
  lemma VarianceNonNegative(r: seq<real>)
    ensures 0.0 <= Covariance(r, r)
  {
    if 2 <= |r| {
      CentredSquaresNonNegative(r, Mean(r), |r|);
    }
  }

  /** The covariance loop, proved to compute `Covariance`. */
  method CalculateCovariance(r1: seq<real>, r2: seq<real>) returns (c: real)
    ensures c == Covariance(r1, r2)
  {
    if |r1| != |r2| || |r1| < 2 {
      return 0.0;
    }
    var mean1, mean2 := Mean(r1), Mean(r2);
    var covariance := 0.0;
    for i := 0 to |r1|
      invariant covariance == CentredCross(r1, r2, mean1, mean2, i)
    {
      covariance := covariance + (r1[i] - mean1) * (r2[i] - mean2);
    }
    c := covariance / (|r1| - 1) as real * 252.0;
  }

  /**
   * `calculateBeta`: 1 when either series is empty or the market does not
   * vary; otherwise the covariance over the shorter length divided by the
   * market variance, each series centred on the mean of its whole length. A
   * common length of 1 divides by 0 and gives NaN (None).
   */
  function Beta(asset: seq<real>, market: seq<real>): (b: Option<real>)
    ensures |asset| == 0 || |market| == 0 ==> b == Some(1.0)
    ensures b.None? <==> 0 < |asset| && 0 < |market| && Min(|asset|, |market|) == 1
  {
    if |asset| == 0 || |market| == 0 then Some(1.0)
    else
      var n := Min(|asset|, |market|);
      if n == 1 then None
      else
        var covariance := CentredCross(asset, market, Mean(asset), Mean(market), n) / (n - 1) as real;
        var variance := CentredCross(market, market, Mean(market), Mean(market), n) / (n - 1) as real;
        if variance != 0.0 then Some(covariance / variance) else Some(1.0)
  }

  /** The market's beta against itself is 1. */
  lemma BetaOfMarket(market: seq<real>)
    requires 2 <= |market|
    ensures Beta(market, market) == Some(1.0)
  {
    var n := |market|;
    var v := CentredCross(market, market, Mean(market), Mean(market), n) / (n - 1) as real;
    assert Beta(market, market) == if v != 0.0 then Some(v / v) else Some(1.0);
    if v != 0.0 {
      assert v / v == 1.0;
    }
  }

  /**
   * Measured against itself, the market has no alpha: its beta is 1 and its
   * annualised return is exactly what the pricing model expects of it.
   */
  lemma AlphaOfMarketSeries(market: seq<real>, p: Period, pow: (real, real) -> real)
    requires 2 <= |market|
    ensures Beta(market, market).Some?
    ensures Alpha(AnnualizedReturn(market, pow), Beta(market, market).value, AnnualizedReturn(market, pow), p, pow) == 0.0
  {
    BetaOfMarket(market);
  }

  /** A market that does not vary over the common length gives beta 1. */
  lemma BetaOfFlatMarket(asset: seq<real>, market: seq<real>)
    requires 2 <= |asset| && 2 <= |market|
    requires CentredCross(market, market, Mean(market), Mean(market), Min(|asset|, |market|)) == 0.0
    ensures Beta(asset, market) == Some(1.0)
  {
  }

  /** The beta loop, proved to compute `Beta`. */
  method CalculateBeta(asset: seq<real>, market: seq<real>) returns (b: Option<real>)
    ensures b == Beta(asset, market)
  {
    if |asset| == 0 || |market| == 0 {
      return Some(1.0);
    }
    var avgAsset, avgMarket := Mean(asset), Mean(market);
    var length := Min(|asset|, |market|);
    var covariance, variance := CalculateBetaSums(asset, market, avgAsset, avgMarket, length);
    if length == 1 {
      return None;
    }
    covariance := covariance / (length - 1) as real;
    variance := variance / (length - 1) as real;
    b := if variance != 0.0 then Some(covariance / variance) else Some(1.0);
  }

  /** The beta loop's two centred sums over the first n pairs. */
  method CalculateBetaSums(asset: seq<real>, market: seq<real>, avgAsset: real, avgMarket: real, n: nat)
    returns (covariance: real, variance: real)
    requires n <= |asset| && n <= |market|
    ensures covariance == CentredCross(asset, market, avgAsset, avgMarket, n)
    ensures variance == CentredCross(market, market, avgMarket, avgMarket, n)
  {
    covariance, variance := 0.0, 0.0;
    for i := 0 to n
      invariant covariance == CentredCross(asset, market, avgAsset, avgMarket, i)
      invariant variance == CentredCross(market, market, avgMarket, avgMarket, i)
    {
      covariance := covariance + (asset[i] - avgAsset) * (market[i] - avgMarket);
      variance := variance + (market[i] - avgMarket) * (market[i] - avgMarket);
    }
  }

  // Annualised return and volatility

  /** Π (1 + r) − 1: the return of compounding every daily return. */
  function TotalReturn(rs: seq<real>): real {
    Growth(rs, |rs|) - 1.0
  }

  /** `calculateAnnualizedReturn`: the total return scaled to 252 trading days, 0 for no returns. */
  function AnnualizedReturn(rs: seq<real>, pow: (real, real) -> real): (a: real)
    ensures |rs| == 0 ==> a == 0.0
  {
    if |rs| == 0 then 0.0 else pow(1.0 + TotalReturn(rs), 252.0 / |rs| as real) - 1.0
  }

  /**
   * Over the simple returns of a price series, the annualised return is the
   * ratio of the last price to the first raised to 252 over the number of returns.
   */
  lemma AnnualizedReturnOfPrices(p: seq<real>, pow: (real, real) -> real)
    requires NonZeroBases(p) && 2 <= |p|
    ensures AnnualizedReturn(SimpleReturns(p), pow) == pow(p[|p| - 1] / p[0], 252.0 / (|p| - 1) as real) - 1.0
  {
    var rs := SimpleReturns(p);
    GrowthOfPrices(p, |p| - 1);
    assert 1.0 + TotalReturn(rs) == p[|p| - 1] / p[0];
  }

  /** `returns.slice(-days)`: the last `days` entries, or all of them when there are fewer. */
  function Window(rs: seq<real>, days: nat): (w: seq<real>)
    ensures |w| == Min(|rs|, days)
    ensures forall i :: 0 <= i < |w| ==> w[i] == rs[|rs| - |w| + i]
  {
    if days >= |rs| then rs else rs[|rs| - days..]
  }

  /** Σ (r − mean)² / (n − 1): the sample variance, never negative. */
  function SampleVariance(w: seq<real>): (v: real)
    requires 2 <= |w|
    ensures 0.0 <= v
  {
    var mean := Mean(w);
    CentredSquaresNonNegative(w, mean, |w|);
    CentredCross(w, w, mean, mean, |w|) / (|w| - 1) as real
  }

  /**
   * `calculateAnnualizedVolatility`: the sample standard deviation of the last
   * `days` returns of the period, scaled by √252; 0 with fewer than 2 returns.
   */
  function AnnualizedVolatility(rs: seq<real>, p: Period, sqrt: real -> real): (v: real)
    ensures |rs| < 2 ==> v == 0.0
    ensures IsSqrt(sqrt) ==> 0.0 <= v
  {
    if |rs| < 2 then 0.0
    else
      var w := Window(rs, Days(p));
      if |w| < 2 then 0.0 else sqrt(SampleVariance(w)) * sqrt(252.0)
  }

  lemma ProductNonNegative(a: real, b: real)
    requires 0.0 <= a && 0.0 <= b
    ensures 0.0 <= a * b
  {
  }

  /** Taking the window twice changes nothing: the volatility reads only the last `days` returns. */
  lemma AnnualizedVolatilityWindow(rs: seq<real>, p: Period, sqrt: real -> real)
    ensures AnnualizedVolatility(rs, p, sqrt) == AnnualizedVolatility(Window(rs, Days(p)), p, sqrt)
  {
    var w := Window(rs, Days(p));
    assert Window(w, Days(p)) == w;
  }

  /** The covariance of a series with itself is its sample variance annualised by 252. */
  lemma CovarianceWithItself(w: seq<real>)
    requires 2 <= |w|
    ensures Covariance(w, w) == SampleVariance(w) * 252.0
  {
  }

  /**
   * The squared annualised volatility is the annualised variance of the
   * period's window: the covariance of the window with itself.
   */
  lemma AnnualizedVolatilitySquared(rs: seq<real>, p: Period, sqrt: real -> real)
    requires IsSqrt(sqrt)
    ensures Square(AnnualizedVolatility(rs, p, sqrt)) == Covariance(Window(rs, Days(p)), Window(rs, Days(p)))
  {
    var w := Window(rs, Days(p));
    if 2 <= |w| {
      CovarianceWithItself(w);
      RootsSquared(sqrt, SampleVariance(w), 252.0);
    }
  }

  /** (√a·√b)² = a·b for non-negative a and b. */
  lemma RootsSquared(sqrt: real -> real, a: real, b: real)
    requires IsSqrt(sqrt) && 0.0 <= a && 0.0 <= b
    ensures Square(sqrt(a) * sqrt(b)) == a * b
  {
    var x, y := sqrt(a), sqrt(b);
    assert Square(x) == a && Square(y) == b;
    assert Square(x * y) == Square(x) * Square(y);
  }

  // Maximum drawdown

  /** The running peak after the first k prices: the highest of them, as the loop keeps it. */
  function Peak(p: seq<real>, k: nat): (r: real)
    requires 0 < k <= |p|
    ensures forall i :: 0 <= i < k ==> p[i] <= r
    ensures exists i :: 0 <= i < k && p[i] == r
  {
    if k == 1 then p[0]
    else
      var peak := Peak(p, k - 1);
      if p[k - 1] > peak then p[k - 1] else peak
  }

  /** The running peak never decreases. */
  lemma PeakNonDecreasing(p: seq<real>, j: nat, k: nat)
    requires 0 < j <= k <= |p|
    ensures Peak(p, j) <= Peak(p, k)
  {
    var i :| 0 <= i < j && p[i] == Peak(p, j);
    assert p[i] <= Peak(p, k);
  }

  /** No running peak that a drawdown is measured against is 0 (the loop would divide by it). */
  predicate PeaksNonZero(p: seq<real>) {
    forall k :: 0 < k < |p| ==> Peak(p, k) != 0.0
  }

  /** p[k] measured against the running peak before it, when it does not set a new peak. */
  function Drawdown(p: seq<real>, k: nat): real
    requires 0 < k < |p| && Peak(p, k) != 0.0
  {
    (Peak(p, k) - p[k]) / Peak(p, k)
  }

  /** The largest drawdown over the first k prices, as the loop has it after visiting them. */
  function MaxDrawdownTo(p: seq<real>, k: nat): real
    requires 0 < k <= |p| && PeaksNonZero(p)
  {
    if k == 1 then 0.0
    else
      var m := MaxDrawdownTo(p, k - 1);
      if p[k - 1] > Peak(p, k - 1) then m else MaxReal(m, Drawdown(p, k - 1))
  }

  /** `calculateMaxDrawdown`: the largest fall from a running peak, as a fraction of that peak; 0 with fewer than 2 prices. */
  function MaxDrawdown(p: seq<real>): (d: real)
    requires PeaksNonZero(p)
    ensures |p| < 2 ==> d == 0.0
  {
    if |p| < 2 then 0.0 else MaxDrawdownTo(p, |p|)
  }

  /** A first price above 0 keeps every running peak above 0. */
  lemma PositiveStartPeaks(p: seq<real>)
    requires 0 < |p| && 0.0 < p[0]
    ensures PeaksNonZero(p)
  {
    forall k | 0 < k < |p|
      ensures Peak(p, k) != 0.0
    {
      assert p[0] <= Peak(p, k);
    }
  }

  /** Every price at or below its running peak lies at most the maximum drawdown below it. */
  lemma {:induction false} MaxDrawdownToDominates(p: seq<real>, k: nat, i: nat)
    requires 0 < i < k <= |p| && PeaksNonZero(p) && p[i] <= Peak(p, i)
    ensures Drawdown(p, i) <= MaxDrawdownTo(p, k)
  {
    if i < k - 1 {
      MaxDrawdownToDominates(p, k - 1, i);
    }
  }

  /** The maximum drawdown is never negative, and it is attained: it is 0 or the drawdown at some price. */
  lemma {:induction false} MaxDrawdownToAttained(p: seq<real>, k: nat)
    requires 0 < k <= |p| && PeaksNonZero(p)
    ensures 0.0 <= MaxDrawdownTo(p, k)
    ensures MaxDrawdownTo(p, k) == 0.0 ||
            exists i :: 0 < i < k && p[i] <= Peak(p, i) && MaxDrawdownTo(p, k) == Drawdown(p, i)
  {
    if k > 1 {
      MaxDrawdownToAttained(p, k - 1);
    }
  }

  /**
   * The maximum drawdown is exactly the largest drawdown from a running peak:
   * no price falls further below its peak, and one falls that far (or none falls).
   */
  lemma MaxDrawdownIsLargest(p: seq<real>)
    requires PeaksNonZero(p) && 2 <= |p|
    ensures forall i :: 0 < i < |p| && p[i] <= Peak(p, i) ==> Drawdown(p, i) <= MaxDrawdown(p)
    ensures MaxDrawdown(p) == 0.0 || exists i :: 0 < i < |p| && p[i] <= Peak(p, i) && MaxDrawdown(p) == Drawdown(p, i)
  {
    forall i | 0 < i < |p| && p[i] <= Peak(p, i)
      ensures Drawdown(p, i) <= MaxDrawdown(p)
    {
      MaxDrawdownToDominates(p, |p|, i);
    }
    MaxDrawdownToAttained(p, |p|);
  }

  /** With positive prices the maximum drawdown lies in [0, 1). */
  lemma MaxDrawdownBounds(p: seq<real>)
    requires forall i :: 0 <= i < |p| ==> 0.0 < p[i]
    ensures PeaksNonZero(p)
    ensures 0.0 <= MaxDrawdown(p) < 1.0
  {
    if |p| >= 1 {
      PositiveStartPeaks(p);
      MaxDrawdownToAttained(p, |p|);
      MaxDrawdownToBelowOne(p, |p|);
    }
  }

  lemma {:induction false} MaxDrawdownToBelowOne(p: seq<real>, k: nat)
    requires 0 < k <= |p| && PeaksNonZero(p)
    requires forall i :: 0 <= i < |p| ==> 0.0 < p[i]
    ensures MaxDrawdownTo(p, k) < 1.0
  {
    if k > 1 {
      MaxDrawdownToBelowOne(p, k - 1);
      if p[k - 1] <= Peak(p, k - 1) {
        FallBelowOne(Peak(p, k - 1), p[k - 1]);
      }
    }
  }

  /** (peak − price) / peak lies in [0, 1) for 0 < price <= peak. */
  lemma FallBelowOne(peak: real, price: real)
    requires 0.0 < price <= peak
    ensures 0.0 <= (peak - price) / peak < 1.0
  {
    var q := (peak - price) / peak;
    assert q * peak == peak - price;
    if q < 0.0 {
      ProductPositive(-q, peak);
    }
  }

  /** Prices that never fall have no drawdown. */
  lemma {:induction false} MaxDrawdownOfRisingPrices(p: seq<real>, k: nat)
    requires 0 < k <= |p| && PeaksNonZero(p)
    requires forall i :: 0 < i < |p| ==> p[i - 1] <= p[i]
    ensures MaxDrawdownTo(p, k) == 0.0
  {
    if k > 1 {
      MaxDrawdownOfRisingPrices(p, k - 1);
      RisingAbovePeak(p, k - 1);
    }
  }

  /** In a rising series each price is at least the peak before it. */
  lemma {:induction false} RisingAbovePeak(p: seq<real>, k: nat)
    requires 0 < k < |p|
    requires forall i :: 0 < i < |p| ==> p[i - 1] <= p[i]
    ensures Peak(p, k) <= p[k]
  {
    if k > 1 {
      RisingAbovePeak(p, k - 1);
    }
  }

  /** The drawdown loop, proved to compute `MaxDrawdown`. */
  method CalculateMaxDrawdown(p: seq<real>) returns (d: real)
    requires PeaksNonZero(p)
    ensures d == MaxDrawdown(p)
  {
    if |p| < 2 {
      return 0.0;
    }
    var maxDrawdown := 0.0;
    var peak := p[0];
    for i := 1 to |p|
      invariant peak == Peak(p, i) && maxDrawdown == MaxDrawdownTo(p, i)
    {
      var price := p[i];
      if price > peak {
        peak := price;
      } else {
        var drawdown := (peak - price) / peak;
        maxDrawdown := MaxReal(maxDrawdown, drawdown);
      }
    }
    d := maxDrawdown;
  }

  // Daily returns

  /** The return of one pair of parsed prices: none when either is not a number (None) or the earlier one is 0. */
  function DailyStep(previous: Option<real>, current: Option<real>): seq<real> {
    if current.None? || previous.None? || previous.value == 0.0 then []
    else [(current.value - previous.value) / previous.value]
  }

  /** The returns of the pairs among the first k prices. */
  function DailyReturnsTo(p: seq<Option<real>>, k: nat): (r: seq<real>)
    requires k <= |p|
    ensures |r| <= if k == 0 then 0 else k - 1
  {
    if k < 2 then [] else DailyReturnsTo(p, k - 1) + DailyStep(p[k - 2], p[k - 1])
  }

  /** `calculateDailyReturns`, prices parsed with `parseFloat` (None for NaN): at most one return per consecutive pair. */
  function DailyReturns(p: seq<Option<real>>): (r: seq<real>)
    ensures |r| <= if |p| == 0 then 0 else |p| - 1
  {
    DailyReturnsTo(p, |p|)
  }

  /** The pair ending at index i yields a return. */
  predicate ValidPair(p: seq<Option<real>>, i: nat)
    requires 0 < i < |p|
  {
    p[i].Some? && p[i - 1].Some? && p[i - 1].value != 0.0
  }

  /** Every pair yields a return exactly when no price is missing and no earlier price is 0. */
  lemma {:induction false} DailyReturnsToComplete(p: seq<Option<real>>, k: nat)
    requires 0 < k <= |p|
    ensures |DailyReturnsTo(p, k)| == k - 1 <==> forall i :: 0 < i < k ==> ValidPair(p, i)
  {
    if k > 1 {
      DailyReturnsToComplete(p, k - 1);
      if !ValidPair(p, k - 1) {
        assert |DailyReturnsTo(p, k)| < k - 1;
      }
    }
  }

  lemma DailyReturnsComplete(p: seq<Option<real>>)
    requires 0 < |p|
    ensures |DailyReturns(p)| == |p| - 1 <==> forall i :: 0 < i < |p| ==> ValidPair(p, i)
  {
    DailyReturnsToComplete(p, |p|);
  }

  /** The parsed values when every price is a number. */
  function Values(p: seq<Option<real>>): (v: seq<real>)
    requires forall i :: 0 <= i < |p| ==> p[i].Some?
    ensures |v| == |p| && forall i :: 0 <= i < |p| ==> v[i] == p[i].value
  {
    seq(|p|, i requires 0 <= i < |p| => p[i].value)
  }

  /** With every price a number and no earlier price 0, the daily returns are the simple returns. */
  lemma {:induction false} DailyReturnsToSimple(p: seq<Option<real>>, k: nat)
    requires k <= |p| && forall i :: 0 <= i < |p| ==> p[i].Some?
    requires NonZeroBases(Values(p))
    ensures DailyReturnsTo(p, k) == SimpleReturns(Values(p)[..k])
  {
    var v := Values(p);
    if k >= 2 {
      DailyReturnsToSimple(p, k - 1);
      assert v[..k][..k - 1] == v[..k - 1];
      assert v[k - 2] != 0.0;
    }
  }

  lemma DailyReturnsSimple(p: seq<Option<real>>)
    requires forall i :: 0 <= i < |p| ==> p[i].Some?
    requires NonZeroBases(Values(p))
    ensures DailyReturns(p) == SimpleReturns(Values(p))
  {
    DailyReturnsToSimple(p, |p|);
    assert Values(p)[..|p|] == Values(p);
  }

  /** The daily-returns loop with its `continue`, proved to compute `DailyReturns`. */
  method CalculateDailyReturns(p: seq<Option<real>>) returns (r: seq<real>)
    ensures r == DailyReturns(p)
  {
    if |p| < 2 {
      return [];
    }
    r := [];
    for i := 1 to |p|
      invariant r == DailyReturnsTo(p, i)
    {
      var current, previous := p[i], p[i - 1];
      if current.None? || previous.None? || previous.value == 0.0 {
        continue;
      }
      r := r + [(current.value - previous.value) / previous.value];
    }
  }

  // Portfolio volatility

  /** A holding's weight in percent and its daily returns. */
  datatype WeightedAsset = WeightedAsset(weight: real, daily: seq<real>)

  /** The returns of the holding that the period reads: `returns.slice(-days)`. */
  function PeriodReturns(a: WeightedAsset, p: Period): seq<real> {
    Window(a.daily, Days(p))
  }

  /** w²σ² for one holding, w its weight as a fraction and σ the annualised volatility of its period returns. */
  function Contribution(a: WeightedAsset, p: Period, sqrt: real -> real): real {
    RiskOf(a.weight, AnnualizedVolatility(PeriodReturns(a, p), p, sqrt))
  }

  /** `weight * weight * volatility * volatility`, the weight in percent turned into a fraction. */
  function RiskOf(weight: real, volatility: real): real {
    var w := weight / 100.0;
    w * w * volatility * volatility
  }

  /** `2 * weight_i * weight_j * covariance`, the weights in percent turned into fractions. */
  function CoRiskOf(weight1: real, weight2: real, covariance: real): real {
    2.0 * (weight1 / 100.0) * (weight2 / 100.0) * covariance
  }

  /** Σ of the contributions of the first k holdings. */
  function ContributionsTo(assets: seq<WeightedAsset>, p: Period, sqrt: real -> real, k: nat): real
    requires k <= |assets|
  {
    if k == 0 then 0.0 else ContributionsTo(assets, p, sqrt, k - 1) + Contribution(assets[k - 1], p, sqrt)
  }

  /** 2·w_i·w_j·Cov(R_i, R_j) for the pair (i, j). */
  function PairTerm(assets: seq<WeightedAsset>, p: Period, i: nat, j: nat): real
    requires i < |assets| && j < |assets|
  {
    CoRiskOf(assets[i].weight, assets[j].weight, Covariance(PeriodReturns(assets[i], p), PeriodReturns(assets[j], p)))
  }

  /** Σ over i < j < m of the pair terms of row i. */
  function PairRow(assets: seq<WeightedAsset>, p: Period, i: nat, m: nat): real
    requires i < |assets| && m <= |assets|
  {
    if m <= i + 1 then 0.0 else PairRow(assets, p, i, m - 1) + PairTerm(assets, p, i, m - 1)
  }

  /** Σ over the rows i < k of their pair terms. */
  function PairsTo(assets: seq<WeightedAsset>, p: Period, k: nat): real
    requires k <= |assets|
  {
    if k == 0 then 0.0 else PairsTo(assets, p, k - 1) + PairRow(assets, p, k - 1, |assets|)
  }

  /** Σ w_i²σ_i² + 2 Σ_{i<j} w_i w_j Cov(R_i, R_j): the portfolio variance the handler accumulates. */
  function PortfolioVariance(assets: seq<WeightedAsset>, p: Period, sqrt: real -> real): real {
    ContributionsTo(assets, p, sqrt, |assets|) + PairsTo(assets, p, |assets|)
  }

  /**
   * `calculatePortfolioVolatility`: 0 for no holdings, else the square root of
   * the portfolio variance; a negative variance has no square root (NaN, None).
   */
  function PortfolioVolatility(assets: seq<WeightedAsset>, p: Period, sqrt: real -> real): (v: Option<real>)
    ensures v.None? <==> 0 < |assets| && PortfolioVariance(assets, p, sqrt) < 0.0
  {
    if |assets| == 0 then Some(0.0) else RootOf(PortfolioVariance(assets, p, sqrt), sqrt)
  }

  /** `Math.sqrt(total)`: no value (NaN) for a negative total. */
  function RootOf(total: real, sqrt: real -> real): (r: Option<real>)
    ensures r.None? <==> total < 0.0
  {
    if total < 0.0 then None else Some(sqrt(total))
  }

  /** w²·c for a weight w in percent turned into a fraction. */
  function WeightedVariance(weight: real, c: real): real {
    Square(weight / 100.0) * c
  }

  /** A holding's contribution is its squared weight times the annualised variance of its period returns. */
  lemma ContributionIsWeightedVariance(a: WeightedAsset, p: Period, sqrt: real -> real)
    requires IsSqrt(sqrt)
    ensures Contribution(a, p, sqrt) == WeightedVariance(a.weight, Covariance(PeriodReturns(a, p), PeriodReturns(a, p)))
  {
    var r := PeriodReturns(a, p);
    PeriodVolatilitySquared(a, p, sqrt);
    RiskOfSquares(a.weight, AnnualizedVolatility(r, p, sqrt), Covariance(r, r));
  }

  lemma PeriodVolatilitySquared(a: WeightedAsset, p: Period, sqrt: real -> real)
    requires IsSqrt(sqrt)
    ensures Square(AnnualizedVolatility(PeriodReturns(a, p), p, sqrt)) == Covariance(PeriodReturns(a, p), PeriodReturns(a, p))
  {
    var r := PeriodReturns(a, p);
    assert Window(r, Days(p)) == r;
    AnnualizedVolatilitySquared(r, p, sqrt);
  }

  lemma RiskOfSquares(weight: real, v: real, c: real)
    requires Square(v) == c
    ensures RiskOf(weight, v) == WeightedVariance(weight, c)
  {
  }

  /** A single holding's volatility is its weight (as a fraction, in absolute value) times its own annualised volatility. */
  lemma PortfolioVolatilityOfOne(a: WeightedAsset, p: Period, sqrt: real -> real)
    requires IsSqrt(sqrt)
    ensures PortfolioVolatility([a], p, sqrt) == Some(WeightedVolatility(a.weight, AnnualizedVolatility(a.daily, p, sqrt)))
  {
    var v := AnnualizedVolatility(a.daily, p, sqrt);
    VarianceOfOne(a, p, sqrt);
    RiskRoot(sqrt, a.weight, v);
  }

  /** |w|·v for a weight w in percent turned into a fraction. */
  function WeightedVolatility(weight: real, v: real): real {
    Abs(weight / 100.0) * v
  }

  /** The variance of a one-holding portfolio is that holding's contribution. */
  lemma VarianceOfOne(a: WeightedAsset, p: Period, sqrt: real -> real)
    ensures PortfolioVariance([a], p, sqrt) == RiskOf(a.weight, AnnualizedVolatility(a.daily, p, sqrt))
  {
    AnnualizedVolatilityWindow(a.daily, p, sqrt);
    assert ContributionsTo([a], p, sqrt, 1) == ContributionsTo([a], p, sqrt, 0) + Contribution(a, p, sqrt);
    assert PairsTo([a], p, 1) == PairsTo([a], p, 0) + PairRow([a], p, 0, 1);
  }

  /** √(w·w·v·v) = |w|·v for v >= 0. */
  lemma RiskRoot(sqrt: real -> real, weight: real, v: real)
    requires IsSqrt(sqrt) && 0.0 <= v
    ensures 0.0 <= RiskOf(weight, v) && sqrt(RiskOf(weight, v)) == WeightedVolatility(weight, v)
  {
    var w := weight / 100.0;
    var y := Abs(w) * v;
    assert 0.0 <= y;
    assert RiskOf(weight, v) == Square(y);
    assert sqrt(Square(y)) == y;
  }

  /** The handler's loops, proved to compute `PortfolioVolatility`: the contributions, then every pair i < j. */
  method CalculatePortfolioVolatility(assets: seq<WeightedAsset>, p: Period, sqrt: real -> real) returns (v: Option<real>)
    ensures v == PortfolioVolatility(assets, p, sqrt)
  {
    if |assets| == 0 {
      return Some(0.0);
    }
    var total := CalculateVariance(assets, p, sqrt);
    v := RootOf(total, sqrt);
  }

  /** The contributions, then every pair i < j added to them. */
  method CalculateVariance(assets: seq<WeightedAsset>, p: Period, sqrt: real -> real) returns (total: real)
    ensures total == PortfolioVariance(assets, p, sqrt)
  {
    var pairs := CalculatePairs(assets, p);
    total := ContributionsTo(assets, p, sqrt, |assets|) + pairs;
  }

  /** The outer loop over the holdings i, each adding its row of pairs. */
  method CalculatePairs(assets: seq<WeightedAsset>, p: Period) returns (pairs: real)
    ensures pairs == PairsTo(assets, p, |assets|)
  {
    pairs := 0.0;
    for i := 0 to |assets|
      invariant pairs == PairsTo(assets, p, i)
    {
      var row := CalculatePairRow(assets, p, i);
      pairs := pairs + row;
    }
  }

  /** The inner loop over the partners j > i of holding i. */
  method CalculatePairRow(assets: seq<WeightedAsset>, p: Period, i: nat) returns (row: real)
    requires i < |assets|
    ensures row == PairRow(assets, p, i, |assets|)
  {
    row := 0.0;
    for j := i + 1 to |assets|
      invariant row == PairRow(assets, p, i, j)
    {
      var covariance := CalculateCovariance(PeriodReturns(assets[i], p), PeriodReturns(assets[j], p));
      row := row + CoRiskOf(assets[i].weight, assets[j].weight, covariance);
    }
  }

  // Portfolio drawdown

  /** A holding's stored maximum drawdown (None when missing) and its weight in percent. */
  datatype AssetDrawdown = AssetDrawdown(maxDrawdown: Option<real>, weight: real)

  /** `asset.max_drawdown || 0`. */
  function DrawdownOrZero(a: AssetDrawdown): real {
    if a.maxDrawdown.Some? then a.maxDrawdown.value else 0.0
  }

  /** `calculatePortfolioMaxDrawdown`: Σ drawdown × weight / 100, 0 for no holdings. */
  function PortfolioMaxDrawdown(assets: seq<AssetDrawdown>): (d: real)
    ensures (forall i :: 0 <= i < |assets| ==> 0.0 <= assets[i].weight && 0.0 <= DrawdownOrZero(assets[i])) ==> 0.0 <= d
  {
    if assets == [] then 0.0
    else
      var a := assets[|assets| - 1];
      PortfolioMaxDrawdown(assets[..|assets| - 1]) + DrawdownOrZero(a) * (a.weight / 100.0)
  }

  /** Σ of the weights, in percent. */
  function TotalWeight(assets: seq<AssetDrawdown>): real {
    if assets == [] then 0.0 else TotalWeight(assets[..|assets| - 1]) + assets[|assets| - 1].weight
  }

  /** D lies between lo and hi times the weight W, in percent. */
  predicate WeightedBetween(d: real, w: real, lo: real, hi: real) {
    lo * (w / 100.0) <= d <= hi * (w / 100.0)
  }

  /**
   * With non-negative weights and every drawdown in [lo, hi], the portfolio
   * drawdown lies between lo and hi times the total weight as a fraction.
   */
  lemma {:induction false} PortfolioMaxDrawdownBetween(assets: seq<AssetDrawdown>, lo: real, hi: real)
    requires forall i :: 0 <= i < |assets| ==> 0.0 <= assets[i].weight && lo <= DrawdownOrZero(assets[i]) <= hi
    ensures WeightedBetween(PortfolioMaxDrawdown(assets), TotalWeight(assets), lo, hi)
  {
    if assets != [] {
      var init, a := assets[..|assets| - 1], assets[|assets| - 1];
      PortfolioMaxDrawdownBetween(init, lo, hi);
      WeightedBetweenStep(PortfolioMaxDrawdown(init), TotalWeight(init), DrawdownOrZero(a), a.weight, lo, hi,
                          PortfolioMaxDrawdown(assets), TotalWeight(assets));
    }
  }

  lemma WeightedBetweenStep(d: real, w: real, x: real, v: real, lo: real, hi: real, d': real, w': real)
    requires WeightedBetween(d, w, lo, hi) && 0.0 <= v && lo <= x <= hi
    requires d' == d + x * (v / 100.0) && w' == w + v
    ensures WeightedBetween(d', w', lo, hi)
  {
    var f := v / 100.0;
    assert 0.0 <= f;
    assert lo * f <= x * f <= hi * f by {
      if 0.0 < f {
        if lo < x { ProductPositive(x - lo, f); }
        if x < hi { ProductPositive(hi - x, f); }
      }
    }
    assert w' / 100.0 == w / 100.0 + f;
  }

  /** With weights summing to 100, the portfolio drawdown lies between the smallest and largest holding drawdown. */
  lemma PortfolioMaxDrawdownAverages(assets: seq<AssetDrawdown>, lo: real, hi: real)
    requires forall i :: 0 <= i < |assets| ==> 0.0 <= assets[i].weight && lo <= DrawdownOrZero(assets[i]) <= hi
    requires TotalWeight(assets) == 100.0
    ensures lo <= PortfolioMaxDrawdown(assets) <= hi
  {
    PortfolioMaxDrawdownBetween(assets, lo, hi);
  }

  // Sector recommendations

  /** A row of the candidate universe. */
  datatype Candidate = Candidate(symbol: string, name: string, sector: string, industry: string,
                                 currentPrice: real, marketCap: real, revenueGrowth: real)

  /** A recommendation as the handler returns it: the candidate's fields, no correlation and no prices yet. */
  datatype Recommendation = Recommendation(symbol: string, name: string, sector: string, industry: string,
                                           currentPrice: real, marketCap: real, revenueGrowth: real,
                                           correlation: Option<real>, prices: seq<real>)

  function Recommend(c: Candidate): Recommendation {
    Recommendation(c.symbol, c.name, c.sector, c.industry, c.currentPrice, c.marketCap, c.revenueGrowth, None, [])
  }

  const UnderrepresentedBelow: real := 0.1

  /** The entries of the sector table whose weight is below 0.1. */
  function Underrepresented(ts: seq<SectorTotal>): seq<SectorTotal> {
    if ts == [] then []
    else (if ts[0].total < UnderrepresentedBelow then [ts[0]] else []) + Underrepresented(ts[1..])
  }

  /** The candidates, in order, whose sector is one of the listed entries. */
  function InSectors(cs: seq<Candidate>, us: seq<SectorTotal>): (r: seq<Candidate>)
    ensures |r| <= |cs|
  {
    if cs == [] then []
    else (if HasKey(us, cs[0].sector) then [cs[0]] else []) + InSectors(cs[1..], us)
  }

  /** `getSectorRecommendations`: the candidates in an underweight sector of the portfolio, in their order. */
  function SectorRecommendations(portfolio: seq<Holding>, candidates: seq<Candidate>): (r: seq<Recommendation>)
    ensures |r| <= |candidates|
  {
    var chosen := InSectors(candidates, Underrepresented(SectorTotals(portfolio, false)));
    seq(|chosen|, i requires 0 <= i < |chosen| => Recommend(chosen[i]))
  }

  /** A candidate is recommended when its sector is held and the holdings in it weigh less than 0.1 together. */
  predicate Underweight(portfolio: seq<Holding>, c: string) {
    Occurs(portfolio, c) && SectorSum(portfolio, c) < UnderrepresentedBelow
  }

  /** The reference selection: the candidates whose sector is underweight, in order. */
  function UnderweightCandidates(portfolio: seq<Holding>, cs: seq<Candidate>): seq<Candidate> {
    if cs == [] then []
    else (if Underweight(portfolio, cs[0].sector) then [cs[0]] else []) + UnderweightCandidates(portfolio, cs[1..])
  }

  lemma {:induction false} UnderrepresentedHasKey(ts: seq<SectorTotal>, c: string)
    requires DistinctKeys(ts)
    ensures HasKey(Underrepresented(ts), c) <==> HasKey(ts, c) && TotalOf(ts, c) < UnderrepresentedBelow
  {
    if ts != [] {
      UnderrepresentedHasKey(ts[1..], c);
      var head := if ts[0].total < UnderrepresentedBelow then [ts[0]] else [];
      HasKeyAppend(head, Underrepresented(ts[1..]), c);
      if ts[0].sector == c {
        assert !HasKey(ts[1..], c);
      }
    }
  }

  lemma {:induction false} HasKeyAppend(a: seq<SectorTotal>, b: seq<SectorTotal>, c: string)
    ensures HasKey(a + b, c) <==> HasKey(a, c) || HasKey(b, c)
  {
    if a == [] {
      assert a + b == b;
    } else {
      HasKeyAppend(a[1..], b, c);
      assert (a + b)[0] == a[0];
      assert (a + b)[1..] == a[1..] + b;
    }
  }

  lemma {:induction false} InSectorsUnderweight(portfolio: seq<Holding>, cs: seq<Candidate>)
    ensures InSectors(cs, Underrepresented(SectorTotals(portfolio, false))) == UnderweightCandidates(portfolio, cs)
  {
    if cs != [] {
      InSectorsUnderweight(portfolio, cs[1..]);
      var ts := SectorTotals(portfolio, false);
      SectorTotalsDistinct(portfolio, false);
      UnderrepresentedHasKey(ts, cs[0].sector);
      SectorTotalsKeys(portfolio, false, cs[0].sector);
      SectorTotalsSum(portfolio, false, cs[0].sector);
    }
  }

  /**
   * The recommendations are exactly the candidates, in their order, whose
   * sector the portfolio holds with a total weight below 0.1.
   */
  lemma SectorRecommendationsSelect(portfolio: seq<Holding>, candidates: seq<Candidate>)
    ensures var chosen := UnderweightCandidates(portfolio, candidates);
            SectorRecommendations(portfolio, candidates) == seq(|chosen|, i requires 0 <= i < |chosen| => Recommend(chosen[i]))
  {
    InSectorsUnderweight(portfolio, candidates);
  }
}
