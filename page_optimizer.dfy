/**
 * The browser-side `PortfolioOptimizer` of js/optimization.js: construction from
 * the portfolio payload, return series, the min-length sample covariance and its
 * matrix, expected returns, portfolio risk and return, the sector HHI, the
 * clamp-and-normalise gradient optimiser and its efficient frontier, the
 * in-place CVaR, beta, variance, alpha, tracking error and the weighted daily
 * portfolio returns.
 *
 * The class only assigns its fields in the constructor, so an optimiser is a
 * value (`Optimizer`) and the constructor is `Build`. A division that
 * JavaScript would turn into NaN or Infinity is either excluded by a `requires`
 * (a zero price) or reported as `None`.
 */
module PageOptimizer {
  import opened Numerics
  import opened Sorting
  import opened Sectors

  /** The risk-free rate the constructor sets (4.75%). */
  const RiskFreeRate: real := 0.0475

  /** One entry of `portfolio_details`; `weight` is a percentage and `prices` is absent when null. */
  datatype DetailRow = DetailRow(symbol: string, weight: real, prices: Option<seq<real>>, sector: string)

  /** The constructor's argument: the details list and the market price list, each possibly absent. */
  datatype PortfolioData = PortfolioData(details: Option<seq<DetailRow>>, marketPrices: Option<seq<real>>)

  /** An asset as the constructor stores it, with its weight as a fraction. */
  datatype Asset = Asset(symbol: string, weight: real, periodReturns: seq<real>, prices: seq<real>, sector: string)

  datatype Optimizer = Optimizer(marketPrices: seq<real>, assets: seq<Asset>, covariance: Matrix, expectedReturns: seq<real>)

  /** The three errors the constructor throws. */
  datatype BuildError = InvalidPortfolio | MissingMarketData | NoValidAssets

  predicate HasPrices(row: DetailRow) {
    row.prices.Some? && |row.prices.value| > 0
  }

  /**
   * A price series whose analytics stay finite: no return is taken relative to a
   * zero price, and the return series does not have exactly one entry (the
   * covariance of such a series divides by n - 1 = 0).
   */
  predicate UsablePrices(p: seq<real>) {
    NonZeroBases(p) && |p| != 2
  }

  predicate UsableRows(rows: seq<DetailRow>) {
    forall i :: 0 <= i < |rows| && HasPrices(rows[i]) ==> UsablePrices(rows[i].prices.value)
  }

  /** `calculateReturns(prices)`: one simple return per consecutive pair of prices. */
  method CalculateReturns(prices: seq<real>) returns (rs: seq<real>)
    requires NonZeroBases(prices)
    ensures rs == SimpleReturns(prices)
    ensures |rs| == if |prices| == 0 then 0 else |prices| - 1
    ensures forall i :: 0 <= i < |rs| ==> rs[i] == (prices[i + 1] - prices[i]) / prices[i]
  {
    rs := [];
    if |prices| == 0 {
      return;
    }
    var i := 1;
    while i < |prices|
      invariant 1 <= i <= |prices|
      invariant NonZeroBases(prices[..i])
      invariant rs == SimpleReturns(prices[..i])
    {
      assert prices[..i + 1][..i] == prices[..i];
      rs := rs + [(prices[i] - prices[i - 1]) / prices[i - 1]];
      i := i + 1;
    }
    assert prices[..i] == prices;
    forall k | 0 <= k < |rs|
      ensures rs[k] == (prices[k + 1] - prices[k]) / prices[k]
    {
      SimpleReturnsAt(prices, k);
    }
  }

  /** The asset the constructor builds from a row that has prices. */
  function ToAsset(row: DetailRow): (a: Asset)
    requires HasPrices(row) && UsablePrices(row.prices.value)
    ensures a.weight * 100.0 == row.weight
    ensures |a.periodReturns| == |a.prices| - 1 && a.sector == row.sector
  {
    var p := row.prices.value;
    Asset(row.symbol, row.weight / 100.0, SimpleReturns(p), p, row.sector)
  }

  /** An asset whose series are as the constructor leaves them. */
  predicate Tidy(a: Asset) {
    |a.prices| > 0 && UsablePrices(a.prices) && a.periodReturns == SimpleReturns(a.prices)
  }

  /** The `map(...).filter(asset => asset !== null)` of the constructor: rows without prices are dropped. */
  function Keep(rows: seq<DetailRow>): seq<Asset>
    requires UsableRows(rows)
  {
    if rows == [] then []
    else
      assert UsableRows(rows[1..]) by {
        forall i | 0 <= i < |rows[1..]| && HasPrices(rows[1..][i])
          ensures UsablePrices(rows[1..][i].prices.value)
        {
          assert rows[1..][i] == rows[i + 1];
        }
      }
      var rest := Keep(rows[1..]);
      if HasPrices(rows[0]) then [ToAsset(rows[0])] + rest else rest
  }

  function CountWithPrices(rows: seq<DetailRow>): nat {
    if rows == [] then 0 else (if HasPrices(rows[0]) then 1 else 0) + CountWithPrices(rows[1..])
  }

  /**
   * Each row with prices gives one tidy asset, in row order, and the kept list
   * is empty exactly when no row has prices.
   */
  lemma {:induction false} KeepCorrect(rows: seq<DetailRow>)
    requires UsableRows(rows)
    ensures |Keep(rows)| == CountWithPrices(rows)
    ensures Keep(rows) == [] <==> forall i :: 0 <= i < |rows| ==> !HasPrices(rows[i])
    ensures forall k :: 0 <= k < |Keep(rows)| ==> Tidy(Keep(rows)[k])
  {
    if rows != [] {
      assert UsableRows(rows[1..]) by {
        forall i | 0 <= i < |rows[1..]| && HasPrices(rows[1..][i])
          ensures UsablePrices(rows[1..][i].prices.value)
        {
          assert rows[1..][i] == rows[i + 1];
        }
      }
      KeepCorrect(rows[1..]);
      if forall i :: 0 <= i < |rows[1..]| ==> !HasPrices(rows[1..][i]) {
        forall i | 0 <= i < |rows| && i > 0
          ensures !HasPrices(rows[i])
        {
          assert rows[1..][i - 1] == rows[i];
        }
      }
      if !HasPrices(rows[0]) && exists i :: 0 <= i < |rows[1..]| && HasPrices(rows[1..][i]) {
        var i :| 0 <= i < |rows[1..]| && HasPrices(rows[1..][i]);
        assert rows[i + 1] == rows[1..][i];
      }
    }
  }

  /** Both series empty-or-long-enough for `calculateCovariance` to divide by a non-zero n - 1. */
  predicate CovarianceDefined(r1: seq<real>, r2: seq<real>) {
    r1 == [] || r2 == [] || (2 <= |r1| && 2 <= |r2|)
  }

  /**
   * `calculateCovariance`: 0 when either series is empty; otherwise the centred
   * products of the first min(len1, len2) pairs, each series centred on the
   * mean of its WHOLE length, summed and divided by n - 1.
   */
  function SampleCovariance(r1: seq<real>, r2: seq<real>): real
    requires CovarianceDefined(r1, r2)
  {
    if r1 == [] || r2 == [] then 0.0
    else
      var n := Min(|r1|, |r2|);
      CentredCross(r1, r2, Mean(r1), Mean(r2), n) / (n - 1) as real
  }

  /** The covariance does not depend on the order of its arguments. */
  lemma SampleCovarianceSymmetric(r1: seq<real>, r2: seq<real>)
    requires CovarianceDefined(r1, r2)
    ensures SampleCovariance(r1, r2) == SampleCovariance(r2, r1)
  {
    if r1 != [] && r2 != [] {
      CentredCrossSymmetric(r1, r2, Mean(r1), Mean(r2), Min(|r1|, |r2|));
    }
  }

  /** The covariance of a series with itself is never negative. */
  lemma SampleCovarianceSelf(r: seq<real>)
    requires CovarianceDefined(r, r)
    ensures 0.0 <= SampleCovariance(r, r)
  {
    if r != [] {
      CentredSquaresNonNegative(r, Mean(r), |r|);
    }
  }

  /** The covariance loop, proved to compute `SampleCovariance`. */
  method CalculateCovariance(r1: seq<real>, r2: seq<real>) returns (c: real)
    requires CovarianceDefined(r1, r2)
    ensures c == SampleCovariance(r1, r2)
    ensures r1 == [] || r2 == [] ==> c == 0.0
  {
    if r1 == [] || r2 == [] {
      return 0.0;
    }
    var mean1 := Sum(r1) / |r1| as real;
    var mean2 := Sum(r2) / |r2| as real;
    var acc := 0.0;
    var n := Min(|r1|, |r2|);
    var i := 0;
    while i < n
      invariant 0 <= i <= n
      invariant acc == CentredCross(r1, r2, mean1, mean2, i)
    {
      acc := acc + (r1[i] - mean1) * (r2[i] - mean2);
      i := i + 1;
    }
    c := acc / (n - 1) as real;
  }

  /** No return series has exactly one entry. */
  predicate NoSingletons(rs: seq<seq<real>>) {
    forall i :: 0 <= i < |rs| ==> |rs[i]| != 1
  }

  /** The matrix `calculateCovarianceMatrix` fills: entry [i][j] is the covariance of series i and j. */
  function CovarianceMatrixOf(rs: seq<seq<real>>): (m: Matrix)
    requires NoSingletons(rs)
    ensures IsSquare(m, |rs|)
    ensures forall i, j :: 0 <= i < |rs| && 0 <= j < |rs| ==> m[i][j] == SampleCovariance(rs[i], rs[j])
  {
    seq(|rs|, i requires 0 <= i < |rs| => seq(|rs|, j requires 0 <= j < |rs| => SampleCovariance(rs[i], rs[j])))
  }

  /** The covariance matrix is n x n, symmetric, with a non-negative diagonal. */
  lemma CovarianceMatrixShape(rs: seq<seq<real>>)
    requires NoSingletons(rs)
    ensures IsSquare(CovarianceMatrixOf(rs), |rs|)
    ensures IsSymmetric(CovarianceMatrixOf(rs))
    ensures forall i :: 0 <= i < |rs| ==> 0.0 <= CovarianceMatrixOf(rs)[i][i]
  {
    var m := CovarianceMatrixOf(rs);
    forall i, j | 0 <= i < |rs| && 0 <= j < |rs|
      ensures m[i][j] == m[j][i]
    {
      SampleCovarianceSymmetric(rs[i], rs[j]);
    }
    forall i | 0 <= i < |rs|
      ensures 0.0 <= m[i][i]
    {
      SampleCovarianceSelf(rs[i]);
    }
  }

  /**
   * `calculateCovarianceMatrix`: throws (None) when there are no assets,
   * otherwise fills the n x n matrix entry by entry.
   */
  method CalculateCovarianceMatrix(rs: seq<seq<real>>) returns (m: Option<Matrix>)
    requires NoSingletons(rs)
    ensures m.None? <==> rs == []
    ensures m.Some? ==> m.value == CovarianceMatrixOf(rs)
  {
    if rs == [] {
      return None;
    }
    var n := |rs|;
    var rows: Matrix := [];
    var i := 0;
    while i < n
      invariant 0 <= i <= n
      invariant |rows| == i
      invariant forall k :: 0 <= k < i ==> rows[k] == CovarianceMatrixOf(rs)[k]
    {
      var row: seq<real> := [];
      var j := 0;
      while j < n
        invariant 0 <= j <= n
        invariant |row| == j
        invariant forall l :: 0 <= l < j ==> row[l] == SampleCovariance(rs[i], rs[l])
      {
        var c := CalculateCovariance(rs[i], rs[j]);
        row := row + [c];
        j := j + 1;
      }
      rows := rows + [row];
      i := i + 1;
    }
    m := Some(rows);
  }

  /** `calculateExpectedReturns` for one asset: the mean return, or 0 without returns. */
  function ExpectedReturn(a: Asset): (e: real)
    ensures a.periodReturns == [] ==> e == 0.0
  {
    if a.periodReturns == [] then 0.0 else Mean(a.periodReturns)
  }

  function ExpectedReturns(assets: seq<Asset>): (er: seq<real>)
    ensures |er| == |assets|
    ensures forall i :: 0 <= i < |assets| ==> er[i] == ExpectedReturn(assets[i])
  {
    seq(|assets|, i requires 0 <= i < |assets| => ExpectedReturn(assets[i]))
  }

  /** An asset's expected return lies between its smallest and its largest daily return. */
  lemma ExpectedReturnWithinRange(a: Asset)
    requires a.periodReturns != []
    ensures exists j, k ::
      (0 <= j < |a.periodReturns| && 0 <= k < |a.periodReturns| &&
       a.periodReturns[j] <= ExpectedReturn(a) <= a.periodReturns[k])
  {
    var s := a.periodReturns;
    SortedExtremes(s);
    var lo, hi := Sort(s)[0], Sort(s)[|s| - 1];
    forall i | 0 <= i < |s|
      ensures lo <= s[i] <= hi
    {
      assert s[i] in s;
    }
    MeanBetween(s, lo, hi);
    var j :| 0 <= j < |s| && s[j] == lo;
    var k :| 0 <= k < |s| && s[k] == hi;
  }

  function ReturnSeries(assets: seq<Asset>): (rs: seq<seq<real>>)
    ensures |rs| == |assets| && forall i :: 0 <= i < |assets| ==> rs[i] == assets[i].periodReturns
  {
    seq(|assets|, i requires 0 <= i < |assets| => assets[i].periodReturns)
  }

  /** The state the constructor establishes. */
  ghost predicate Valid(o: Optimizer) {
    && |o.assets| > 0
    && (forall i :: 0 <= i < |o.assets| ==> Tidy(o.assets[i]))
    && NoSingletons(ReturnSeries(o.assets))
    && o.covariance == CovarianceMatrixOf(ReturnSeries(o.assets))
    && IsSquare(o.covariance, |o.assets|)
    && IsSymmetric(o.covariance)
    && o.expectedReturns == ExpectedReturns(o.assets)
  }

  /**
   * The constructor: throws when the details or the market prices are missing,
   * drops assets without prices, throws when none remains, and otherwise
   * computes the covariance matrix and the expected returns.
   */
  function Build(data: PortfolioData): (r: Result<Optimizer, BuildError>)
    requires data.details.Some? ==> UsableRows(data.details.value)
    ensures r == Err(InvalidPortfolio) <==> data.details.None?
    ensures r == Err(MissingMarketData) <==> data.details.Some? && data.marketPrices.None?
    ensures r == Err(NoValidAssets) <==>
      (data.details.Some? && data.marketPrices.Some? &&
       forall i :: 0 <= i < |data.details.value| ==> !HasPrices(data.details.value[i]))
    ensures r.Ok? ==> Valid(r.value) && |r.value.assets| == CountWithPrices(data.details.value)
  {
    if data.details.None? then Err(InvalidPortfolio)
    else if data.marketPrices.None? then Err(MissingMarketData)
    else
      var assets := Keep(data.details.value);
      KeepCorrect(data.details.value);
      if assets == [] then Err(NoValidAssets)
      else
        var rs := ReturnSeries(assets);
        assert NoSingletons(rs) by {
          forall i | 0 <= i < |rs|
            ensures |rs[i]| != 1
          {
            assert Tidy(assets[i]);
          }
        }
        CovarianceMatrixShape(rs);
        Ok(Optimizer(data.marketPrices.value, assets, CovarianceMatrixOf(rs), ExpectedReturns(assets)))
  }

  // ---------------------------------------------------------------------
  // Portfolio return and risk
  // ---------------------------------------------------------------------

  /** `calculatePortfolioReturn`: Σ w_i * er_i. */
  function PortfolioReturn(w: seq<real>, er: seq<real>): real
    requires |w| <= |er|
  {
    Dot(w, er, |w|)
  }

  /** When every asset has the same expected return c and the weights sum to 1, the portfolio returns c. */
  lemma PortfolioReturnOfEqualAssets(w: seq<real>, er: seq<real>, c: real)
    requires |w| <= |er| && Sum(w) == 1.0
    requires forall i :: 0 <= i < |er| ==> er[i] == c
    ensures PortfolioReturn(w, er) == c
  {
    DotConstant(w, er, c, |w|);
  }

  /** A covariance entry as the risk loop reads it; a missing row or entry reads as 0. */
  function Entry(cov: Matrix, i: nat, j: nat): real {
    if i < |cov| && j < |cov[i]| then cov[i][j] else 0.0
  }

  /** w_i * w_j * cov[i][j]: one term of the quadratic form. */
  function RiskTerm(w: seq<real>, cov: Matrix, i: nat, j: nat): real
    requires i < |w| && j < |w|
  {
    w[i] * w[j] * Entry(cov, i, j)
  }

  /** Σ_{j<m} w_i * w_j * cov[i][j]. */
  function RiskRow(w: seq<real>, cov: Matrix, i: nat, m: nat): real
    requires i < |w| && m <= |w|
  {
    if m == 0 then 0.0 else RiskRow(w, cov, i, m - 1) + RiskTerm(w, cov, i, m - 1)
  }

  /** Σ_{i<k} Σ_{j<n} w_i * w_j * cov[i][j]: the quadratic form wᵀΣw over the first k rows. */
  function RiskSumTo(w: seq<real>, cov: Matrix, k: nat): real
    requires k <= |w|
  {
    if k == 0 then 0.0 else RiskSumTo(w, cov, k - 1) + RiskRow(w, cov, k - 1, |w|)
  }

  function RiskSum(w: seq<real>, cov: Matrix): real {
    RiskSumTo(w, cov, |w|)
  }

  /** `Math.sqrt(Math.max(0, risk))`: never negative, and its square is the quadratic form clipped at 0. */
  function PortfolioRiskOf(w: seq<real>, cov: Matrix, sqrt: real -> real): (r: real)
    ensures IsSqrt(sqrt) ==> 0.0 <= r && Square(r) == MaxReal(0.0, RiskSum(w, cov))
  {
    sqrt(MaxReal(0.0, RiskSum(w, cov)))
  }

  /**
   * `calculatePortfolioRisk`: 0 when the weights or the covariance are missing;
   * otherwise the double loop skips a missing row, a missing entry or a zero
   * entry, and the result is the square root of the clipped quadratic form.
   */
  method CalculatePortfolioRisk(weights: Option<seq<real>>, cov: Option<Matrix>, sqrt: real -> real)
    returns (risk: real)
    ensures weights.None? || cov.None? ==> risk == 0.0
    ensures weights.Some? && cov.Some? ==> risk == PortfolioRiskOf(weights.value, cov.value, sqrt)
    ensures IsSqrt(sqrt) ==> 0.0 <= risk
    ensures IsSqrt(sqrt) && weights.Some? && cov.Some? ==>
      Square(risk) == MaxReal(0.0, RiskSum(weights.value, cov.value))
  {
    if weights.None? || cov.None? {
      return 0.0;
    }
    var w, c := weights.value, cov.value;
    var n := |w|;
    var acc := 0.0;
    var i := 0;
    while i < n
      invariant 0 <= i <= n
      invariant acc == RiskSumTo(w, c, i)
    {
      var j := 0;
      var row := 0.0;
      while j < n
        invariant 0 <= j <= n
        invariant acc == RiskSumTo(w, c, i) + RiskRow(w, c, i, j)
      {
        if i < |c| && j < |c[i]| && c[i][j] != 0.0 {
          acc := acc + w[i] * w[j] * c[i][j];
        }
        j := j + 1;
      }
      i := i + 1;
    }
    risk := sqrt(MaxReal(0.0, acc));
  }

  function Scaled(w: seq<real>, c: real): (v: seq<real>)
    ensures |v| == |w| && forall i :: 0 <= i < |w| ==> v[i] == c * w[i]
  {
    seq(|w|, i requires 0 <= i < |w| => c * w[i])
  }

  /** v is w with every weight multiplied by c. */
  predicate ScaledFrom(v: seq<real>, w: seq<real>, c: real) {
    |v| == |w| && forall j :: 0 <= j < |w| ==> v[j] == c * w[j]
  }

  lemma {:induction false} RiskRowScaled(w: seq<real>, v: seq<real>, cov: Matrix, c: real, i: nat, m: nat)
    requires ScaledFrom(v, w, c) && i < |w| && m <= |w|
    ensures ScaledBy(c, RiskRow(w, cov, i, m), RiskRow(v, cov, i, m))
  {
    if m > 0 {
      RiskRowScaled(w, v, cov, c, i, m - 1);
      RiskRowAdds(w, cov, i, m);
      RiskRowAdds(v, cov, i, m);
      TermScale(w, v, cov, c, i, m - 1);
      SumScale(c, RiskRow(w, cov, i, m - 1), RiskTerm(w, cov, i, m - 1), RiskRow(w, cov, i, m),
        RiskRow(v, cov, i, m - 1), RiskTerm(v, cov, i, m - 1), RiskRow(v, cov, i, m));
    }
  }

  lemma {:induction false} RiskSumScaled(w: seq<real>, v: seq<real>, cov: Matrix, c: real, k: nat)
    requires ScaledFrom(v, w, c) && k <= |w|
    ensures ScaledBy(c, RiskSumTo(w, cov, k), RiskSumTo(v, cov, k))
  {
    if k > 0 {
      RiskSumScaled(w, v, cov, c, k - 1);
      RiskRowScaled(w, v, cov, c, k - 1, |w|);
      RiskSumAdds(w, cov, k);
      RiskSumAdds(v, cov, k);
      SumScale(c, RiskSumTo(w, cov, k - 1), RiskRow(w, cov, k - 1, |w|), RiskSumTo(w, cov, k),
        RiskSumTo(v, cov, k - 1), RiskRow(v, cov, k - 1, |w|), RiskSumTo(v, cov, k));
    }
  }

  /** y is x times c². */
  predicate ScaledBy(c: real, x: real, y: real) {
    y == c * c * x
  }

  /** s' is s plus the term t. */
  predicate Adds(s: real, t: real, s': real) {
    s' == s + t
  }

  lemma RiskRowAdds(w: seq<real>, cov: Matrix, i: nat, m: nat)
    requires i < |w| && 0 < m <= |w|
    ensures Adds(RiskRow(w, cov, i, m - 1), RiskTerm(w, cov, i, m - 1), RiskRow(w, cov, i, m))
  {
  }

  lemma RiskSumAdds(w: seq<real>, cov: Matrix, k: nat)
    requires 0 < k <= |w|
    ensures Adds(RiskSumTo(w, cov, k - 1), RiskRow(w, cov, k - 1, |w|), RiskSumTo(w, cov, k))
  {
  }

  /** Scaling both weights of a term by c scales the term by c². */
  lemma TermScale(w: seq<real>, v: seq<real>, cov: Matrix, c: real, i: nat, j: nat)
    requires ScaledFrom(v, w, c) && i < |w| && j < |w|
    ensures ScaledBy(c, RiskTerm(w, cov, i, j), RiskTerm(v, cov, i, j))
  {
    TermProduct(c, w[i], w[j], Entry(cov, i, j), v[i], v[j]);
  }

  lemma TermProduct(c: real, a: real, b: real, e: real, x: real, y: real)
    requires x == c * a && y == c * b
    ensures x * y * e == c * c * (a * b * e)
  {
  }

  /** A sum of terms scaled by c² is the sum scaled by c². */
  lemma SumScale(c: real, s: real, t: real, s': real, u: real, v: real, u': real)
    requires Adds(s, t, s') && Adds(u, v, u') && ScaledBy(c, s, u) && ScaledBy(c, t, v)
    ensures ScaledBy(c, s', u')
  {
  }

  /** Scaling every weight by c scales the portfolio risk by |c|. */
  lemma RiskHomogeneous(w: seq<real>, cov: Matrix, c: real, sqrt: real -> real)
    requires IsSqrt(sqrt)
    ensures PortfolioRiskOf(Scaled(w, c), cov, sqrt) == (if c < 0.0 then -c else c) * PortfolioRiskOf(w, cov, sqrt)
  {
    var v := Scaled(w, c);
    var a := if c < 0.0 then -c else c;
    RiskSumScaled(w, v, cov, c, |w|);
    AbsScale(c, a, RiskSum(w, cov), RiskSum(v, cov));
    RootScale(sqrt, a, RiskSum(w, cov), RiskSum(v, cov));
  }

  lemma AbsScale(c: real, a: real, s: real, y: real)
    requires ScaledBy(c, s, y) && a == (if c < 0.0 then -c else c)
    ensures y == a * a * s
  {
    assert c * c == a * a;
  }

  lemma RootScale(sqrt: real -> real, a: real, s: real, y: real)
    requires IsSqrt(sqrt) && 0.0 <= a && y == a * a * s
    ensures sqrt(MaxReal(0.0, y)) == a * sqrt(MaxReal(0.0, s))
  {
    ClippedScale(a, s);
    if s <= 0.0 {
      SqrtZero(sqrt);
    } else {
      SqrtScale(sqrt, a, s);
    }
  }

  lemma ClippedScale(a: real, s: real)
    requires 0.0 <= a
    ensures s <= 0.0 ==> MaxReal(0.0, a * a * s) == 0.0 && MaxReal(0.0, s) == 0.0
    ensures 0.0 < s ==> MaxReal(0.0, a * a * s) == a * a * s && MaxReal(0.0, s) == s
  {
    var aa := a * a;
    assert 0.0 <= aa by {
      if a != 0.0 { ProductPositive(a, a); }
    }
    if s < 0.0 && aa != 0.0 {
      ProductPositive(aa, -s);
    } else if 0.0 < s && aa != 0.0 {
      ProductPositive(aa, s);
    }
  }

  /** sqrt(a² s) = a sqrt(s) for non-negative a and s. */
  lemma SqrtScale(sqrt: real -> real, a: real, s: real)
    requires IsSqrt(sqrt) && 0.0 <= a && 0.0 <= s
    ensures sqrt(a * a * s) == a * sqrt(s)
  {
    var r := sqrt(s);
    assert 0.0 <= r && Square(r) == s;
    var y := a * r;
    assert 0.0 <= y by {
      if a != 0.0 && r != 0.0 { ProductPositive(a, r); }
    }
    assert Square(y) == a * a * s by {
      assert Square(y) == (a * a) * (r * r);
    }
    assert sqrt(Square(y)) == y;
  }

  // ---------------------------------------------------------------------
  // Sector concentration
  // ---------------------------------------------------------------------

  function Holdings(assets: seq<Asset>): (hs: seq<Holding>)
    ensures |hs| == |assets|
    ensures forall i :: 0 <= i < |assets| ==> hs[i] == Holding(assets[i].sector, assets[i].weight)
  {
    seq(|assets|, i requires 0 <= i < |assets| => Holding(assets[i].sector, assets[i].weight))
  }

  /**
   * `calculateSectorConcentration`: assets without a sector are ignored, the
   * weights are summed per sector, and the result is Σ sectorWeight², the
   * Herfindahl–Hirschman index.
   */
  function SectorConcentration(assets: seq<Asset>): (r: real)
    ensures 0.0 <= r
  {
    Hhi(SectorTotals(Holdings(assets), true))
  }

  /** Each term of the index is a non-empty sector, once, with the sum of its assets' weights. */
  lemma SectorConcentrationTerms(assets: seq<Asset>)
    ensures SectorConcentration(assets) == Hhi(SectorTotals(Holdings(assets), true))
    ensures DistinctKeys(SectorTotals(Holdings(assets), true))
    ensures forall k :: 0 <= k < |SectorTotals(Holdings(assets), true)| ==>
      (SectorTotals(Holdings(assets), true)[k].sector != "" &&
       SectorTotals(Holdings(assets), true)[k].total ==
         SectorSum(Holdings(assets), SectorTotals(Holdings(assets), true)[k].sector))
  {
    SectorTotalsEntries(Holdings(assets), true);
  }

  // ---------------------------------------------------------------------
  // Gradient optimiser
  // ---------------------------------------------------------------------

  const Iterations: nat := 1000
  const LearningRate: real := 0.001

  /** The `{low, medium, high}[riskTolerance]` lookup; any other name gives undefined. */
  function RiskMultiplier(tolerance: string): (m: Option<real>)
    ensures m.Some? <==> tolerance in {"low", "medium", "high"}
  {
    if tolerance == "low" then Some(0.5)
    else if tolerance == "medium" then Some(1.0)
    else if tolerance == "high" then Some(1.5)
    else None
  }

  /** Σ_{j<m} 2 * cov[i][j] * w_j * mult. */
  function RiskGradient(w: seq<real>, cov: Matrix, mult: real, i: nat, m: nat): real
    requires IsSquare(cov, |w|) && i < |w| && m <= |w|
  {
    if m == 0 then 0.0 else RiskGradient(w, cov, mult, i, m - 1) + 2.0 * cov[i][m - 1] * w[m - 1] * mult
  }

  /** The gradient of mult * wᵀΣw + (wᵀμ − target)², entry by entry. */
  function Gradients(w: seq<real>, cov: Matrix, er: seq<real>, target: real, mult: real): (g: seq<real>)
    requires |w| == |er| && IsSquare(cov, |w|)
    ensures |g| == |w|
  {
    var returnGradient := (Dot(w, er, |w|) - target) * 2.0;
    seq(|w|, i requires 0 <= i < |w| => RiskGradient(w, cov, mult, i, |w|) + returnGradient * er[i])
  }

  /** `calculateGradients`: the two loops, proved to compute `Gradients`. */
  method CalculateGradients(w: seq<real>, cov: Matrix, er: seq<real>, target: real, mult: real)
    returns (g: seq<real>)
    requires |w| == |er| && IsSquare(cov, |w|)
    ensures g == Gradients(w, cov, er, target, mult)
  {
    var n := |w|;
    var risk := RiskGradients(w, cov, mult);
    var current := 0.0;
    var k := 0;
    while k < n
      invariant 0 <= k <= n
      invariant current == Dot(w, er, k)
    {
      current := current + w[k] * er[k];
      k := k + 1;
    }
    var returnGradient := (current - target) * 2.0;
    g := [];
    var i := 0;
    while i < n
      invariant 0 <= i <= n && |g| == i
      invariant forall k :: 0 <= k < i ==> g[k] == risk[k] + returnGradient * er[k]
    {
      g := g + [risk[i] + returnGradient * er[i]];
      i := i + 1;
    }
    var expected := Gradients(w, cov, er, target, mult);
    assert |g| == |expected|;
    assert forall k :: 0 <= k < n ==> g[k] == expected[k];
  }

  /** The first loop of `calculateGradients`: the risk part of every entry. */
  method RiskGradients(w: seq<real>, cov: Matrix, mult: real) returns (g: seq<real>)
    requires IsSquare(cov, |w|)
    ensures |g| == |w| && forall k :: 0 <= k < |w| ==> g[k] == RiskGradient(w, cov, mult, k, |w|)
  {
    var n := |w|;
    g := [];
    var i := 0;
    while i < n
      invariant 0 <= i <= n && |g| == i
      invariant forall k :: 0 <= k < i ==> g[k] == RiskGradient(w, cov, mult, k, n)
    {
      var acc := 0.0;
      var j := 0;
      while j < n
        invariant 0 <= j <= n
        invariant acc == RiskGradient(w, cov, mult, i, j)
      {
        acc := acc + 2.0 * cov[i][j] * w[j] * mult;
        j := j + 1;
      }
      g := g + [acc];
      i := i + 1;
    }
  }

  /** `Math.max(0, Math.min(1, w - learningRate * g))` for every weight. */
  function Clipped(w: seq<real>, g: seq<real>): (c: seq<real>)
    requires |g| == |w|
    ensures |c| == |w| && forall j :: 0 <= j < |w| ==> 0.0 <= c[j] <= 1.0
  {
    seq(|w|, j requires 0 <= j < |w| => Clamp(w[j] - LearningRate * g[j], 0.0, 1.0))
  }

  /**
   * One iteration of `simplifiedOptimization`: move against the gradient, clamp
   * to [0, 1] and divide by the sum. None when every clamped weight is 0, where
   * JavaScript divides by a zero sum and the weights become NaN.
   */
  function Step(w: seq<real>, cov: Matrix, er: seq<real>, target: real, mult: real): (r: Option<seq<real>>)
    requires |w| == |er| && IsSquare(cov, |w|)
    ensures r.Some? ==> |r.value| == |w|
  {
    var c := Clipped(w, Gradients(w, cov, er, target, mult));
    var s := Sum(c);
    if |w| > 0 && s == 0.0 then None
    else Some(seq(|w|, j requires 0 <= j < |w| => c[j] / s))
  }

  /** A defined step leaves weights in [0, 1] that sum to 1. */
  lemma StepNormalised(w: seq<real>, cov: Matrix, er: seq<real>, target: real, mult: real)
    requires |w| == |er| && IsSquare(cov, |w|) && |w| > 0
    requires Step(w, cov, er, target, mult).Some?
    ensures Normalised(Step(w, cov, er, target, mult).value)
  {
    var c := Clipped(w, Gradients(w, cov, er, target, mult));
    var s := Sum(c);
    var v := Step(w, cov, er, target, mult).value;
    SumFirstNonNegative(c, |c|);
    assert 0.0 < s;
    SumFirstScaled(c, v, s, |w|);
    DivideBySelf(s);
    forall j | 0 <= j < |w|
      ensures 0.0 <= v[j] <= 1.0
    {
      EntryAtMostSum(c, |c|, j);
      DivisionBetween(c[j], s, 0.0, 1.0);
    }
  }

  lemma DivideBySelf(s: real)
    requires s != 0.0
    ensures s / s == 1.0
  {
  }

  /** Non-negative weights, none above 1, summing to 1. */
  predicate Normalised(w: seq<real>) {
    (forall j :: 0 <= j < |w| ==> 0.0 <= w[j] <= 1.0) && Sum(w) == 1.0
  }

  /** The weights after k iterations from w0; None once they have become NaN. */
  function Run(w0: seq<real>, cov: Matrix, er: seq<real>, target: real, mult: real, k: nat): (r: Option<seq<real>>)
    requires |w0| == |er| && IsSquare(cov, |w0|)
    ensures r.Some? ==> |r.value| == |w0|
  {
    if k == 0 then Some(w0)
    else
      match Run(w0, cov, er, target, mult, k - 1)
      case None => None
      case Some(v) => Step(v, cov, er, target, mult)
  }

  lemma {:induction false} RunNormalised(w0: seq<real>, cov: Matrix, er: seq<real>, target: real, mult: real, k: nat)
    requires |w0| == |er| && IsSquare(cov, |w0|) && |w0| > 0 && k > 0
    requires Run(w0, cov, er, target, mult, k).Some?
    ensures Normalised(Run(w0, cov, er, target, mult, k).value)
  {
    var v := Run(w0, cov, er, target, mult, k - 1).value;
    StepNormalised(v, cov, er, target, mult);
  }

  /** The equal starting weights 1/n. */
  function EqualWeights(n: nat): (w: seq<real>)
    ensures |w| == n
  {
    seq(n, i requires 0 <= i < n => 1.0 / n as real)
  }

  /**
   * `simplifiedOptimization` (what `findOptimalWeights` returns): 1000 steps from
   * equal weights. An unknown tolerance makes every weight NaN unless there are
   * no assets.
   */
  function OptimisedWeights(cov: Matrix, er: seq<real>, target: real, tolerance: string): (r: Option<seq<real>>)
    requires IsSquare(cov, |er|)
    ensures r.Some? ==> |r.value| == |er|
    ensures RiskMultiplier(tolerance).None? ==> (r.None? <==> |er| > 0)
  {
    match RiskMultiplier(tolerance)
    case None => if |er| == 0 then Some([]) else None
    case Some(mult) => Run(EqualWeights(|er|), cov, er, target, mult, Iterations)
  }

  /** Whenever the optimiser returns weights for a non-empty portfolio, they are long-only and fully invested. */
  lemma OptimisedWeightsNormalised(cov: Matrix, er: seq<real>, target: real, tolerance: string)
    requires IsSquare(cov, |er|) && |er| > 0
    requires OptimisedWeights(cov, er, target, tolerance).Some?
    ensures Normalised(OptimisedWeights(cov, er, target, tolerance).value)
  {
    var mult := RiskMultiplier(tolerance).value;
    RunNormalised(EqualWeights(|er|), cov, er, target, mult, Iterations);
  }

  /** The optimisation loop, proved to compute `OptimisedWeights`. */
  method SimplifiedOptimization(cov: Matrix, er: seq<real>, target: real, tolerance: string)
    returns (weights: Option<seq<real>>)
    requires IsSquare(cov, |er|)
    ensures weights == OptimisedWeights(cov, er, target, tolerance)
  {
    var n := |er|;
    var m := RiskMultiplier(tolerance);
    if m.None? {
      return if n == 0 then Some([]) else None;
    }
    var mult := m.value;
    var w := EqualWeights(n);
    var i := 0;
    while i < Iterations
      invariant 0 <= i <= Iterations && |w| == n
      invariant Run(EqualWeights(n), cov, er, target, mult, i) == Some(w)
    {
      var next := UpdateWeights(w, cov, er, target, mult);
      RunNext(EqualWeights(n), cov, er, target, mult, i, w);
      if next.None? {
        RunStaysUndefined(EqualWeights(n), cov, er, target, mult, i + 1, Iterations);
        return None;
      }
      w := next.value;
      i := i + 1;
    }
    weights := Some(w);
  }

  /** One pass of the loop body: gradients, clamping, and division by the sum. */
  method UpdateWeights(w: seq<real>, cov: Matrix, er: seq<real>, target: real, mult: real)
    returns (next: Option<seq<real>>)
    requires |w| == |er| && IsSquare(cov, |w|)
    ensures next == Step(w, cov, er, target, mult)
  {
    var n := |w|;
    var g := CalculateGradients(w, cov, er, target, mult);
    var clipped := Clipped(w, g);
    var sum := 0.0;
    var k := 0;
    while k < n
      invariant 0 <= k <= n
      invariant sum == SumFirst(clipped, k)
    {
      sum := sum + clipped[k];
      k := k + 1;
    }
    if n > 0 && sum == 0.0 {
      return None;
    }
    next := Some(seq(n, j requires 0 <= j < n => clipped[j] / sum));
  }

  lemma RunNext(w0: seq<real>, cov: Matrix, er: seq<real>, target: real, mult: real, k: nat, w: seq<real>)
    requires |w0| == |er| && IsSquare(cov, |w0|)
    requires Run(w0, cov, er, target, mult, k) == Some(w)
    ensures Run(w0, cov, er, target, mult, k + 1) == Step(w, cov, er, target, mult)
  {
  }

  /** Once the weights are NaN they stay NaN. */
  lemma {:induction false} RunStaysUndefined(w0: seq<real>, cov: Matrix, er: seq<real>, target: real, mult: real, k: nat, k': nat)
    requires |w0| == |er| && IsSquare(cov, |w0|) && k <= k'
    requires Run(w0, cov, er, target, mult, k).None?
    ensures Run(w0, cov, er, target, mult, k').None?
  {
    if k < k' {
      RunStaysUndefined(w0, cov, er, target, mult, k, k' - 1);
    }
  }

  // ---------------------------------------------------------------------
  // Efficient frontier (101 points)
  // ---------------------------------------------------------------------

  const FrontierSteps: nat := 100

  /** i / 100: how far along the sweep point i is. */
  function SweepFraction(i: nat): real {
    i as real / FrontierSteps as real
  }

  /** The target return of point i: (i / 100) * top, where the caller passes top = max(expectedReturns). */
  function FrontierTarget(top: real, i: nat): real {
    SweepFraction(i) * top
  }

  /** The sweep runs from 0 to the largest expected return, rising when that return is not negative. */
  lemma FrontierTargetsSweep(top: real, i: nat, j: nat)
    requires i <= j
    ensures FrontierTarget(top, 0) == 0.0 && FrontierTarget(top, FrontierSteps) == top
    ensures 0.0 <= top ==> FrontierTarget(top, i) <= FrontierTarget(top, j)
  {
    SweepEnds(top);
    if 0.0 <= top {
      assert SweepFraction(i) <= SweepFraction(j);
      MonotoneScale(SweepFraction(i), SweepFraction(j), top);
    }
  }

  lemma SweepEnds(m: real)
    ensures SweepFraction(0) * m == 0.0 && SweepFraction(FrontierSteps) * m == m
  {
    assert SweepFraction(0) == 0.0 && SweepFraction(FrontierSteps) == 1.0;
  }

  /** Scaling by a non-negative m keeps the order. */
  lemma MonotoneScale(f: real, g: real, m: real)
    requires f <= g && 0.0 <= m
    ensures f * m <= g * m
  {
    if f < g && 0.0 < m {
      ProductPositive(g - f, m);
      assert g * m - f * m == (g - f) * m;
    }
  }

  datatype FrontierPoint = FrontierPoint(risk: real, return_: real)

  /**
   * Point i: the optimiser's weights for target i at 'medium' tolerance, their
   * risk against the optimiser's own covariance and their return; None when the
   * weights are NaN.
   */
  function FrontierPointAt(o: Optimizer, cov: Matrix, er: seq<real>, i: nat, sqrt: real -> real): Option<FrontierPoint>
    requires |er| > 0 && IsSquare(cov, |er|)
  {
    match OptimisedWeights(cov, er, FrontierTarget(MaxOf(er), i), "medium")
    case None => None
    case Some(w) => Some(FrontierPoint(PortfolioRiskOf(w, o.covariance, sqrt), PortfolioReturn(w, er)))
  }

  /** Every point of the frontier returns between the smallest and the largest expected return, at a risk >= 0. */
  lemma FrontierPointBounded(o: Optimizer, cov: Matrix, er: seq<real>, i: nat, sqrt: real -> real, lo: real, hi: real)
    requires |er| > 0 && IsSquare(cov, |er|) && IsSqrt(sqrt)
    requires forall k :: 0 <= k < |er| ==> lo <= er[k] <= hi
    requires FrontierPointAt(o, cov, er, i, sqrt).Some?
    ensures lo <= FrontierPointAt(o, cov, er, i, sqrt).value.return_ <= hi
    ensures 0.0 <= FrontierPointAt(o, cov, er, i, sqrt).value.risk
  {
    var w := OptimisedWeights(cov, er, FrontierTarget(MaxOf(er), i), "medium").value;
    OptimisedWeightsNormalised(cov, er, FrontierTarget(MaxOf(er), i), "medium");
    DotBetween(w, er, lo, hi, |w|);
  }

  /** `calculateEfficientFrontier`: the 101 points for targets 0/100 ... 100/100 of the largest expected return. */
  method CalculateEfficientFrontier(o: Optimizer, cov: Matrix, er: seq<real>, sqrt: real -> real)
    returns (points: seq<Option<FrontierPoint>>)
    requires |er| > 0 && IsSquare(cov, |er|)
    ensures |points| == FrontierSteps + 1
    ensures forall i :: 0 <= i <= FrontierSteps ==> points[i] == FrontierPointAt(o, cov, er, i, sqrt)
  {
    points := [];
    var i := 0;
    while i <= FrontierSteps
      invariant 0 <= i <= FrontierSteps + 1 && |points| == i
      invariant forall k :: 0 <= k < i ==> points[k] == FrontierPointAt(o, cov, er, k, sqrt)
    {
      var point := ComputeFrontierPoint(o, cov, er, i, sqrt);
      points := points + [point];
      i := i + 1;
    }
  }

  /** One pass of the frontier loop. */
  method ComputeFrontierPoint(o: Optimizer, cov: Matrix, er: seq<real>, i: nat, sqrt: real -> real)
    returns (point: Option<FrontierPoint>)
    requires |er| > 0 && IsSquare(cov, |er|)
    ensures point == FrontierPointAt(o, cov, er, i, sqrt)
  {
    var target := FrontierTarget(MaxOf(er), i);
    var weights := SimplifiedOptimization(cov, er, target, "medium");
    point := None;
    if weights.Some? {
      var risk := CalculatePortfolioRisk(weights, Some(o.covariance), sqrt);
      point := Some(FrontierPoint(risk, PortfolioReturn(weights.value, er)));
    }
  }

  // ---------------------------------------------------------------------
  // Sharpe ratio
  // ---------------------------------------------------------------------

  function Weights(assets: seq<Asset>): (w: seq<real>)
    ensures |w| == |assets| && forall i :: 0 <= i < |assets| ==> w[i] == assets[i].weight
  {
    seq(|assets|, i requires 0 <= i < |assets| => assets[i].weight)
  }

  /**
   * `calculateSharpeRatio` as written: the excess return divided by the square
   * root of `calculatePortfolioRisk`, which is itself already a square root.
   * None when that denominator is 0.
   */
  function SharpeAsWritten(o: Optimizer, sqrt: real -> real): (r: Option<real>)
    requires |o.assets| <= |o.expectedReturns|
    ensures r.Some? ==>
      r.value * sqrt(PortfolioRiskOf(Weights(o.assets), o.covariance, sqrt)) ==
      PortfolioReturn(Weights(o.assets), o.expectedReturns) - RiskFreeRate
  {
    var w := Weights(o.assets);
    var denominator := sqrt(PortfolioRiskOf(w, o.covariance, sqrt));
    if denominator == 0.0 then None
    else Some((PortfolioReturn(w, o.expectedReturns) - RiskFreeRate) / denominator)
  }

  /**
   * The Sharpe ratio as `calculatePortfolioMetrics` computes it: the excess
   * return per unit of the portfolio's standard deviation.
   */
  function SharpeRatio(o: Optimizer, sqrt: real -> real): (r: Option<real>)
    requires |o.assets| <= |o.expectedReturns|
    ensures r.Some? ==>
      r.value * PortfolioRiskOf(Weights(o.assets), o.covariance, sqrt) ==
      PortfolioReturn(Weights(o.assets), o.expectedReturns) - RiskFreeRate
  {
    var w := Weights(o.assets);
    var risk := PortfolioRiskOf(w, o.covariance, sqrt);
    if risk == 0.0 then None
    else Some((PortfolioReturn(w, o.expectedReturns) - RiskFreeRate) / risk)
  }

  /** The one-asset optimiser of the counterexample: variance 0.0016, so a standard deviation of 0.04. */
  function SharpeWitness(): Optimizer {
    Optimizer([100.0], [Asset("A", 1.0, [], [100.0], "")], [[0.0016]], [0.1])
  }

  /**
   * With a standard deviation of 0.04, the as-written ratio divides by
   * sqrt(0.04) = 0.2 and reports 0.2625 where the ratio is 1.3125.
   */
  lemma SharpeAsWrittenDiffers(sqrt: real -> real)
    requires IsSqrt(sqrt)
    ensures SharpeRatio(SharpeWitness(), sqrt) == Some(1.3125)
    ensures SharpeAsWritten(SharpeWitness(), sqrt) == Some(0.2625)
  {
    var o := SharpeWitness();
    var w := Weights(o.assets);
    assert w == [1.0];
    assert RiskSum(w, o.covariance) == 0.0016 by {
      assert Entry(o.covariance, 0, 0) == 0.0016;
      assert RiskRow(w, o.covariance, 0, 0) == 0.0;
      assert RiskRow(w, o.covariance, 0, 1) == 0.0016;
      assert RiskSumTo(w, o.covariance, 0) == 0.0;
      assert RiskSumTo(w, o.covariance, 1) == 0.0016;
    }
    assert Square(0.04) == 0.0016;
    assert sqrt(Square(0.04)) == 0.04;
    assert PortfolioRiskOf(w, o.covariance, sqrt) == 0.04;
    assert Square(0.2) == 0.04;
    assert sqrt(Square(0.2)) == 0.2;
    assert PortfolioReturn(w, o.expectedReturns) == 0.1 by {
      assert Dot(w, o.expectedReturns, 1) == 0.1;
    }
  }

  // ---------------------------------------------------------------------
  // CVaR on the caller's array
  // ---------------------------------------------------------------------

  /**
   * `calculateCVaR`: sorts the CALLER's array in place, then averages the first
   * `cutoff` entries (None when the cutoff is 0).
   */
  method CalculateCVaR(a: array<real>, confidence: real) returns (cvar: Option<real>)
    modifies a
    ensures a[..] == Sort(old(a[..]))
    ensures cvar == TailMean(a[..], Cutoff(confidence, a.Length))
  {
    SortInPlace(a);
    var cutoff := Cutoff(confidence, a.Length);
    if cutoff == 0 {
      return None;
    }
    var sum := SumPrefix(a[..], SliceEnd(a.Length, cutoff));
    cvar := Some(sum / cutoff as real);
  }

  /** For a confidence that leaves a tail strictly inside the series, the CVaR lies between the minimum and the cutoff entry. */
  lemma CVaRWithinTail(s: seq<real>, confidence: real)
    requires 0 < Cutoff(confidence, |s|) < |s|
    ensures TailMean(Sort(s), Cutoff(confidence, |s|)).Some?
    ensures Sort(s)[0] <= TailMean(Sort(s), Cutoff(confidence, |s|)).value <= Sort(s)[Cutoff(confidence, |s|)]
  {
    TailMeanBetween(Sort(s), Cutoff(confidence, |s|));
  }

  // ---------------------------------------------------------------------
  // Variance, beta, alpha, tracking error
  // ---------------------------------------------------------------------

  /**
   * `calculateVariance`: the squared deviations from the mean, divided by n - 1.
   * An empty series maps to no deviations and divides 0 by -1, a zero; a single
   * value divides 0 by 0, where JavaScript computes NaN (None).
   */
  function Variance(s: seq<real>): (v: Option<real>)
    ensures v.None? <==> |s| == 1
  {
    if |s| == 0 then Some(0.0)
    else if |s| == 1 then None
    else Some(CentredCross(s, s, Mean(s), Mean(s), |s|) / (|s| - 1) as real)
  }

  /** The variance is the covariance of a series with itself, hence never negative. */
  lemma VarianceIsSelfCovariance(s: seq<real>)
    requires |s| != 1
    ensures Variance(s) == Some(SampleCovariance(s, s))
    ensures 0.0 <= Variance(s).value
  {
    if |s| >= 2 {
      SampleCovarianceSelf(s);
    }
  }

  /**
   * `covariance / marketVariance`; None when that is not a finite number: a
   * market series too short for a variance, a one-day portfolio series (0 / 0
   * covariance), or a market variance of zero.
   */
  function BetaOf(pr: seq<real>, mr: seq<real>): (b: Option<real>)
    ensures b.None? <==> |mr| < 2 || |pr| == 1 || SampleCovariance(mr, mr) == 0.0
    ensures b.Some? ==> b.value * SampleCovariance(mr, mr) == SampleCovariance(pr, mr)
  {
    if !CovarianceDefined(pr, mr) then None
    else
      match Variance(mr)
      case None => None
      case Some(mv) => if mv == 0.0 then None else Some(SampleCovariance(pr, mr) / mv)
  }

  /** A series' beta against itself is 1 whenever it is defined. */
  lemma BetaOfItself(x: seq<real>)
    ensures BetaOf(x, x).Some? ==> BetaOf(x, x).value == 1.0
    ensures |x| >= 2 && Variance(x) != Some(0.0) ==> BetaOf(x, x) == Some(1.0)
  {
    if |x| >= 2 {
      VarianceIsSelfCovariance(x);
    }
  }

  /** `reduce((a, b) => (1 + a) * (1 + b) - 1, 0)` over the first n returns. */
  function CompoundFold(rs: seq<real>, n: nat): real
    requires n <= |rs|
  {
    if n == 0 then 0.0 else (1.0 + CompoundFold(rs, n - 1)) * (1.0 + rs[n - 1]) - 1.0
  }

  /** The fold is the compounded growth less one. */
  lemma {:induction false} CompoundFoldIsGrowth(rs: seq<real>, n: nat)
    requires n <= |rs|
    ensures CompoundFold(rs, n) == Growth(rs, n) - 1.0
  {
    if n > 0 {
      CompoundFoldIsGrowth(rs, n - 1);
    }
  }

  /**
   * `calculateAnnualizedReturn` / `calculateMarketReturn`:
   * (1 + total)^(1 / years) - 1 with years = n / 252. None for an empty series,
   * where JavaScript computes Math.pow(1, Infinity) = NaN.
   */
  function AnnualisedReturnOf(rs: seq<real>, pow: (real, real) -> real): (r: Option<real>)
    ensures r.Some? <==> rs != []
  {
    if rs == [] then None
    else Some(pow(1.0 + CompoundFold(rs, |rs|), 1.0 / (|rs| as real / 252.0)) - 1.0)
  }

  /** Jensen's alpha: R_p − (r_f + β (R_m − r_f)); None when the beta or the portfolio's annualised return is. */
  function AlphaOf(pr: seq<real>, mr: seq<real>, pow: (real, real) -> real): (a: Option<real>)
    ensures a.None? <==> BetaOf(pr, mr).None? || pr == []
    ensures a.Some? ==> a.value == AnnualisedReturnOf(pr, pow).value - RiskFreeRate
                                   - BetaOf(pr, mr).value * (AnnualisedReturnOf(mr, pow).value - RiskFreeRate)
  {
    match (BetaOf(pr, mr), AnnualisedReturnOf(pr, pow), AnnualisedReturnOf(mr, pow))
    case (Some(beta), Some(rp), Some(rm)) => Some(rp - (RiskFreeRate + beta * (rm - RiskFreeRate)))
    case _ => None
  }

  /** A series' alpha against itself is 0 whenever it is defined. */
  lemma AlphaOfItself(x: seq<real>, pow: (real, real) -> real)
    ensures AlphaOf(x, x, pow).Some? ==> AlphaOf(x, x, pow).value == 0.0
  {
    BetaOfItself(x);
  }

  /**
   * `calculateTrackingError`: the root of the variance of the daily differences;
   * None when the market series is shorter (an undefined difference) or the
   * portfolio has a single return.
   */
  function TrackingErrorOf(pr: seq<real>, mr: seq<real>, sqrt: real -> real): (t: Option<real>)
    ensures t.None? <==> |mr| < |pr| || |pr| == 1
  {
    if |mr| < |pr| then None
    else
      var differences := seq(|pr|, i requires 0 <= i < |pr| => pr[i] - mr[i]);
      match Variance(differences)
      case None => None
      case Some(v) => Some(sqrt(v))
  }

  /** A series tracks itself with zero error. */
  lemma TrackingErrorOfItself(x: seq<real>, sqrt: real -> real)
    requires IsSqrt(sqrt) && |x| != 1
    ensures TrackingErrorOf(x, x, sqrt) == Some(0.0)
  {
    var d := seq(|x|, i requires 0 <= i < |x| => x[i] - x[i]);
    if |x| >= 2 {
      SumFirstZero(d, |d|);
      CentredZero(d, |d|);
    }
    SqrtZero(sqrt);
  }

  /** Without portfolio returns there are no differences, and the error is the root of 0 / -1, a zero. */
  lemma TrackingErrorOfEmpty(mr: seq<real>, sqrt: real -> real)
    requires IsSqrt(sqrt)
    ensures TrackingErrorOf([], mr, sqrt) == Some(0.0)
  {
    SqrtZero(sqrt);
  }

  /** Whenever it is defined, the tracking error is never negative. */
  lemma TrackingErrorNonNegative(pr: seq<real>, mr: seq<real>, sqrt: real -> real)
    requires IsSqrt(sqrt) && TrackingErrorOf(pr, mr, sqrt).Some?
    ensures 0.0 <= TrackingErrorOf(pr, mr, sqrt).value
  {
    var differences := seq(|pr|, i requires 0 <= i < |pr| => pr[i] - mr[i]);
    VarianceIsSelfCovariance(differences);
  }

  lemma {:induction false} SumFirstZero(d: seq<real>, n: nat)
    requires n <= |d| && forall i :: 0 <= i < |d| ==> d[i] == 0.0
    ensures SumFirst(d, n) == 0.0
  {
    if n > 0 {
      SumFirstZero(d, n - 1);
    }
  }

  lemma {:induction false} CentredZero(d: seq<real>, n: nat)
    requires n <= |d| && forall i :: 0 <= i < |d| ==> d[i] == 0.0
    ensures CentredCross(d, d, 0.0, 0.0, n) == 0.0
  {
    if n > 0 {
      CentredZero(d, n - 1);
    }
  }

  // ---------------------------------------------------------------------
  // Weighted daily portfolio returns
  // ---------------------------------------------------------------------

  /** Every asset has at least as many prices as the first, and none is taken relative to 0. */
  predicate AlignedPrices(assets: seq<Asset>) {
    |assets| > 0 &&
    forall j :: 0 <= j < |assets| ==>
      |assets[j].prices| >= |assets[0].prices| && NonZeroBases(assets[j].prices)
  }

  /** Σ_{j<m} w_j * (p_j[t+1] − p_j[t]) / p_j[t]. */
  function DailyReturn(assets: seq<Asset>, t: nat, m: nat): real
    requires AlignedPrices(assets) && m <= |assets| && t + 1 < |assets[0].prices|
  {
    if m == 0 then 0.0
    else
      var p := assets[m - 1].prices;
      DailyReturn(assets, t, m - 1) + assets[m - 1].weight * ((p[t + 1] - p[t]) / p[t])
  }

  function PortfolioDailyReturns(assets: seq<Asset>): (r: seq<real>)
    requires AlignedPrices(assets)
    ensures |r| == if |assets[0].prices| == 0 then 0 else |assets[0].prices| - 1
  {
    var len := if |assets[0].prices| == 0 then 0 else |assets[0].prices| - 1;
    seq(len, t requires 0 <= t < len => DailyReturn(assets, t, |assets|))
  }

  /** `calculatePortfolioReturns`: for every day after the first, the weighted sum of the assets' returns. */
  method CalculatePortfolioReturns(assets: seq<Asset>) returns (daily: seq<real>)
    requires AlignedPrices(assets)
    ensures daily == PortfolioDailyReturns(assets)
  {
    daily := [];
    var len := |assets[0].prices|;
    var i := 1;
    while i < len
      invariant 1 <= i && (len == 0 ==> i == 1) && (len > 0 ==> i <= len)
      invariant |daily| == i - 1
      invariant forall t :: 0 <= t < i - 1 ==> daily[t] == DailyReturn(assets, t, |assets|)
    {
      var r := 0.0;
      var j := 0;
      while j < |assets|
        invariant 0 <= j <= |assets|
        invariant r == DailyReturn(assets, i - 1, j)
      {
        var p := assets[j].prices;
        r := r + assets[j].weight * ((p[i] - p[i - 1]) / p[i - 1]);
        j := j + 1;
      }
      daily := daily + [r];
      i := i + 1;
    }
  }

  /** Σ_{j<m} w_j * r_j[t] over the assets' stored return series. */
  function WeightedAssetReturn(assets: seq<Asset>, t: nat, m: nat): real
    requires m <= |assets| && forall j :: 0 <= j < m ==> t < |assets[j].periodReturns|
  {
    if m == 0 then 0.0 else WeightedAssetReturn(assets, t, m - 1) + assets[m - 1].weight * assets[m - 1].periodReturns[t]
  }

  /** The portfolio's return on day t is the weighted sum of the assets' own returns on that day. */
  lemma {:induction false} DailyReturnIsWeighted(assets: seq<Asset>, t: nat, m: nat)
    requires AlignedPrices(assets) && m <= |assets| && t + 1 < |assets[0].prices|
    requires forall j :: 0 <= j < |assets| ==> Tidy(assets[j])
    ensures forall j :: 0 <= j < m ==> t < |assets[j].periodReturns|
    ensures DailyReturn(assets, t, m) == WeightedAssetReturn(assets, t, m)
  {
    if m > 0 {
      DailyReturnIsWeighted(assets, t, m - 1);
      SimpleReturnsAt(assets[m - 1].prices, t);
    }
  }

  /**
   * `calculateBeta`: the portfolio's daily returns against the market's price
   * returns; None with at most two market prices, with exactly two asset prices
   * (one portfolio return), or for a market whose returns do not vary.
   */
  function Beta(o: Optimizer): (b: Option<real>)
    requires AlignedPrices(o.assets) && NonZeroBases(o.marketPrices)
    ensures b.None? <==> |o.marketPrices| <= 2 || |o.assets[0].prices| == 2
                          || SampleCovariance(SimpleReturns(o.marketPrices), SimpleReturns(o.marketPrices)) == 0.0
  {
    BetaOf(PortfolioDailyReturns(o.assets), SimpleReturns(o.marketPrices))
  }

  /** `calculateAlpha`: None when the beta is, or when there is no portfolio return to annualise. */
  function Alpha(o: Optimizer, pow: (real, real) -> real): (a: Option<real>)
    requires AlignedPrices(o.assets) && NonZeroBases(o.marketPrices)
    ensures a.None? <==> Beta(o).None? || |o.assets[0].prices| <= 1
  {
    AlphaOf(PortfolioDailyReturns(o.assets), SimpleReturns(o.marketPrices), pow)
  }

  /**
   * `calculateTrackingError`: None when the market has fewer prices than the
   * assets, or the assets have exactly two; a zero when they have at most one.
   */
  function TrackingError(o: Optimizer, sqrt: real -> real): (t: Option<real>)
    requires AlignedPrices(o.assets) && NonZeroBases(o.marketPrices)
    ensures t.None? <==> (2 <= |o.assets[0].prices| && |o.marketPrices| < |o.assets[0].prices|)
                          || |o.assets[0].prices| == 2
  {
    TrackingErrorOf(PortfolioDailyReturns(o.assets), SimpleReturns(o.marketPrices), sqrt)
  }

  /** Assets with at most one price give no portfolio returns, and a tracking error of zero. */
  lemma TrackingErrorWithoutReturns(o: Optimizer, sqrt: real -> real)
    requires AlignedPrices(o.assets) && NonZeroBases(o.marketPrices)
    requires IsSqrt(sqrt) && |o.assets[0].prices| <= 1
    ensures TrackingError(o, sqrt) == Some(0.0)
  {
    assert PortfolioDailyReturns(o.assets) == [];
    TrackingErrorOfEmpty(SimpleReturns(o.marketPrices), sqrt);
  }

  // ---------------------------------------------------------------------
  // Total value, latest daily return and risk parity
  // ---------------------------------------------------------------------

  /**
   * `calculateTotalValue`: Σ last price × weight × 100, the stored fraction
   * turned back into a percentage. An asset without prices has no last price
   * (`undefined`, so the sum is NaN, None).
   */
  function PortfolioValue(assets: seq<Asset>): (v: Option<real>)
    ensures v.None? <==> exists i :: 0 <= i < |assets| && assets[i].prices == []
  {
    if assets == [] then Some(0.0)
    else
      var rest := PortfolioValue(assets[1..]);
      assert forall i :: 1 <= i < |assets| ==> assets[i] == assets[1..][i - 1];
      if assets[0].prices == [] || rest.None? then None
      else Some(ValueTerm(assets[0].prices[|assets[0].prices| - 1], assets[0].weight) + rest.value)
  }

  /** One asset's term of the total value: its last price times its weight as a percentage. */
  function ValueTerm(price: real, weight: real): real {
    price * weight * 100.0
  }

  /** Σ last price × weight over the detail rows that have prices, the weight as given (a percentage). */
  function RowsValue(rows: seq<DetailRow>): real {
    if rows == [] then 0.0 else RowTerm(rows[0]) + RowsValue(rows[1..])
  }

  /** One row's part of RowsValue: last price × percentage weight, 0 without prices. */
  function RowTerm(row: DetailRow): real {
    if HasPrices(row) then row.prices.value[|row.prices.value| - 1] * row.weight else 0.0
  }

  /** Dividing the weight by 100 on the way in and multiplying by 100 on the way out cancel. */
  lemma PercentRoundTrip(price: real, weight: real)
    ensures ValueTerm(price, weight / 100.0) == price * weight
  {
    assert weight / 100.0 * 100.0 == weight;
    calc {
      ValueTerm(price, weight / 100.0);
      price * (weight / 100.0) * 100.0;
      price * (weight / 100.0 * 100.0);
    }
  }

  /** The asset built from a row with prices contributes that row's term to the total value. */
  lemma ValueTermOfRow(row: DetailRow)
    requires HasPrices(row) && UsablePrices(row.prices.value)
    ensures ToAsset(row).prices != []
    ensures ValueTerm(ToAsset(row).prices[|ToAsset(row).prices| - 1], ToAsset(row).weight) == RowTerm(row)
  {
    var p := row.prices.value;
    PercentRoundTrip(p[|p| - 1], row.weight);
  }

  /** PortfolioValue unfolded once in front of a list with a value. */
  lemma PortfolioValueCons(a: Asset, rest: seq<Asset>, v: real)
    requires a.prices != [] && PortfolioValue(rest) == Some(v)
    ensures PortfolioValue([a] + rest) == Some(ValueTerm(a.prices[|a.prices| - 1], a.weight) + v)
  {
    assert ([a] + rest)[0] == a && ([a] + rest)[1..] == rest;
  }

  /**
   * The total value of the constructed optimiser is the value of the detail
   * rows it was built from: Σ last price × percentage weight over the rows
   * with prices.
   */
  lemma {:induction false} PortfolioValueOfRows(rows: seq<DetailRow>)
    requires UsableRows(rows)
    ensures PortfolioValue(Keep(rows)) == Some(RowsValue(rows))
  {
    if rows != [] {
      assert UsableRows(rows[1..]) by {
        forall i | 0 <= i < |rows[1..]| && HasPrices(rows[1..][i])
          ensures UsablePrices(rows[1..][i].prices.value)
        {
          assert rows[1..][i] == rows[i + 1];
        }
      }
      PortfolioValueOfRows(rows[1..]);
      var v := RowsValue(rows[1..]);
      if HasPrices(rows[0]) {
        var a := ToAsset(rows[0]);
        assert Keep(rows) == [a] + Keep(rows[1..]);
        ValueTermOfRow(rows[0]);
        PortfolioValueCons(a, Keep(rows[1..]), v);
      } else {
        assert Keep(rows) == Keep(rows[1..]);
      }
    }
  }

  /**
   * One asset's term of `calculateDailyReturn`: nothing with fewer than two
   * prices, else the last price change as a fraction of the previous price,
   * times the weight; a previous price of 0 has no quotient (None).
   */
  function LatestTerm(a: Asset): Option<real> {
    var p := a.prices;
    if |p| < 2 then Some(0.0)
    else if p[|p| - 2] == 0.0 then None
    else Some((p[|p| - 1] - p[|p| - 2]) / p[|p| - 2] * a.weight)
  }

  /** `calculateDailyReturn`: the weighted sum of every asset's latest price change. */
  function LatestDailyReturn(assets: seq<Asset>): (r: Option<real>)
    ensures r.None? <==> exists i :: 0 <= i < |assets| && LatestTerm(assets[i]).None?
  {
    if assets == [] then Some(0.0)
    else
      var rest := LatestDailyReturn(assets[1..]);
      assert forall i :: 1 <= i < |assets| ==> assets[i] == assets[1..][i - 1];
      var head := LatestTerm(assets[0]);
      if head.None? || rest.None? then None else Some(head.value + rest.value)
  }

  /** Σ weight × last period return over the assets that have one. */
  function WeightedLatestReturns(assets: seq<Asset>): real {
    if assets == [] then 0.0 else LastReturnTerm(assets[0]) + WeightedLatestReturns(assets[1..])
  }

  /** An asset's weight times the last entry of its return series, 0 for an empty series. */
  function LastReturnTerm(a: Asset): real {
    var rs := a.periodReturns;
    if rs == [] then 0.0 else rs[|rs| - 1] * a.weight
  }

  /** For an asset as the constructor leaves it, the latest price change is the last period return. */
  lemma LatestTermOfTidy(a: Asset)
    requires Tidy(a)
    ensures LatestTerm(a) == Some(LastReturnTerm(a))
  {
    var p := a.prices;
    if 2 <= |p| {
      var q := (p[|p| - 1] - p[|p| - 2]) / p[|p| - 2];
      assert p[|p| - 2] != 0.0;
      assert a.periodReturns == SimpleReturns(p[..|p| - 1]) + [q];
      assert LastReturnTerm(a) == q * a.weight;
      assert LatestTerm(a).Some? && LatestTerm(a).value == q * a.weight;
      assert LatestTerm(a) == Some(LatestTerm(a).value);
    } else {
      assert a.periodReturns == [];
    }
  }

  /**
   * For assets as the constructor leaves them, the latest daily return is the
   * weighted sum of each asset's last entry of its return series.
   */
  lemma {:induction false} LatestDailyReturnOfTidy(assets: seq<Asset>)
    requires forall i :: 0 <= i < |assets| ==> Tidy(assets[i])
    ensures LatestDailyReturn(assets) == Some(WeightedLatestReturns(assets))
  {
    if assets != [] {
      assert forall i :: 0 <= i < |assets[1..]| ==> assets[1..][i] == assets[i + 1];
      LatestDailyReturnOfTidy(assets[1..]);
      assert Tidy(assets[0]);
      LatestTermOfTidy(assets[0]);
    }
  }

  /** Asset i's risk contribution: its weight times row i of the covariance matrix applied to the weights. */
  function RiskContribution(w: seq<real>, cov: Matrix, i: nat): real
    requires IsSquare(cov, |w|) && i < |w|
  {
    Dot(cov[i], w, |w|) * w[i]
  }

  /** The inner loop of `calculateRiskParity`, proved to compute `RiskContribution`. */
  method CalculateRiskContribution(w: seq<real>, cov: Matrix, i: nat) returns (c: real)
    requires IsSquare(cov, |w|) && i < |w|
    ensures c == RiskContribution(w, cov, i)
  {
    var contribution := 0.0;
    for j := 0 to |w|
      invariant contribution == Dot(cov[i], w, j)
    {
      contribution := contribution + cov[i][j] * w[j];
    }
    c := contribution * w[i];
  }

  function RiskContributions(w: seq<real>, cov: Matrix): (cs: seq<real>)
    requires IsSquare(cov, |w|)
    ensures |cs| == |w| && forall i :: 0 <= i < |w| ==> cs[i] == RiskContribution(w, cov, i)
  {
    seq(|w|, i requires 0 <= i < |w| => RiskContribution(w, cov, i))
  }

  /** Σ over the first k contributions of (share − target)², each share being the contribution over the total. */
  function ParityGap(cs: seq<real>, total: real, target: real, k: nat): real
    requires k <= |cs| && total != 0.0
  {
    if k == 0 then 0.0 else ParityGap(cs, total, target, k - 1) + Square(cs[k - 1] / total - target)
  }

  /**
   * The score of `calculateRiskParity` over the contributions: 0 for no asset
   * (the reduce over an empty list), no value when the contributions sum to 0
   * (a division by zero), else Σ (share − 1/n)².
   */
  function ParityScore(cs: seq<real>): (s: Option<real>)
    ensures s.None? <==> cs != [] && Sum(cs) == 0.0
  {
    if cs == [] then Some(0.0)
    else if Sum(cs) == 0.0 then None
    else Some(ParityGap(cs, Sum(cs), 1.0 / |cs| as real, |cs|))
  }

  /**
   * `calculateRiskParity` of an optimiser whose covariance matrix is square:
   * undefined exactly when there are assets and their risk contributions sum
   * to 0, otherwise never negative.
   */
  function RiskParity(o: Optimizer): (r: Option<real>)
    requires IsSquare(o.covariance, |o.assets|)
    ensures r.None? <==> |o.assets| > 0 && Sum(RiskContributions(Weights(o.assets), o.covariance)) == 0.0
    ensures r.Some? ==> 0.0 <= r.value
  {
    var cs := RiskContributions(Weights(o.assets), o.covariance);
    if cs != [] && ParityScore(cs).Some? then ParityScoreZero(cs); ParityScore(cs)
    else ParityScore(cs)
  }

  /** Each term of the gap is non-negative, and the gap is 0 exactly when every share hits the target. */
  lemma {:induction false} ParityGapZero(cs: seq<real>, total: real, target: real, k: nat)
    requires k <= |cs| && total != 0.0
    ensures 0.0 <= ParityGap(cs, total, target, k)
    ensures ParityGap(cs, total, target, k) == 0.0 <==> forall i :: 0 <= i < k ==> cs[i] / total == target
  {
    if k > 0 {
      ParityGapZero(cs, total, target, k - 1);
      SquareZero(cs[k - 1] / total - target);
    }
  }

  /** A square is non-negative and is 0 only for 0. */
  lemma SquareZero(x: real)
    ensures 0.0 <= Square(x)
    ensures Square(x) == 0.0 <==> x == 0.0
  {
    assert 0.0 <= x * x;
    if x != 0.0 {
      assert x * x / x == x;
    }
  }

  /**
   * The risk-parity score is never negative, and it is 0 exactly when every
   * asset contributes the same share 1/n of the total risk.
   */
  lemma ParityScoreZero(cs: seq<real>)
    requires ParityScore(cs).Some? && cs != []
    ensures 0.0 <= ParityScore(cs).value
    ensures ParityScore(cs).value == 0.0 <==> forall i :: 0 <= i < |cs| ==> cs[i] / Sum(cs) == 1.0 / |cs| as real
  {
    ParityGapZero(cs, Sum(cs), 1.0 / |cs| as real, |cs|);
  }

  /** The shares of the total risk sum to 1. */
  lemma SharesSumToOne(cs: seq<real>)
    requires Sum(cs) != 0.0
    ensures Sum(seq(|cs|, i requires 0 <= i < |cs| => cs[i] / Sum(cs))) == 1.0
  {
    var shares := seq(|cs|, i requires 0 <= i < |cs| => cs[i] / Sum(cs));
    SumFirstScaled(cs, shares, Sum(cs), |cs|);
    assert Sum(shares) == Sum(cs) / Sum(cs);
    assert Sum(cs) / Sum(cs) == 1.0;
  }
}
