/**
 * The `MonteCarloSimulator` of js/optimization.js: simulated daily returns,
 * a covariance matrix from the portfolio's correlation matrix, its Cholesky
 * factor, correlated daily paths, compounding to a terminal return, and the
 * order-statistic summary (mean, median, percentiles, VaR, CVaR) of the
 * simulated terminal returns. The standard-normal draws are inputs.
 */
module MonteCarlo {
  import opened Numerics
  import opened Sorting

  const DefaultIterations: nat := 10000
  const DefaultHorizon: nat := 252
  /** The number of simulated daily returns per asset (one trading year). */
  const ReturnDays: nat := 252
  /** The daily standard deviation the simulated returns are scaled to (2%). */
  const DailyVolatility: real := 0.02

  datatype McAsset = McAsset(symbol: string, weight: real)

  /**
   * The portfolio handed to the simulator; `assets` is None when it is missing
   * or not an array.
   */
  datatype McPortfolio = McPortfolio(assets: Option<seq<McAsset>>, correlationMatrix: Matrix)

  datatype Simulator = Simulator(portfolio: McPortfolio, assets: seq<McAsset>, iterations: nat, timeHorizon: nat)

  /** The constructor: fails on a missing portfolio or a missing asset array, otherwise keeps the settings. */
  function NewSimulator(p: Option<McPortfolio>, iterations: nat, timeHorizon: nat): (r: Option<Simulator>)
    ensures r.None? <==> p.None? || p.value.assets.None?
    ensures r.Some? ==> r.value.portfolio == p.value && r.value.assets == p.value.assets.value
    ensures r.Some? ==> r.value.iterations == iterations && r.value.timeHorizon == timeHorizon
  {
    if p.None? || p.value.assets.None? then None
    else Some(Simulator(p.value, p.value.assets.value, iterations, timeHorizon))
  }

  function Weights(s: Simulator): (w: seq<real>)
    ensures |w| == |s.assets| && forall i :: 0 <= i < |w| ==> w[i] == s.assets[i].weight
  {
    seq(|s.assets|, i requires 0 <= i < |s.assets| => s.assets[i].weight)
  }

  /** Each draw scaled to the 2% daily volatility. */
  function SimulatedReturns(draws: seq<seq<real>>): (rs: seq<seq<real>>)
    ensures |rs| == |draws|
    ensures forall i :: 0 <= i < |rs| ==>
      (|rs[i]| == |draws[i]| && forall t :: 0 <= t < |rs[i]| ==> rs[i][t] == draws[i][t] * DailyVolatility)
  {
    seq(|draws|, i requires 0 <= i < |draws| =>
      seq(|draws[i]|, t requires 0 <= t < |draws[i]| => draws[i][t] * DailyVolatility))
  }

  /**
   * `calculateReturns`: one row of 252 simulated returns per asset, each a
   * standard-normal draw (an input here) scaled by 0.02.
   */
  method CalculateReturns(s: Simulator, draws: seq<seq<real>>) returns (rs: seq<seq<real>>)
    requires |draws| == |s.assets| && forall i :: 0 <= i < |draws| ==> |draws[i]| == ReturnDays
    ensures rs == SimulatedReturns(draws)
    ensures |rs| == |s.assets| && forall i :: 0 <= i < |rs| ==> |rs[i]| == ReturnDays
  {
    rs := [];
    var a := 0;
    while a < |draws|
      invariant 0 <= a <= |draws| && |rs| == a
      invariant forall i :: 0 <= i < a ==> rs[i] == SimulatedReturns(draws)[i]
    {
      var row := [];
      var t := 0;
      while t < ReturnDays
        invariant 0 <= t <= ReturnDays && |row| == t
        invariant forall u :: 0 <= u < t ==> row[u] == draws[a][u] * DailyVolatility
      {
        row := row + [draws[a][t] * DailyVolatility];
        t := t + 1;
      }
      assert row == SimulatedReturns(draws)[a];
      rs := rs + [row];
      a := a + 1;
    }
  }

  /** Scaling the draws by 0.02 scales their mean by 0.02. */
  lemma SimulatedMean(draws: seq<real>, rs: seq<real>)
    requires |rs| == |draws| > 0
    requires forall t :: 0 <= t < |rs| ==> rs[t] == draws[t] * DailyVolatility
    ensures Mean(rs) == Mean(draws) * DailyVolatility
  {
    ScaledSum(draws, rs, DailyVolatility, |rs|);
    var n := |rs| as real;
    assert Sum(rs) / n == (Sum(draws) / n) * DailyVolatility;
  }

  lemma {:induction false} ScaledSum(s: seq<real>, t: seq<real>, f: real, n: nat)
    requires n <= |s| && n <= |t|
    requires forall i :: 0 <= i < n ==> t[i] == s[i] * f
    ensures SumFirst(t, n) == SumFirst(s, n) * f
  {
    if n > 0 {
      ScaledSum(s, t, f, n - 1);
      var a, b := SumFirst(s, n - 1), s[n - 1];
      assert a * f + b * f == (a + b) * f;
    }
  }

  /** The correlation matrix covers at least n assets. */
  predicate Covers(corr: Matrix, n: nat) {
    n <= |corr| && forall i :: 0 <= i < n ==> n <= |corr[i]|
  }

  /** `calculateCovariance`: correlation × 0.02 × 0.02, over as many assets as there are return rows. */
  function CovarianceOf(corr: Matrix, n: nat): (m: Matrix)
    requires Covers(corr, n)
    ensures IsSquare(m, n)
  {
    seq(n, i requires 0 <= i < n => seq(n, j requires 0 <= j < n => corr[i][j] * DailyVolatility * DailyVolatility))
  }

  /**
   * A symmetric correlation matrix gives a symmetric covariance matrix, and a
   * unit diagonal gives the variance 0.0004 of a 2% daily volatility.
   */
  lemma CovarianceOfCorrelation(corr: Matrix, n: nat)
    requires Covers(corr, n)
    ensures (forall i, j :: 0 <= i < n && 0 <= j < n ==> corr[i][j] == corr[j][i]) ==> IsSymmetric(CovarianceOf(corr, n))
    ensures forall i :: 0 <= i < n && corr[i][i] == 1.0 ==> CovarianceOf(corr, n)[i][i] == 0.0004
    ensures forall i, j :: 0 <= i < n && 0 <= j < n && -1.0 <= corr[i][j] <= 1.0 ==>
      -0.0004 <= CovarianceOf(corr, n)[i][j] <= 0.0004
  {
  }

  /** The nested loops of `calculateCovariance`, proved to compute `CovarianceOf`. */
  method CalculateCovariance(s: Simulator, rs: seq<seq<real>>) returns (m: Matrix)
    requires Covers(s.portfolio.correlationMatrix, |rs|)
    ensures m == CovarianceOf(s.portfolio.correlationMatrix, |rs|)
  {
    var corr := s.portfolio.correlationMatrix;
    var n := |rs|;
    m := [];
    var i := 0;
    while i < n
      invariant 0 <= i <= n && |m| == i
      invariant forall a :: 0 <= a < i ==> m[a] == CovarianceOf(corr, n)[a]
    {
      var row := [];
      var j := 0;
      while j < n
        invariant 0 <= j <= n && |row| == j
        invariant forall b :: 0 <= b < j ==> row[b] == corr[i][b] * DailyVolatility * DailyVolatility
      {
        row := row + [corr[i][j] * DailyVolatility * DailyVolatility];
        j := j + 1;
      }
      assert row == CovarianceOf(corr, n)[i];
      m := m + [row];
      i := i + 1;
    }
  }

  // ---------------------------------------------------------------------
  // Cholesky factorisation
  // ---------------------------------------------------------------------

  /**
   * L[i][j], for j <= i, as `choleskyDecomposition` computes it: the diagonal is
   * sqrt(max(0, m[i][i] − Σ)), an entry below it (m[i][j] − Σ) / L[j][j]. None
   * when the entry is not finite, which first happens at a division by a zero
   * pivot.
   */
  function CholeskyEntry(m: Matrix, sqrt: real -> real, i: nat, j: nat): Option<real>
    requires IsSquare(m, |m|) && j <= i < |m|
    decreases i, j, 2
  {
    match CholeskyDot(m, sqrt, i, j, j)
    case None => None
    case Some(sum) =>
      if i == j then Some(sqrt(MaxReal(0.0, m[i][i] - sum)))
      else
        match CholeskyEntry(m, sqrt, j, j)
        case None => None
        case Some(pivot) => if pivot == 0.0 then None else Some((m[i][j] - sum) / pivot)
  }

  /** Σ_{k < K} L[i][k] · L[j][k], for j <= i and K <= j. */
  function CholeskyDot(m: Matrix, sqrt: real -> real, i: nat, j: nat, k: nat): Option<real>
    requires IsSquare(m, |m|) && j <= i < |m| && k <= j
    decreases i, k, 1
  {
    if k == 0 then Some(0.0)
    else
      var sum, a, b := CholeskyDot(m, sqrt, i, j, k - 1), CholeskyEntry(m, sqrt, i, k - 1), CholeskyEntry(m, sqrt, j, k - 1);
      if sum.Some? && a.Some? && b.Some? then Some(sum.value + a.value * b.value) else None
  }

  lemma CholeskyDotStep(m: Matrix, sqrt: real -> real, i: nat, j: nat, k: nat)
    requires IsSquare(m, |m|) && j <= i < |m| && k < j
    requires CholeskyDot(m, sqrt, i, j, k).Some?
    requires CholeskyEntry(m, sqrt, i, k).Some? && CholeskyEntry(m, sqrt, j, k).Some?
    ensures CholeskyDot(m, sqrt, i, j, k + 1) == Some(CholeskyDot(m, sqrt, i, j, k).value +
      CholeskyEntry(m, sqrt, i, k).value * CholeskyEntry(m, sqrt, j, k).value)
  {
    var d := CholeskyDot(m, sqrt, i, j, k + 1);
    assert d.Some?;
    assert d.value == CholeskyDot(m, sqrt, i, j, k).value +
      CholeskyEntry(m, sqrt, i, k).value * CholeskyEntry(m, sqrt, j, k).value;
  }

  /** Every entry on or below the diagonal is finite. */
  predicate CholeskyDefined(m: Matrix, sqrt: real -> real)
    requires IsSquare(m, |m|)
  {
    forall i, j :: 0 <= j <= i < |m| ==> CholeskyEntry(m, sqrt, i, j).Some?
  }

  /** The factor `choleskyDecomposition` returns: the entries above, zeros above the diagonal. */
  function CholeskyFactor(m: Matrix, sqrt: real -> real): (L: Option<Matrix>)
    requires IsSquare(m, |m|)
    ensures L.Some? <==> CholeskyDefined(m, sqrt)
    ensures L.Some? ==> IsSquare(L.value, |m|)
  {
    if !CholeskyDefined(m, sqrt) then None
    else
      Some(seq(|m|, i requires 0 <= i < |m| =>
        seq(|m|, j requires 0 <= j < |m| => if j <= i then CholeskyEntry(m, sqrt, i, j).value else 0.0)))
  }

  /** The factor is lower-triangular with a non-negative diagonal. */
  lemma CholeskyLowerTriangular(m: Matrix, sqrt: real -> real)
    requires IsSqrt(sqrt) && IsSquare(m, |m|) && CholeskyFactor(m, sqrt).Some?
    ensures forall i, j :: 0 <= i < j < |m| ==> CholeskyFactor(m, sqrt).value[i][j] == 0.0
    ensures forall i :: 0 <= i < |m| ==> 0.0 <= CholeskyFactor(m, sqrt).value[i][i]
  {
    var L := CholeskyFactor(m, sqrt).value;
    forall i | 0 <= i < |m|
      ensures 0.0 <= L[i][i]
    {
      CholeskyDiagonal(m, sqrt, i);
    }
  }

  lemma CholeskyDiagonal(m: Matrix, sqrt: real -> real, i: nat)
    requires IsSqrt(sqrt) && IsSquare(m, |m|) && i < |m| && CholeskyEntry(m, sqrt, i, i).Some?
    ensures 0.0 <= CholeskyEntry(m, sqrt, i, i).value
  {
    var sum := CholeskyDot(m, sqrt, i, i, i).value;
    assert 0.0 <= MaxReal(0.0, m[i][i] - sum);
  }

  /**
   * L·Lᵀ reproduces the lower triangle of m: Σ_{k <= j} L[i][k]·L[j][k] equals
   * m[i][j] below the diagonal, and on the diagonal wherever the clamp at 0 did
   * not apply.
   */
  lemma CholeskyReproduces(m: Matrix, sqrt: real -> real, i: nat, j: nat)
    requires IsSqrt(sqrt) && IsSquare(m, |m|) && j <= i < |m| && CholeskyEntry(m, sqrt, i, j).Some?
    ensures CholeskyDot(m, sqrt, i, j, j).Some? && CholeskyEntry(m, sqrt, j, j).Some?
    ensures j < i ==>
      CholeskyDot(m, sqrt, i, j, j).value + CholeskyEntry(m, sqrt, i, j).value * CholeskyEntry(m, sqrt, j, j).value == m[i][j]
    ensures j == i && CholeskyDot(m, sqrt, i, i, i).value <= m[i][i] ==>
      CholeskyDot(m, sqrt, i, i, i).value + Square(CholeskyEntry(m, sqrt, i, i).value) == m[i][i]
  {
    var sum := CholeskyDot(m, sqrt, i, j, j).value;
    if j < i {
      var pivot := CholeskyEntry(m, sqrt, j, j).value;
      assert pivot != 0.0;
      assert ((m[i][j] - sum) / pivot) * pivot == m[i][j] - sum;
    } else if sum <= m[i][i] {
      assert MaxReal(0.0, m[i][i] - sum) == m[i][i] - sum;
    }
  }

  /** The triple loop of `choleskyDecomposition`, proved to compute `CholeskyFactor`. */
  method Cholesky(m: Matrix, sqrt: real -> real) returns (L: Option<Matrix>)
    requires IsSquare(m, |m|)
    ensures L == CholeskyFactor(m, sqrt)
  {
    var n := |m|;
    var f := seq(n, i requires 0 <= i < n => seq(n, j requires 0 <= j < n => 0.0));
    var i := 0;
    while i < n
      invariant 0 <= i <= n && IsSquare(f, n)
      invariant forall a, b :: 0 <= b <= a < i ==> CholeskyEntry(m, sqrt, a, b) == Some(f[a][b])
      invariant forall a, b :: 0 <= a < b < n ==> f[a][b] == 0.0
    {
      var j := 0;
      while j <= i
        invariant 0 <= j <= i + 1 && IsSquare(f, n)
        invariant forall a, b :: 0 <= b <= a < i ==> CholeskyEntry(m, sqrt, a, b) == Some(f[a][b])
        invariant forall b :: 0 <= b < j ==> CholeskyEntry(m, sqrt, i, b) == Some(f[i][b])
        invariant forall a, b :: 0 <= a < b < n ==> f[a][b] == 0.0
      {
        var v := CholeskyCell(m, sqrt, f, i, j);
        if v.None? {
          assert !CholeskyDefined(m, sqrt);
          return None;
        }
        f := f[i := f[i][j := v.value]];
        j := j + 1;
      }
      i := i + 1;
    }
    CholeskyFactorIs(m, sqrt, f);
    L := Some(f);
  }

  /** One entry L[i][j] of `choleskyDecomposition`, from the entries computed before it; None at a zero pivot. */
  method CholeskyCell(m: Matrix, sqrt: real -> real, f: Matrix, i: nat, j: nat) returns (v: Option<real>)
    requires IsSquare(m, |m|) && IsSquare(f, |m|) && j <= i < |m|
    requires forall a, b :: 0 <= b <= a < i ==> CholeskyEntry(m, sqrt, a, b) == Some(f[a][b])
    requires forall b :: 0 <= b < j ==> CholeskyEntry(m, sqrt, i, b) == Some(f[i][b])
    ensures v == CholeskyEntry(m, sqrt, i, j)
  {
    var sum := CholeskySum(m, sqrt, f, i, j);
    if i == j {
      v := Some(sqrt(MaxReal(0.0, m[i][i] - sum)));
    } else {
      var pivot := f[j][j];
      assert CholeskyEntry(m, sqrt, j, j) == Some(pivot);
      v := if pivot == 0.0 then None else Some((m[i][j] - sum) / pivot);
    }
  }

  /** A square matrix holding every entry of the factor on and below the diagonal and zeros above it is the factor. */
  lemma CholeskyFactorIs(m: Matrix, sqrt: real -> real, f: Matrix)
    requires IsSquare(m, |m|) && IsSquare(f, |m|)
    requires forall a, b :: 0 <= b <= a < |m| ==> CholeskyEntry(m, sqrt, a, b) == Some(f[a][b])
    requires forall a, b :: 0 <= a < b < |m| ==> f[a][b] == 0.0
    ensures CholeskyFactor(m, sqrt) == Some(f)
  {
    assert CholeskyDefined(m, sqrt);
    var spec := CholeskyFactor(m, sqrt).value;
    forall a | 0 <= a < |m|
      ensures f[a] == spec[a]
    {
      assert forall b :: 0 <= b < |m| ==> f[a][b] == spec[a][b];
    }
    assert f == spec;
  }

  /** The innermost loop: Σ_{k < j} L[i][k] · L[j][k] over the entries computed so far. */
  method CholeskySum(m: Matrix, sqrt: real -> real, f: Matrix, i: nat, j: nat) returns (sum: real)
    requires IsSquare(m, |m|) && IsSquare(f, |m|) && j <= i < |m|
    requires forall a, b :: 0 <= b <= a < i ==> CholeskyEntry(m, sqrt, a, b) == Some(f[a][b])
    requires forall b :: 0 <= b < j ==> CholeskyEntry(m, sqrt, i, b) == Some(f[i][b])
    ensures CholeskyDot(m, sqrt, i, j, j) == Some(sum)
  {
    sum := 0.0;
    var k := 0;
    while k < j
      invariant 0 <= k <= j && CholeskyDot(m, sqrt, i, j, k) == Some(sum)
    {
      CholeskyDotNext(m, sqrt, f, i, j, k, sum);
      sum := sum + f[i][k] * f[j][k];
      k := k + 1;
    }
  }

  lemma CholeskyDotNext(m: Matrix, sqrt: real -> real, f: Matrix, i: nat, j: nat, k: nat, sum: real)
    requires IsSquare(m, |m|) && IsSquare(f, |m|) && j <= i < |m| && k < j
    requires forall a, b :: 0 <= b <= a < i ==> CholeskyEntry(m, sqrt, a, b) == Some(f[a][b])
    requires forall b :: 0 <= b < j ==> CholeskyEntry(m, sqrt, i, b) == Some(f[i][b])
    requires CholeskyDot(m, sqrt, i, j, k) == Some(sum)
    ensures CholeskyDot(m, sqrt, i, j, k + 1) == Some(sum + f[i][k] * f[j][k])
  {
    var x, y := f[i][k], f[j][k];
    assert CholeskyEntry(m, sqrt, i, k) == Some(x);
    if j < i {
      assert CholeskyEntry(m, sqrt, j, k) == Some(y);
    } else {
      assert CholeskyEntry(m, sqrt, i, k) == Some(y);
    }
    CholeskyDotStep(m, sqrt, i, j, k);
    assert CholeskyDot(m, sqrt, i, j, k).value == sum;
    assert CholeskyEntry(m, sqrt, i, k).value == x;
    assert CholeskyEntry(m, sqrt, j, k).value == y;
    SameProductSum(CholeskyDot(m, sqrt, i, j, k).value, CholeskyEntry(m, sqrt, i, k).value,
      CholeskyEntry(m, sqrt, j, k).value, sum, x, y);
    assert CholeskyDot(m, sqrt, i, j, k + 1).Some?;
    assert CholeskyDot(m, sqrt, i, j, k + 1).value == sum + x * y;
    var r := CholeskyDot(m, sqrt, i, j, k + 1);
    assert r == Some(r.value);
    assert x * y == f[i][k] * f[j][k];
  }

  lemma SameProductSum(d: real, a: real, b: real, d': real, a': real, b': real)
    requires d == d' && a == a' && b == b'
    ensures d + a * b == d' + a' * b'
  {
  }

  // ---------------------------------------------------------------------
  // Correlated paths
  // ---------------------------------------------------------------------

  /** `multiplyMatrixVector`: each row reduced to Σ_k row[k] · v[k]. */
  function MatVec(m: Matrix, v: seq<real>): (r: seq<real>)
    requires forall i :: 0 <= i < |m| ==> |m[i]| <= |v|
    ensures |r| == |m| && forall i :: 0 <= i < |m| ==> r[i] == Dot(m[i], v, |m[i]|)
  {
    seq(|m|, i requires 0 <= i < |m| => Dot(m[i], v, |m[i]|))
  }

  /** Entries of a past index lo that are all zero add nothing to a dot product. */
  lemma {:induction false} DotZeroTail(a: seq<real>, b: seq<real>, lo: nat, n: nat)
    requires lo <= n <= |a| && n <= |b|
    requires forall k :: lo <= k < n ==> a[k] == 0.0
    ensures Dot(a, b, n) == Dot(a, b, lo)
  {
    if n > lo {
      DotZeroTail(a, b, lo, n - 1);
    }
  }

  /** Two vectors agreeing on the first n entries have the same first-n dot product with any row. */
  lemma {:induction false} DotAgree(a: seq<real>, b: seq<real>, c: seq<real>, n: nat)
    requires n <= |a| && n <= |b| && n <= |c|
    requires forall k :: 0 <= k < n ==> b[k] == c[k]
    ensures Dot(a, b, n) == Dot(a, c, n)
  {
    if n > 0 {
      DotAgree(a, b, c, n - 1);
    }
  }

  /**
   * The i-th correlated shock L·z depends only on the draws z[0..i]: the
   * Cholesky factor is lower-triangular.
   */
  lemma CorrelatedShockCausal(cov: Matrix, sqrt: real -> real, z: seq<real>, z': seq<real>, i: nat)
    requires IsSqrt(sqrt) && IsSquare(cov, |cov|) && CholeskyFactor(cov, sqrt).Some?
    requires |z| == |cov| && |z'| == |cov| && i < |cov|
    requires forall k :: 0 <= k <= i ==> z[k] == z'[k]
    ensures MatVec(CholeskyFactor(cov, sqrt).value, z)[i] == MatVec(CholeskyFactor(cov, sqrt).value, z')[i]
  {
    var L := CholeskyFactor(cov, sqrt).value;
    CholeskyLowerTriangular(cov, sqrt);
    DotZeroTail(L[i], z, i + 1, |cov|);
    DotZeroTail(L[i], z', i + 1, |cov|);
    DotAgree(L[i], z, z', i + 1);
  }

  /** Σ_{i<n} (means[i] + shocks[i]) · weights[i]: one day of the path. */
  function PathStep(means: seq<real>, shocks: seq<real>, weights: seq<real>, n: nat): real
    requires n <= |means| && n <= |shocks| && n <= |weights|
  {
    if n == 0 then 0.0 else PathStep(means, shocks, weights, n - 1) + (means[n - 1] + shocks[n - 1]) * weights[n - 1]
  }

  /** A day's return is the weighted mean return plus the weighted correlated shock. */
  lemma {:induction false} PathStepSplits(means: seq<real>, shocks: seq<real>, weights: seq<real>, n: nat)
    requires n <= |means| && n <= |shocks| && n <= |weights|
    ensures PathStep(means, shocks, weights, n) == Dot(means, weights, n) + Dot(shocks, weights, n)
  {
    if n > 0 {
      PathStepSplits(means, shocks, weights, n - 1);
      var a, b, w := means[n - 1], shocks[n - 1], weights[n - 1];
      assert (a + b) * w == a * w + b * w;
    }
  }

  /** Every row of returns is non-empty (the mean's `reduce` has no initial value). */
  predicate NonEmptyRows(rs: seq<seq<real>>) {
    forall i :: 0 <= i < |rs| ==> |rs[i]| > 0
  }

  function MeanReturns(rs: seq<seq<real>>): (means: seq<real>)
    requires NonEmptyRows(rs)
    ensures |means| == |rs| && forall i :: 0 <= i < |rs| ==> means[i] == Mean(rs[i])
  {
    seq(|rs|, i requires 0 <= i < |rs| => Mean(rs[i]))
  }

  /** The path's inputs fit together: one return row and one draw per asset and day. */
  predicate PathInputs(s: Simulator, rs: seq<seq<real>>, cov: Matrix, draws: seq<seq<real>>) {
    |rs| == |s.assets| && NonEmptyRows(rs) && IsSquare(cov, |rs|) &&
    |draws| == s.timeHorizon && forall t :: 0 <= t < |draws| ==> |draws[t]| == |rs|
  }

  /**
   * `generatePath`: day t's return is PathStep of the mean returns and the
   * correlated shocks L·z_t. None when the Cholesky factor is not finite (every
   * day of the path is then not finite).
   */
  function PathOf(s: Simulator, rs: seq<seq<real>>, cov: Matrix, draws: seq<seq<real>>, sqrt: real -> real): (path: Option<seq<real>>)
    requires PathInputs(s, rs, cov, draws)
    ensures path.Some? <==> CholeskyFactor(cov, sqrt).Some?
    ensures path.Some? ==> |path.value| == s.timeHorizon
  {
    match CholeskyFactor(cov, sqrt)
    case None => None
    case Some(L) =>
      Some(seq(s.timeHorizon, t requires 0 <= t < s.timeHorizon =>
        PathStep(MeanReturns(rs), MatVec(L, draws[t]), Weights(s), |rs|)))
  }

  /** The path loop, proved to compute `PathOf`. */
  method GeneratePath(s: Simulator, rs: seq<seq<real>>, cov: Matrix, draws: seq<seq<real>>, sqrt: real -> real)
    returns (path: Option<seq<real>>)
    requires PathInputs(s, rs, cov, draws)
    ensures path == PathOf(s, rs, cov, draws, sqrt)
  {
    var means := MeanReturns(rs);
    var L := Cholesky(cov, sqrt);
    if L.None? {
      return None;
    }
    var weights := Weights(s);
    var p := new real[s.timeHorizon];
    var t := 0;
    while t < s.timeHorizon
      invariant 0 <= t <= s.timeHorizon
      invariant forall u :: 0 <= u < t ==> p[u] == PathStep(means, MatVec(L.value, draws[u]), weights, |rs|)
    {
      var shocks := MatVec(L.value, draws[t]);
      p[t] := PathStep(means, shocks, weights, |shocks|);
      t := t + 1;
    }
    assert p[..] == PathOf(s, rs, cov, draws, sqrt).value;
    path := Some(p[..]);
  }

  // ---------------------------------------------------------------------
  // Terminal value and the summary
  // ---------------------------------------------------------------------

  /** `calculateFinalValue`: Π (1 + r_t) − 1, the total return of the path. */
  function FinalValue(path: seq<real>): (v: real)
    ensures |path| == 0 ==> v == 0.0
  {
    Growth(path, |path|) - 1.0
  }

  /** The `forEach` compounding loop, proved to compute `FinalValue`. */
  method CalculateFinalValue(path: seq<real>) returns (v: real)
    ensures v == FinalValue(path)
  {
    var value := 1.0;
    var t := 0;
    while t < |path|
      invariant 0 <= t <= |path| && value == Growth(path, t)
    {
      value := value * (1.0 + path[t]);
      t := t + 1;
    }
    v := value - 1.0;
  }

  lemma {:induction false} GrowthConcat(a: seq<real>, b: seq<real>, k: nat)
    requires k <= |b|
    ensures Growth(a + b, |a| + k) == Growth(a, |a|) * Growth(b, k)
  {
    if k == 0 {
      GrowthPrefix(a, b, |a|);
    } else {
      GrowthConcat(a, b, k - 1);
      var g, h, x := Growth(a, |a|), Growth(b, k - 1), b[k - 1];
      assert (a + b)[|a| + k - 1] == x;
      assert g * h * (1.0 + x) == g * (h * (1.0 + x));
    }
  }

  lemma {:induction false} GrowthPrefix(a: seq<real>, b: seq<real>, n: nat)
    requires n <= |a|
    ensures Growth(a + b, n) == Growth(a, n)
  {
    if n > 0 {
      GrowthPrefix(a, b, n - 1);
      assert (a + b)[n - 1] == a[n - 1];
    }
  }

  /** Compounding two paths one after the other multiplies their growth factors. */
  lemma FinalValueCompounds(a: seq<real>, b: seq<real>)
    ensures 1.0 + FinalValue(a + b) == (1.0 + FinalValue(a)) * (1.0 + FinalValue(b))
  {
    GrowthConcat(a, b, |b|);
  }

  lemma {:induction false} GrowthNonNegative(path: seq<real>, n: nat)
    requires n <= |path| && forall t :: 0 <= t < n ==> -1.0 <= path[t]
    ensures 0.0 <= Growth(path, n)
  {
    if n > 0 {
      GrowthNonNegative(path, n - 1);
      ProductNonNegative(Growth(path, n - 1), 1.0 + path[n - 1]);
    }
  }

  lemma ProductNonNegative(a: real, b: real)
    requires 0.0 <= a && 0.0 <= b
    ensures 0.0 <= a * b
  {
  }

  /** No day losing more than everything means no loss of more than everything in total. */
  lemma FinalValueAtLeastMinusOne(path: seq<real>)
    requires forall t :: 0 <= t < |path| ==> -1.0 <= path[t]
    ensures -1.0 <= FinalValue(path)
  {
    GrowthNonNegative(path, |path|);
  }

  /** `Math.floor(n * q)`: the index of the q-quantile in a sorted series. */
  function QuantileIndex(n: nat, q: real): int {
    (n as real * q).Floor
  }

  lemma QuantileIndexBounds(n: nat, q: real)
    requires 0.0 <= q < 1.0 && n > 0
    ensures 0 <= QuantileIndex(n, q) < n
  {
    assert n as real * q < n as real;
  }

  lemma QuantileIndexMonotone(n: nat, q: real, q': real)
    requires 0.0 <= q <= q'
    ensures QuantileIndex(n, q) <= QuantileIndex(n, q')
  {
    assert n as real * q <= n as real * q';
  }

  lemma MedianIndexBetween(n: nat)
    requires n > 0
    ensures QuantileIndex(n, 0.25) <= n / 2 <= QuantileIndex(n, 0.75)
  {
    var h := n / 2;
    assert n == 2 * h || n == 2 * h + 1;
    assert n as real * 0.25 < (h + 1) as real;
    assert h as real <= n as real * 0.75;
  }

  lemma FloorMonotone(x: real, y: real)
    requires x <= y
    ensures x.Floor <= y.Floor
  {
    assert x.Floor as real <= x && y < y.Floor as real + 1.0;
  }

  /** The summary `analyzeResults` returns; `volatility` is None (NaN) for a single result. */
  datatype Summary = Summary(mean: real, median: real, volatility: Option<real>, min: real, max: real,
                             p5: real, p25: real, p75: real, p95: real)

  /** `analyzeResults` over a sorted copy of the results. */
  function AnalyzeResults(results: seq<real>, sqrt: real -> real): (a: Summary)
    requires |results| > 0
    ensures a.volatility.Some? <==> |results| >= 2
  {
    var n := |results|;
    var sorted := Sort(results);
    var mean := Mean(results);
    QuantileIndexBounds(n, 0.05);
    QuantileIndexBounds(n, 0.25);
    QuantileIndexBounds(n, 0.75);
    QuantileIndexBounds(n, 0.95);
    var volatility := if n >= 2 then Some(sqrt(CentredCross(results, results, mean, mean, n) / (n - 1) as real)) else None;
    Summary(mean, sorted[n / 2], volatility, sorted[0], sorted[n - 1],
            sorted[QuantileIndex(n, 0.05)], sorted[QuantileIndex(n, 0.25)],
            sorted[QuantileIndex(n, 0.75)], sorted[QuantileIndex(n, 0.95)])
  }

  /** The quantile indices used by the summary are ordered and inside the series. */
  lemma SummaryIndicesOrdered(n: nat)
    requires n > 0
    ensures 0 <= QuantileIndex(n, 0.05) <= QuantileIndex(n, 0.25) <= n / 2
    ensures n / 2 <= QuantileIndex(n, 0.75) <= QuantileIndex(n, 0.95) < n
  {
    QuantileIndexBounds(n, 0.05);
    QuantileIndexBounds(n, 0.95);
    QuantileIndexMonotone(n, 0.05, 0.25);
    QuantileIndexMonotone(n, 0.75, 0.95);
    MedianIndexBetween(n);
  }

  /** The summary is ordered min ≤ p5 ≤ p25 ≤ median ≤ p75 ≤ p95 ≤ max. */
  lemma AnalyzeResultsOrdered(results: seq<real>, sqrt: real -> real)
    requires |results| > 0
    ensures var a := AnalyzeResults(results, sqrt);
      a.min <= a.p5 <= a.p25 <= a.median <= a.p75 <= a.p95 <= a.max
  {
    var n := |results|;
    SummaryIndicesOrdered(n);
    QuantilesOrdered(Sort(results), QuantileIndex(n, 0.05), QuantileIndex(n, 0.25), QuantileIndex(n, 0.75), QuantileIndex(n, 0.95));
  }

  /** Reading a sorted series at ordered indices gives ordered values. */
  lemma QuantilesOrdered(r: seq<real>, i5: int, i25: int, i75: int, i95: int)
    requires IsSorted(r) && |r| > 0
    requires 0 <= i5 <= i25 <= |r| / 2 <= i75 <= i95 < |r|
    ensures r[0] <= r[i5] <= r[i25] <= r[|r| / 2] <= r[i75] <= r[i95] <= r[|r| - 1]
  {
  }

  /**
   * The min and max are results bounding all the others, the mean lies between
   * them, and the volatility is non-negative.
   */
  lemma AnalyzeResultsBounds(results: seq<real>, sqrt: real -> real)
    requires |results| > 0
    ensures var a := AnalyzeResults(results, sqrt);
      a.min in results && a.max in results && forall x :: x in results ==> a.min <= x <= a.max
    ensures var a := AnalyzeResults(results, sqrt); a.min <= a.mean <= a.max
    ensures IsSqrt(sqrt) && |results| >= 2 ==> 0.0 <= AnalyzeResults(results, sqrt).volatility.value
  {
    var n := |results|;
    var a := AnalyzeResults(results, sqrt);
    var lo, hi := Sort(results)[0], Sort(results)[n - 1];
    assert a.min == lo && a.max == hi && a.mean == Mean(results);
    ExtremesBoundMean(results, lo, hi);
    if IsSqrt(sqrt) && n >= 2 {
      VolatilityNonNegative(results, sqrt);
    }
  }

  /** The sorted extremes are results bounding all the others and the mean. */
  lemma ExtremesBoundMean(results: seq<real>, lo: real, hi: real)
    requires |results| > 0 && lo == Sort(results)[0] && hi == Sort(results)[|results| - 1]
    ensures lo in results && hi in results && forall x :: x in results ==> lo <= x <= hi
    ensures lo <= Mean(results) <= hi
  {
    SortedExtremes(results);
    assert forall i :: 0 <= i < |results| ==> results[i] in results;
    MeanBetween(results, lo, hi);
  }

  /** The root of the sample variance is non-negative. */
  lemma VolatilityNonNegative(results: seq<real>, sqrt: real -> real)
    requires IsSqrt(sqrt) && |results| >= 2
    ensures 0.0 <= AnalyzeResults(results, sqrt).volatility.value
  {
    var n := |results|;
    var mean := Mean(results);
    var ss := CentredCross(results, results, mean, mean, n);
    CentredSquaresNonNegative(results, mean, n);
    assert 0.0 <= ss / (n - 1) as real;
    assert AnalyzeResults(results, sqrt).volatility.value == sqrt(ss / (n - 1) as real);
  }

  // ---------------------------------------------------------------------
  // VaR and CVaR on a sorted copy
  // ---------------------------------------------------------------------

  /** `calculateVaR`: the entry at ⌊n(1 − c)⌋ of the sorted results; None (undefined) outside the array. */
  function VaR(results: seq<real>, confidence: real): (v: Option<real>)
    ensures v.Some? <==> 0 <= Cutoff(confidence, |results|) < |results|
  {
    var index := Cutoff(confidence, |results|);
    if 0 <= index < |results| then Some(Sort(results)[index]) else None
  }

  /** `calculateCVaR`: the mean of the first ⌊n(1 − c)⌋ sorted results; None for a zero count. */
  function CVaR(results: seq<real>, confidence: real): (v: Option<real>)
    ensures v.None? <==> Cutoff(confidence, |results|) == 0
  {
    TailMean(Sort(results), Cutoff(confidence, |results|))
  }

  /** With a non-empty tail inside the series, CVaR ≤ VaR, and both lie within the results. */
  lemma CVaRAtMostVaR(results: seq<real>, confidence: real)
    requires 0 < Cutoff(confidence, |results|) < |results|
    ensures VaR(results, confidence).Some? && CVaR(results, confidence).Some?
    ensures CVaR(results, confidence).value <= VaR(results, confidence).value
    ensures Sort(results)[0] <= CVaR(results, confidence).value
    ensures VaR(results, confidence).value in results
  {
    TailMeanBetween(Sort(results), Cutoff(confidence, |results|));
    var sorted := Sort(results);
    assert sorted[Cutoff(confidence, |results|)] in multiset(sorted);
  }

  /** A higher confidence picks an equal or lower quantile: VaR at 99% ≤ VaR at 95%. */
  lemma VaRMonotone(results: seq<real>, c: real, c': real)
    requires c <= c' && VaR(results, c).Some? && VaR(results, c').Some?
    ensures VaR(results, c').value <= VaR(results, c).value
  {
    var n := |results|;
    CutoffMonotone(c, c', n);
    var sorted := Sort(results);
    var i, j := Cutoff(c', n), Cutoff(c, n);
    assert VaR(results, c').value == sorted[i];
    assert VaR(results, c).value == sorted[j];
  }

  /** A higher confidence leaves a smaller tail. */
  lemma CutoffMonotone(c: real, c': real, n: nat)
    requires c <= c'
    ensures Cutoff(c', n) <= Cutoff(c, n)
  {
    ProductNonNegative(c' - c, n as real);
    assert (1.0 - c') * n as real == (1.0 - c) * n as real - (c' - c) * n as real;
    FloorMonotone((1.0 - c') * n as real, (1.0 - c) * n as real);
  }

  /** Copies the results into a fresh array sorted ascending, `[...results].sort((a, b) => a - b)`. */
  method SortedCopy(results: array<real>) returns (sorted: array<real>)
    ensures fresh(sorted) && sorted[..] == Sort(results[..])
  {
    sorted := new real[results.Length];
    var i := 0;
    while i < results.Length
      invariant 0 <= i <= results.Length
      invariant forall k :: 0 <= k < i ==> sorted[k] == results[k]
    {
      sorted[i] := results[i];
      i := i + 1;
    }
    assert sorted[..] == results[..];
    SortInPlace(sorted);
  }

  /** `calculateVaR`, which sorts a copy and leaves the caller's array as it was. */
  method CalculateVaR(results: array<real>, confidence: real) returns (v: Option<real>)
    ensures v == VaR(results[..], confidence)
  {
    var sorted := SortedCopy(results);
    var index := Cutoff(confidence, results.Length);
    v := if 0 <= index < sorted.Length then Some(sorted[index]) else None;
  }

  /** `calculateCVaR`, which sorts a copy and leaves the caller's array as it was. */
  method CalculateCVaR(results: array<real>, confidence: real) returns (v: Option<real>)
    ensures v == CVaR(results[..], confidence)
  {
    var sorted := SortedCopy(results);
    var varIndex := Cutoff(confidence, results.Length);
    if varIndex == 0 {
      return None;
    }
    var sum := SumPrefix(sorted[..], SliceEnd(sorted.Length, varIndex));
    v := Some(sum / varIndex as real);
  }

  /**
   * With the default 10000 iterations the 95% tail holds 500 results and the
   * 99% tail 100: CVaR95 ≤ VaR95, and VaR99 ≤ VaR95.
   */
  lemma DefaultConfidenceLevels(results: seq<real>)
    requires |results| == DefaultIterations
    ensures Cutoff(0.95, |results|) == 500 && Cutoff(0.99, |results|) == 100
    ensures CVaR(results, 0.95).Some? && VaR(results, 0.95).Some? && VaR(results, 0.99).Some?
    ensures CVaR(results, 0.95).value <= VaR(results, 0.95).value
    ensures VaR(results, 0.99).value <= VaR(results, 0.95).value
  {
    assert (1.0 - 0.95) * 10000 as real == 500.0;
    assert (1.0 - 0.99) * 10000 as real == 100.0;
    CVaRAtMostVaR(results, 0.95);
    VaRMonotone(results, 0.95, 0.99);
  }

  // ---------------------------------------------------------------------
  // The simulation
  // ---------------------------------------------------------------------

  datatype Confidence = Confidence(var95: Option<real>, var99: Option<real>, cvar95: Option<real>)
  datatype Outcome = Outcome(results: seq<real>, analysis: Summary, confidence: Confidence)

  /** One row of 252 return draws per asset, and per iteration one draw per asset and day. */
  predicate SimulationInputs(s: Simulator, returnDraws: seq<seq<real>>, pathDraws: seq<seq<seq<real>>>) {
    |returnDraws| == |s.assets| && (forall i :: 0 <= i < |returnDraws| ==> |returnDraws[i]| == ReturnDays) &&
    Covers(s.portfolio.correlationMatrix, |s.assets|) &&
    |pathDraws| == s.iterations &&
    forall k :: 0 <= k < |pathDraws| ==>
      (|pathDraws[k]| == s.timeHorizon && forall t :: 0 <= t < s.timeHorizon ==> |pathDraws[k][t]| == |s.assets|)
  }

  /** The terminal return of every iteration's path; None when the Cholesky factor is not finite. */
  function SimulatedResults(s: Simulator, returnDraws: seq<seq<real>>, pathDraws: seq<seq<seq<real>>>, sqrt: real -> real)
    : (r: Option<seq<real>>)
    requires SimulationInputs(s, returnDraws, pathDraws)
    ensures r.Some? ==> |r.value| == s.iterations
  {
    var rs := SimulatedReturns(returnDraws);
    var cov := CovarianceOf(s.portfolio.correlationMatrix, |rs|);
    if CholeskyFactor(cov, sqrt).None? then None
    else
      Some(seq(s.iterations, k requires 0 <= k < s.iterations =>
        FinalValue(PathOf(s, rs, cov, pathDraws[k], sqrt).value)))
  }

  /** `simulate`: the results, their summary, VaR at 95% and 99% and CVaR at 95%. */
  method Simulate(s: Simulator, returnDraws: seq<seq<real>>, pathDraws: seq<seq<seq<real>>>, sqrt: real -> real)
    returns (o: Option<Outcome>)
    requires SimulationInputs(s, returnDraws, pathDraws) && s.iterations > 0
    ensures o.None? <==> SimulatedResults(s, returnDraws, pathDraws, sqrt).None?
    ensures o.Some? ==> o.value.results == SimulatedResults(s, returnDraws, pathDraws, sqrt).value
    ensures o.Some? ==> o.value.analysis == AnalyzeResults(o.value.results, sqrt)
    ensures o.Some? ==>
      o.value.confidence == Confidence(VaR(o.value.results, 0.95), VaR(o.value.results, 0.99), CVaR(o.value.results, 0.95))
  {
    var rs := CalculateReturns(s, returnDraws);
    var cov := CalculateCovariance(s, rs);
    var values, ok := RunPaths(s, rs, cov, pathDraws, sqrt);
    if !ok {
      return None;
    }
    var results := new real[|values|](i requires 0 <= i < |values| => values[i]);
    assert results[..] == values;
    assert values == SimulatedResults(s, returnDraws, pathDraws, sqrt).value;
    var analysis := AnalyzeResults(values, sqrt);
    var var95 := CalculateVaR(results, 0.95);
    var var99 := CalculateVaR(results, 0.99);
    var cvar95 := CalculateCVaR(results, 0.95);
    o := Some(Outcome(values, analysis, Confidence(var95, var99, cvar95)));
  }

  /**
   * The loop of `simulate`: one path per iteration and its terminal return;
   * ok is false when a path is not finite (then no path is).
   */
  method RunPaths(s: Simulator, rs: seq<seq<real>>, cov: Matrix, pathDraws: seq<seq<seq<real>>>, sqrt: real -> real)
    returns (values: seq<real>, ok: bool)
    requires |pathDraws| == s.iterations && IsSquare(cov, |rs|)
    requires forall k :: 0 <= k < |pathDraws| ==> PathInputs(s, rs, cov, pathDraws[k])
    ensures ok <==> s.iterations == 0 || CholeskyFactor(cov, sqrt).Some?
    ensures ok ==> |values| == s.iterations
    ensures ok ==> forall u :: 0 <= u < s.iterations ==> values[u] == FinalValue(PathOf(s, rs, cov, pathDraws[u], sqrt).value)
  {
    values := [];
    var k := 0;
    while k < s.iterations
      invariant 0 <= k <= s.iterations && |values| == k
      invariant k == 0 || CholeskyFactor(cov, sqrt).Some?
      invariant forall u :: 0 <= u < k ==> values[u] == FinalValue(PathOf(s, rs, cov, pathDraws[u], sqrt).value)
    {
      var path := GeneratePath(s, rs, cov, pathDraws[k], sqrt);
      if path.None? {
        return values, false;
      }
      var value := CalculateFinalValue(path.value);
      values := values + [value];
      k := k + 1;
    }
    ok := true;
  }
}
