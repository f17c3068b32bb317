/**
 * Arithmetic shared by every analytics kernel: sums in the order JavaScript's
 * `reduce((a, b) => a + b, 0)` forms them, centred products, simple returns,
 * compounding, and the facts about square roots that the kernels rely on.
 *
 * JavaScript numbers are modelled as mathematical reals. `Math.sqrt` and the
 * fractional `Math.pow` are not computed: an operation that needs them receives
 * them as a function parameter, and a proof that needs a fact about the square
 * root assumes only `IsSqrt` of it.
 */
module Numerics {

  datatype Option<T> = None | Some(value: T)

  /** The outcome of an operation that throws: a value, or the error it throws. */
  datatype Result<T, E> = Ok(value: T) | Err(error: E)

  /** A matrix as the source builds it: an array of row arrays. */
  type Matrix = seq<seq<real>>

  /** `m` has n rows of n entries each. */
  predicate IsSquare(m: Matrix, n: nat) {
    |m| == n && forall i :: 0 <= i < n ==> |m[i]| == n
  }

  ghost predicate IsSymmetric(m: Matrix)
    requires IsSquare(m, |m|)
  {
    forall i, j :: 0 <= i < |m| && 0 <= j < |m| ==> m[i][j] == m[j][i]
  }

  function Square(y: real): real { y * y }

  /**
   * `sqrt` behaves as the non-negative square root on x >= 0: it is
   * non-negative, monotone, it undoes squaring a non-negative number, and its
   * square is its argument.
   */
  ghost predicate IsSqrt(sqrt: real -> real) {
    && (forall x :: 0.0 <= x ==> 0.0 <= sqrt(x))
    && (forall y :: 0.0 <= y ==> sqrt(Square(y)) == y)
    && (forall x, x' :: 0.0 <= x <= x' ==> sqrt(x) <= sqrt(x'))
    && (forall x :: 0.0 <= x ==> Square(sqrt(x)) == x)
  }

  lemma ProductPositive(a: real, b: real)
    requires 0.0 < a && 0.0 < b
    ensures 0.0 < a * b
  {
  }

  lemma SqrtZero(sqrt: real -> real)
    requires IsSqrt(sqrt)
    ensures sqrt(0.0) == 0.0
  {
    assert Square(0.0) == 0.0;
    assert sqrt(Square(0.0)) == 0.0;
  }

  lemma SquareBelow(z: real)
    requires 0.0 < z < 1.0
    ensures Square(z) < z
  {
    var w := 1.0 - z;
    assert 0.0 < z * w;
  }

  lemma SqrtPositive(sqrt: real -> real, x: real)
    requires IsSqrt(sqrt) && 0.0 < x
    ensures 0.0 < sqrt(x)
  {
    var z := if x < 1.0 then x else 1.0;
    if x < 1.0 {
      SquareBelow(z);
    } else {
      assert Square(z) == 1.0;
    }
    assert 0.0 <= Square(z) <= x;
    assert sqrt(Square(z)) == z;
    assert sqrt(Square(z)) <= sqrt(x);
  }

  /** The root of a square is the non-negative base. */
  lemma SqrtOfSquare(sqrt: real -> real, x: real)
    requires IsSqrt(sqrt) && 0.0 <= x
    ensures sqrt(x * x) == x
  {
    assert sqrt(Square(x)) == x;
  }

  /** |c| <= sqrt(p) whenever c * c <= p. */
  lemma BoundedBySqrt(sqrt: real -> real, c: real, p: real)
    requires IsSqrt(sqrt) && c * c <= p
    ensures -sqrt(p) <= c <= sqrt(p)
  {
    var a := if c < 0.0 then -c else c;
    assert Square(a) == c * c;
    assert 0.0 <= Square(a);
    assert sqrt(Square(a)) == a;
    assert sqrt(Square(a)) <= sqrt(p);
  }

  function Min(a: int, b: int): int { if a <= b then a else b }

  function MaxReal(a: real, b: real): real { if a >= b then a else b }

  function MinReal(a: real, b: real): real { if a <= b then a else b }

  function Abs(x: real): real { if x < 0.0 then -x else x }

  /** `Math.max(...s)` of a non-empty list. */
  function MaxOf(s: seq<real>): (m: real)
    requires |s| > 0
    ensures (exists i :: 0 <= i < |s| && s[i] == m) && forall i :: 0 <= i < |s| ==> s[i] <= m
  {
    if |s| == 1 then s[0]
    else
      var rest := MaxOf(s[1..]);
      assert forall i :: 1 <= i < |s| ==> s[i] == s[1..][i - 1];
      if s[0] >= rest then s[0] else rest
  }

  /** `Math.min(...s)` of a non-empty list. */
  function MinOf(s: seq<real>): (m: real)
    requires |s| > 0
    ensures (exists i :: 0 <= i < |s| && s[i] == m) && forall i :: 0 <= i < |s| ==> m <= s[i]
  {
    if |s| == 1 then s[0]
    else
      var rest := MinOf(s[1..]);
      assert forall i :: 1 <= i < |s| ==> s[i] == s[1..][i - 1];
      if s[0] <= rest then s[0] else rest
  }

  /** `Math.max(lo, Math.min(hi, x))`. */
  function Clamp(x: real, lo: real, hi: real): (r: real)
    requires lo <= hi
    ensures lo <= r <= hi
    ensures lo <= x <= hi ==> r == x
  {
    MaxReal(lo, if hi <= x then hi else x)
  }

  /** s[0] + ... + s[n-1], accumulated left to right. */
  function SumFirst(s: seq<real>, n: nat): real
    requires n <= |s|
  {
    if n == 0 then 0.0 else SumFirst(s, n - 1) + s[n - 1]
  }

  function Sum(s: seq<real>): real {
    SumFirst(s, |s|)
  }

  /** `s.reduce((a, b) => a + b, 0) / s.length`. */
  function Mean(s: seq<real>): real
    requires |s| > 0
  {
    Sum(s) / |s| as real
  }

  /** The first n entries of s and t agree, so their sums do. */
  lemma {:induction false} SumFirstAgree(s: seq<real>, t: seq<real>, n: nat)
    requires n <= |s| && n <= |t|
    requires forall i :: 0 <= i < n ==> s[i] == t[i]
    ensures SumFirst(s, n) == SumFirst(t, n)
  {
    if n > 0 {
      SumFirstAgree(s, t, n - 1);
    }
  }

  lemma {:induction false} SumFirstNonNegative(s: seq<real>, n: nat)
    requires n <= |s|
    requires forall i :: 0 <= i < n ==> 0.0 <= s[i]
    ensures 0.0 <= SumFirst(s, n)
  {
    if n > 0 {
      SumFirstNonNegative(s, n - 1);
    }
  }

  /** Dividing every entry by c divides the sum by c. */
  lemma {:induction false} SumFirstScaled(s: seq<real>, t: seq<real>, c: real, n: nat)
    requires n <= |s| && n <= |t| && c != 0.0
    requires forall i :: 0 <= i < n ==> t[i] == s[i] / c
    ensures SumFirst(t, n) == SumFirst(s, n) / c
  {
    if n > 0 {
      SumFirstScaled(s, t, c, n - 1);
    }
  }

  /** Every one of the first n entries is at most b, so their sum is at most n * b. */
  lemma {:induction false} SumFirstBounded(s: seq<real>, n: nat, b: real)
    requires n <= |s|
    requires forall i :: 0 <= i < n ==> s[i] <= b
    ensures SumFirst(s, n) <= n as real * b
  {
    if n > 0 {
      SumFirstBounded(s, n - 1, b);
    }
  }

  /** Every one of the first n entries is at least b, so their sum is at least n * b. */
  lemma {:induction false} SumFirstAtLeast(s: seq<real>, n: nat, b: real)
    requires n <= |s|
    requires forall i :: 0 <= i < n ==> b <= s[i]
    ensures n as real * b <= SumFirst(s, n)
  {
    if n > 0 {
      SumFirstAtLeast(s, n - 1, b);
    }
  }

  /** With no negative entry, each of the first n entries is at most their sum. */
  lemma {:induction false} EntryAtMostSum(s: seq<real>, n: nat, k: nat)
    requires k < n <= |s|
    requires forall i :: 0 <= i < n ==> 0.0 <= s[i]
    ensures s[k] <= SumFirst(s, n)
  {
    SumFirstNonNegative(s, n - 1);
    if k < n - 1 {
      EntryAtMostSum(s, n - 1, k);
    }
  }

  lemma DivisionBetween(t: real, k: real, lo: real, hi: real)
    requires 0.0 < k && k * lo <= t <= k * hi
    ensures lo <= t / k <= hi
  {
    var q := t / k;
    assert q * k == t;
    if q < lo {
      ProductPositive(lo - q, k);
    }
    if q > hi {
      ProductPositive(q - hi, k);
    }
  }

  /** The mean of a series lies between any lower and any upper bound of its entries. */
  lemma MeanBetween(s: seq<real>, lo: real, hi: real)
    requires |s| > 0
    requires forall i :: 0 <= i < |s| ==> lo <= s[i] <= hi
    ensures lo <= Mean(s) <= hi
  {
    SumFirstBounded(s, |s|, hi);
    SumFirstAtLeast(s, |s|, lo);
    DivisionBetween(Sum(s), |s| as real, lo, hi);
  }

  /** Σ_{i<n} (x[i] - mx) * (y[i] - my): the numerator of a sample covariance. */
  function CentredCross(x: seq<real>, y: seq<real>, mx: real, my: real, n: nat): real
    requires n <= |x| && n <= |y|
  {
    if n == 0 then 0.0
    else CentredCross(x, y, mx, my, n - 1) + (x[n - 1] - mx) * (y[n - 1] - my)
  }

  lemma {:induction false} CentredCrossSymmetric(x: seq<real>, y: seq<real>, mx: real, my: real, n: nat)
    requires n <= |x| && n <= |y|
    ensures CentredCross(x, y, mx, my, n) == CentredCross(y, x, my, mx, n)
  {
    if n > 0 {
      CentredCrossSymmetric(x, y, mx, my, n - 1);
    }
  }

  /** A sum of squared deviations is never negative. */
  lemma {:induction false} CentredSquaresNonNegative(x: seq<real>, mx: real, n: nat)
    requires n <= |x|
    ensures 0.0 <= CentredCross(x, x, mx, mx, n)
  {
    if n > 0 {
      CentredSquaresNonNegative(x, mx, n - 1);
    }
  }

  /** Two series that agree on the first n entries have the same centred sums. */
  lemma {:induction false} CentredCrossAgree(x: seq<real>, y: seq<real>, x': seq<real>, y': seq<real>,
                                             mx: real, my: real, n: nat)
    requires n <= |x| && n <= |y| && n <= |x'| && n <= |y'|
    requires forall i :: 0 <= i < n ==> x[i] == x'[i] && y[i] == y'[i]
    ensures CentredCross(x, y, mx, my, n) == CentredCross(x', y', mx, my, n)
  {
    if n > 0 {
      CentredCrossAgree(x, y, x', y', mx, my, n - 1);
      assert x[n - 1] == x'[n - 1] && y[n - 1] == y'[n - 1];
    }
  }

  /**
   * The accumulation loop of a Pearson correlation: Σ (x − mx)(y − my),
   * Σ (x − mx)² and Σ (y − my)² over the first n pairs.
   */
  method CentredSums(x: seq<real>, y: seq<real>, mx: real, my: real, n: nat) returns (cxy: real, cxx: real, cyy: real)
    requires n <= |x| && n <= |y|
    ensures cxy == CentredCross(x, y, mx, my, n)
    ensures cxx == CentredCross(x, x, mx, mx, n) && cyy == CentredCross(y, y, my, my, n)
  {
    cxy, cxx, cyy := 0.0, 0.0, 0.0;
    for i := 0 to n
      invariant cxy == CentredCross(x, y, mx, my, i)
      invariant cxx == CentredCross(x, x, mx, mx, i) && cyy == CentredCross(y, y, my, my, i)
    {
      CauchySums(x, y, mx, my, i + 1);
      cxy := cxy + (x[i] - mx) * (y[i] - my);
      cxx := cxx + (x[i] - mx) * (x[i] - mx);
      cyy := cyy + (y[i] - my) * (y[i] - my);
    }
  }

  /** One Cauchy–Schwarz step: if C*C <= A*B with A, B >= 0, then 2*C*a*b <= A*b*b + B*a*a. */
  lemma CrossTermBound(A: real, B: real, C: real, a: real, b: real)
    requires 0.0 <= A && 0.0 <= B && C * C <= A * B
    ensures 2.0 * C * a * b <= A * b * b + B * a * a
  {
    if A == 0.0 {
      assert C * C <= 0.0;
      if C > 0.0 {
        ProductPositive(C, C);
      } else if C < 0.0 {
        ProductPositive(-C, -C);
      }
    } else {
      var d := A * b - C * a;
      assert 0.0 <= d * d;
      assert d * d == A * (A * b * b - 2.0 * C * a * b) + C * C * a * a;
      assert C * C * a * a <= A * B * a * a by {
        assert 0.0 <= a * a;
        assert (A * B - C * C) * (a * a) >= 0.0;
      }
      assert 0.0 <= A * (A * b * b - 2.0 * C * a * b + B * a * a);
      assert 0.0 <= A * b * b - 2.0 * C * a * b + B * a * a;
    }
  }

  /** Cauchy–Schwarz for centred sums: the squared cross sum is bounded by the product of the squared sums. */
  lemma {:induction false} CauchySchwarz(x: seq<real>, y: seq<real>, mx: real, my: real, n: nat)
    requires n <= |x| && n <= |y|
    ensures CauchyHolds(CentredCross(x, x, mx, mx, n), CentredCross(y, y, my, my, n), CentredCross(x, y, mx, my, n))
  {
    if n > 0 {
      CauchySchwarz(x, y, mx, my, n - 1);
      CauchySchwarzStep(x, y, mx, my, n);
    }
  }

  /** C² ≤ A·B with A, B ≥ 0: the squared cross sum is at most the product of the two squared sums. */
  predicate CauchyHolds(A: real, B: real, C: real) {
    0.0 <= A && 0.0 <= B && C * C <= A * B
  }

  lemma CauchySchwarzStep(x: seq<real>, y: seq<real>, mx: real, my: real, n: nat)
    requires 0 < n <= |x| && n <= |y|
    requires CauchyHolds(CentredCross(x, x, mx, mx, n - 1), CentredCross(y, y, my, my, n - 1), CentredCross(x, y, mx, my, n - 1))
    ensures CauchyHolds(CentredCross(x, x, mx, mx, n), CentredCross(y, y, my, my, n), CentredCross(x, y, mx, my, n))
  {
    CauchySums(x, y, mx, my, n);
    CauchyStep(CentredCross(x, x, mx, mx, n - 1), CentredCross(y, y, my, my, n - 1), CentredCross(x, y, mx, my, n - 1),
               x[n - 1] - mx, y[n - 1] - my,
               CentredCross(x, x, mx, mx, n), CentredCross(y, y, my, my, n), CentredCross(x, y, mx, my, n));
  }

  /** A', B', C' extend the sums A, B, C by the deviations a and b. */
  predicate Extends(A: real, B: real, C: real, a: real, b: real, A': real, B': real, C': real) {
    A' == A + a * a && B' == B + b * b && C' == C + a * b
  }

  lemma CauchySums(x: seq<real>, y: seq<real>, mx: real, my: real, n: nat)
    requires 0 < n <= |x| && n <= |y|
    ensures Extends(CentredCross(x, x, mx, mx, n - 1), CentredCross(y, y, my, my, n - 1), CentredCross(x, y, mx, my, n - 1),
                    x[n - 1] - mx, y[n - 1] - my,
                    CentredCross(x, x, mx, mx, n), CentredCross(y, y, my, my, n), CentredCross(x, y, mx, my, n))
  {
  }

  /** The inductive step of Cauchy–Schwarz, on plain numbers. */
  lemma CauchyStep(A: real, B: real, C: real, a: real, b: real, A': real, B': real, C': real)
    requires CauchyHolds(A, B, C) && Extends(A, B, C, a, b, A', B', C')
    ensures CauchyHolds(A', B', C')
  {
    CrossTermBound(A, B, C, a, b);
    SquareOfSum(C, a * b);
    ProductOfSums(A, a * a, B, b * b);
    assert a * b * (a * b) == a * a * (b * b);
  }

  lemma SquareOfSum(c: real, d: real)
    ensures (c + d) * (c + d) == c * c + 2.0 * c * d + d * d
  {
  }

  lemma ProductOfSums(p: real, q: real, r: real, s: real)
    ensures (p + q) * (r + s) == p * r + p * s + q * r + q * s
  {
  }

  /** A Pearson quotient c / sqrt(p * q) lies in [-1, 1] when c * c <= p * q and the root is positive. */
  lemma CorrelationQuotientBounded(sqrt: real -> real, c: real, p: real, q: real)
    requires IsSqrt(sqrt) && 0.0 <= p && 0.0 <= q && c * c <= p * q && sqrt(p * q) != 0.0
    ensures -1.0 <= c / sqrt(p * q) <= 1.0
  {
    BoundedBySqrt(sqrt, c, p * q);
    var s := sqrt(p * q);
    assert 0.0 < s;
    assert -s <= c <= s;
    QuotientBounded(c, s);
  }

  lemma QuotientBounded(c: real, s: real)
    requires 0.0 < s && -s <= c <= s
    ensures -1.0 <= c / s <= 1.0
  {
    var q := c / s;
    assert q * s == c;
    if q > 1.0 {
      ProductPositive(q - 1.0, s);
    } else if q < -1.0 {
      ProductPositive(-1.0 - q, s);
    }
  }

  /** Σ_{i<n} a[i] * b[i]. */
  function Dot(a: seq<real>, b: seq<real>, n: nat): real
    requires n <= |a| && n <= |b|
  {
    if n == 0 then 0.0 else Dot(a, b, n - 1) + a[n - 1] * b[n - 1]
  }

  /** With every entry of e equal to c, the weighted sum is c times the sum of the weights. */
  lemma {:induction false} DotConstant(w: seq<real>, e: seq<real>, c: real, n: nat)
    requires n <= |w| && n <= |e|
    requires forall i :: 0 <= i < n ==> e[i] == c
    ensures Dot(w, e, n) == c * SumFirst(w, n)
  {
    if n > 0 {
      DotConstant(w, e, c, n - 1);
    }
  }

  /**
   * With non-negative weights, a weighted sum of values in [lo, hi] lies between
   * lo and hi times the total weight.
   */
  lemma {:induction false} DotBetween(w: seq<real>, e: seq<real>, lo: real, hi: real, n: nat)
    requires n <= |w| && n <= |e|
    requires forall i :: 0 <= i < n ==> 0.0 <= w[i] && lo <= e[i] <= hi
    ensures lo * SumFirst(w, n) <= Dot(w, e, n) <= hi * SumFirst(w, n)
  {
    if n > 0 {
      DotBetween(w, e, lo, hi, n - 1);
      var x, v := w[n - 1], e[n - 1];
      assert x * lo <= x * v <= x * hi by {
        if 0.0 < x {
          if lo < v { ProductPositive(x, v - lo); }
          if v < hi { ProductPositive(x, hi - v); }
        }
      }
    }
  }

  /** Σ_{i<n} w[i]^2. */
  function SumOfSquares(w: seq<real>, n: nat): (r: real)
    requires n <= |w|
    ensures 0.0 <= r
  {
    if n == 0 then 0.0 else SumOfSquares(w, n - 1) + w[n - 1] * w[n - 1]
  }

  /** x^k for a natural exponent, as `Math.pow(x, 252)` computes it. */
  function PowNat(x: real, k: nat): real {
    if k == 0 then 1.0 else x * PowNat(x, k - 1)
  }

  /** Π_{i<n} (1 + s[i]): the growth factor of compounding the first n returns. */
  function Growth(s: seq<real>, n: nat): real
    requires n <= |s|
  {
    if n == 0 then 1.0 else Growth(s, n - 1) * (1.0 + s[n - 1])
  }

  /** No price that a return is taken relative to is zero. */
  predicate NonZeroBases(p: seq<real>) {
    forall i :: 0 <= i < |p| - 1 ==> p[i] != 0.0
  }

  /** Every consecutive pair kept: r[i] = (p[i+1] - p[i]) / p[i]. */
  function SimpleReturns(p: seq<real>): (r: seq<real>)
    requires NonZeroBases(p)
    ensures |r| == if |p| == 0 then 0 else |p| - 1
  {
    if |p| < 2 then [] else SimpleReturns(p[..|p| - 1]) + [(p[|p| - 1] - p[|p| - 2]) / p[|p| - 2]]
  }

  lemma {:induction false} SimpleReturnsAt(p: seq<real>, i: nat)
    requires NonZeroBases(p) && i + 1 < |p|
    ensures SimpleReturns(p)[i] == (p[i + 1] - p[i]) / p[i]
  {
    var q := p[..|p| - 1];
    if i + 2 < |p| {
      SimpleReturnsAt(q, i);
    }
  }

  /** Compounding the simple returns of p from p[0] gives back every price. */
  lemma {:induction false} SimpleReturnsRebuildPrices(p: seq<real>, k: nat)
    requires NonZeroBases(p) && k < |p|
    ensures p[0] * Growth(SimpleReturns(p), k) == p[k]
  {
    if k > 0 {
      SimpleReturnsRebuildPrices(p, k - 1);
      SimpleReturnsAt(p, k - 1);
      var q := p[k - 1];
      var r := (p[k] - q) / q;
      assert r * q == p[k] - q;
      calc {
        p[0] * Growth(SimpleReturns(p), k);
        p[0] * Growth(SimpleReturns(p), k - 1) * (1.0 + r);
        q * (1.0 + r);
        q + r * q;
        p[k];
      }
    }
  }

  /** a → b is one compounding step: r is the simple return from a to b and g' = g × (1 + r). */
  predicate Compounds(a: real, b: real, r: real, g: real, g': real) {
    a != 0.0 && r == (b - a) / a && g' == g * (1.0 + r)
  }

  /** (a / v0) × (1 + (b − a) / a) = b / v0. */
  lemma RatioStep(v0: real, a: real, b: real, r: real, g: real, g': real)
    requires v0 != 0.0 && g == a / v0 && Compounds(a, b, r, g, g')
    ensures g' == b / v0
  {
    assert r * a == b - a;
    assert (1.0 + r) * a == b;
    assert g * v0 == a;
    assert g * (1.0 + r) * v0 == b;
  }

  /** Compounding the first k simple returns of p gives the ratio of p[k] to p[0]. */
  lemma {:induction false} GrowthOfPrices(p: seq<real>, k: nat)
    requires NonZeroBases(p) && k < |p| && p[0] != 0.0
    ensures Growth(SimpleReturns(p), k) == p[k] / p[0]
  {
    if k > 0 {
      GrowthOfPrices(p, k - 1);
      GrowthOfPricesFacts(p, k);
      RatioStep(p[0], p[k - 1], p[k], SimpleReturns(p)[k - 1], Growth(SimpleReturns(p), k - 1), Growth(SimpleReturns(p), k));
    }
  }

  lemma GrowthOfPricesFacts(p: seq<real>, k: nat)
    requires NonZeroBases(p) && 0 < k < |p|
    ensures Compounds(p[k - 1], p[k], SimpleReturns(p)[k - 1], Growth(SimpleReturns(p), k - 1), Growth(SimpleReturns(p), k))
  {
    SimpleReturnsAt(p, k - 1);
  }
}
