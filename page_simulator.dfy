/**
 * The browser-side `PortfolioSimulator` of js/optimization.js: re-weighting a
 * portfolio when an asset is added or one weight is changed, the average and
 * pairwise correlation of the assets' returns, the momentum score, the simple
 * moving average, the RSI and the trend signal built from them.
 */
module PageSimulator {
  import opened Numerics

  /** The weight `simulateNewAsset` gives the new asset by default (5%). */
  const DefaultNewWeight: real := 0.05

  /** An asset of the simulated portfolio; only the weight is re-computed. */
  datatype SimAsset = SimAsset(symbol: string, weight: real, returns_: seq<real>)

  function WeightsOf(assets: seq<SimAsset>): (w: seq<real>)
    ensures |w| == |assets| && forall i :: 0 <= i < |assets| ==> w[i] == assets[i].weight
  {
    seq(|assets|, i requires 0 <= i < |assets| => assets[i].weight)
  }

  /**
   * The simulated asset list of `simulateNewAsset`: every existing weight scaled
   * by (1 − w), every other field kept, and the new asset appended with weight w.
   */
  function WithNewAsset(assets: seq<SimAsset>, newAsset: SimAsset, w: real): (r: seq<SimAsset>)
    ensures |r| == |assets| + 1
    ensures forall i :: 0 <= i < |assets| ==>
      r[i] == assets[i].(weight := assets[i].weight * (1.0 - w))
    ensures r[|assets|] == newAsset.(weight := w)
  {
    seq(|assets|, i requires 0 <= i < |assets| => assets[i].(weight := assets[i].weight * (1.0 - w)))
      + [newAsset.(weight := w)]
  }

  /** Weights summing to s become weights summing to s(1 − w) + w; a sum of 1 stays 1. */
  lemma WithNewAssetSum(assets: seq<SimAsset>, newAsset: SimAsset, w: real)
    ensures Sum(WeightsOf(WithNewAsset(assets, newAsset, w))) == Sum(WeightsOf(assets)) * (1.0 - w) + w
    ensures Sum(WeightsOf(assets)) == 1.0 ==> Sum(WeightsOf(WithNewAsset(assets, newAsset, w))) == 1.0
  {
    var old_ := WeightsOf(assets);
    var new_ := WeightsOf(WithNewAsset(assets, newAsset, w));
    SumFirstScaledBy(old_, new_, 1.0 - w, |assets|);
  }

  /** Multiplying every entry by f multiplies the sum by f. */
  lemma {:induction false} SumFirstScaledBy(s: seq<real>, t: seq<real>, f: real, n: nat)
    requires n <= |s| && n <= |t|
    requires forall i :: 0 <= i < n ==> t[i] == s[i] * f
    ensures SumFirst(t, n) == SumFirst(s, n) * f
  {
    if n > 0 {
      SumFirstScaledBy(s, t, f, n - 1);
      var a, b := SumFirst(s, n - 1), s[n - 1];
      assert a * f + b * f == (a + b) * f;
    }
  }

  /** Entry k replaced by a and every other entry multiplied by f. */
  function Reweighted(w: seq<real>, k: nat, a: real, f: real): (r: seq<real>)
    ensures |r| == |w| && forall i :: 0 <= i < |w| ==> r[i] == if i == k then a else w[i] * f
  {
    seq(|w|, i requires 0 <= i < |w| => if i == k then a else w[i] * f)
  }

  lemma {:induction false} ReweightedSum(w: seq<real>, k: nat, a: real, f: real, n: nat)
    requires k < |w| && n <= |w|
    ensures SumFirst(Reweighted(w, k, a, f), n) ==
      (if k < n then a - w[k] * f else 0.0) + SumFirst(w, n) * f
  {
    if n > 0 {
      ReweightedSum(w, k, a, f, n - 1);
      var s, x := SumFirst(w, n - 1), w[n - 1];
      assert s * f + x * f == (s + x) * f;
    }
  }

  /**
   * `simulateWeightChange` as written: asset k gets the new weight and every
   * other weight is multiplied by (1 − (newWeight − w_k)) / (1 − w_k).
   */
  function WeightChangeAsWritten(w: seq<real>, k: nat, newWeight: real): (r: seq<real>)
    requires k < |w| && w[k] != 1.0
    ensures |r| == |w| && r[k] == newWeight
    ensures Sum(w) == 1.0 ==> Sum(r) == 1.0 + w[k]
  {
    var f := (1.0 - (newWeight - w[k])) / (1.0 - w[k]);
    ReweightedSum(w, k, newWeight, f, |w|);
    assert f * (1.0 - w[k]) == 1.0 - (newWeight - w[k]);
    Reweighted(w, k, newWeight, f)
  }

  /** Two equal weights, the first raised to 0.7: the as-written weights are 0.7 and 0.8. */
  lemma WeightChangeAsWrittenExample()
    ensures WeightChangeAsWritten([0.5, 0.5], 0, 0.7) == [0.7, 0.8]
  {
    var r := WeightChangeAsWritten([0.5, 0.5], 0, 0.7);
    assert (1.0 - (0.7 - 0.5)) / (1.0 - 0.5) == 1.6;
    assert r[1] == 0.5 * 1.6;
  }

  /**
   * The re-weighting `simulateWeightChange` evidently intends: the other assets
   * share what the new weight leaves, (1 − newWeight), in their old proportions.
   */
  function WeightChange(w: seq<real>, k: nat, newWeight: real): (r: seq<real>)
    requires k < |w| && w[k] != 1.0
    ensures |r| == |w| && r[k] == newWeight
    ensures Sum(w) == 1.0 ==> Sum(r) == 1.0
    ensures forall i :: 0 <= i < |w| && i != k ==> r[i] * (1.0 - w[k]) == w[i] * (1.0 - newWeight)
  {
    var f := (1.0 - newWeight) / (1.0 - w[k]);
    ReweightedSum(w, k, newWeight, f, |w|);
    assert f * (1.0 - w[k]) == 1.0 - newWeight;
    var r := Reweighted(w, k, newWeight, f);
    assert forall i :: 0 <= i < |w| && i != k ==> r[i] * (1.0 - w[k]) == w[i] * (f * (1.0 - w[k]));
    r
  }

  // ---------------------------------------------------------------------
  // Correlations
  // ---------------------------------------------------------------------

  /**
   * The last step of `calculatePairwiseCorrelation`: 0 when either deviation
   * sum is 0, otherwise the cross sum over the root of their product.
   */
  function CorrelationOf(num: real, d1: real, d2: real, sqrt: real -> real): (c: real)
    requires IsSqrt(sqrt) && 0.0 <= d1 && 0.0 <= d2
    ensures num * num <= d1 * d2 ==> -1.0 <= c <= 1.0
  {
    if d1 == 0.0 || d2 == 0.0 then 0.0
    else
      ProductPositive(d1, d2);
      SqrtPositive(sqrt, d1 * d2);
      if num * num <= d1 * d2 then
        CorrelationQuotientBounded(sqrt, num, d1, d2);
        num / sqrt(d1 * d2)
      else num / sqrt(d1 * d2)
  }

  /**
   * `calculatePairwiseCorrelation`: the loop runs over returns1's length, each
   * series centred on its own mean; 0 when a deviation sum is 0. When returns2
   * is shorter, its missing entries are NaN and so is the result (None), unless
   * returns1's deviation sum is 0.
   */
  function PairwiseCorrelation(r1: seq<real>, r2: seq<real>, sqrt: real -> real): (c: Option<real>)
    requires IsSqrt(sqrt)
    ensures c.None? <==> |r2| < |r1| && CentredCross(r1, r1, Mean(r1), Mean(r1), |r1|) != 0.0
    ensures r1 == [] ==> c == Some(0.0)
  {
    var n := |r1|;
    if n == 0 then Some(0.0)
    else
      var m1 := Mean(r1);
      var d1 := CentredCross(r1, r1, m1, m1, n);
      CentredSquaresNonNegative(r1, m1, n);
      if |r2| < n then (if d1 == 0.0 then Some(0.0) else None)
      else
        var m2 := Mean(r2);
        var d2 := CentredCross(r2, r2, m2, m2, n);
        CentredSquaresNonNegative(r2, m2, n);
        Some(CorrelationOf(CentredCross(r1, r2, m1, m2, n), d1, d2, sqrt))
  }

  /** A defined pairwise correlation lies in [−1, 1] (Cauchy–Schwarz). */
  lemma PairwiseCorrelationBounded(r1: seq<real>, r2: seq<real>, sqrt: real -> real)
    requires IsSqrt(sqrt)
    requires PairwiseCorrelation(r1, r2, sqrt).Some?
    ensures -1.0 <= PairwiseCorrelation(r1, r2, sqrt).value <= 1.0
  {
    var n := |r1|;
    if n > 0 && |r2| >= n {
      var m1, m2 := Mean(r1), Mean(r2);
      CauchySchwarz(r1, r2, m1, m2, n);
    }
  }

  /** The pairwise correlation loops, proved to compute `PairwiseCorrelation`. */
  method CalculatePairwiseCorrelation(r1: seq<real>, r2: seq<real>, sqrt: real -> real) returns (c: Option<real>)
    requires IsSqrt(sqrt)
    ensures c == PairwiseCorrelation(r1, r2, sqrt)
  {
    var n := |r1|;
    if n == 0 {
      return Some(0.0);
    }
    var mean1 := Mean(r1);
    var d1 := SquaredDeviations(r1, mean1, n);
    if |r2| < n {
      return if d1 == 0.0 then Some(0.0) else None;
    }
    var mean2 := Mean(r2);
    var numerator, d2 := CrossDeviations(r1, r2, mean1, mean2, n);
    CentredSquaresNonNegative(r1, mean1, n);
    CentredSquaresNonNegative(r2, mean2, n);
    c := Some(CorrelationOf(numerator, d1, d2, sqrt));
  }

  /** Σ (r[i] − m)² over the first n entries. */
  method SquaredDeviations(r: seq<real>, m: real, n: nat) returns (d: real)
    requires n <= |r|
    ensures d == CentredCross(r, r, m, m, n)
  {
    d := 0.0;
    var i := 0;
    while i < n
      invariant 0 <= i <= n && d == CentredCross(r, r, m, m, i)
    {
      d := d + (r[i] - m) * (r[i] - m);
      i := i + 1;
    }
  }

  /** Σ (r1[i] − m1)(r2[i] − m2) and Σ (r2[i] − m2)² over the first n entries. */
  method CrossDeviations(r1: seq<real>, r2: seq<real>, m1: real, m2: real, n: nat) returns (num: real, d2: real)
    requires n <= |r1| && n <= |r2|
    ensures num == CentredCross(r1, r2, m1, m2, n) && d2 == CentredCross(r2, r2, m2, m2, n)
  {
    num, d2 := 0.0, 0.0;
    var i := 0;
    while i < n
      invariant 0 <= i <= n
      invariant num == CentredCross(r1, r2, m1, m2, i) && d2 == CentredCross(r2, r2, m2, m2, i)
    {
      var x, y := r1[i] - m1, r2[i] - m2;
      assert CentredCross(r1, r2, m1, m2, i + 1) == num + x * y;
      assert CentredCross(r2, r2, m2, m2, i + 1) == d2 + y * y;
      num := num + x * y;
      d2 := d2 + y * y;
      i := i + 1;
    }
  }

  /** Addition of two numbers either of which may be NaN (None). */
  function OAdd(a: Option<real>, b: Option<real>): Option<real> {
    if a.Some? && b.Some? then Some(a.value + b.value) else None
  }

  /** Σ over i < k < j of the correlation of series i with series k. */
  function RowTotal(rs: seq<seq<real>>, sqrt: real -> real, i: nat, j: nat): Option<real>
    requires IsSqrt(sqrt) && i < j <= |rs|
  {
    if j == i + 1 then Some(0.0) else OAdd(RowTotal(rs, sqrt, i, j - 1), PairwiseCorrelation(rs[i], rs[j - 1], sqrt))
  }

  /** Σ over the pairs i < k with i below row r. */
  function PairTotal(rs: seq<seq<real>>, sqrt: real -> real, r: nat): Option<real>
    requires IsSqrt(sqrt) && r <= |rs|
  {
    if r == 0 then Some(0.0) else OAdd(PairTotal(rs, sqrt, r - 1), RowTotal(rs, sqrt, r - 1, |rs|))
  }

  /** The number of pairs i < k with i below row r, out of n series. */
  function PairCount(n: nat, r: nat): nat
    requires r <= n
  {
    if r == 0 then 0 else PairCount(n, r - 1) + (n - r)
  }

  /** There are i (2n − 1 − i) / 2 pairs below row i, so n (n − 1) / 2 in all. */
  lemma {:induction false} PairCountClosed(n: nat, r: nat)
    requires r <= n
    ensures 2 * PairCount(n, r) == r * (2 * n - 1 - r)
  {
    if r > 0 {
      PairCountClosed(n, r - 1);
      assert (r - 1) * (2 * n - r) + 2 * (n - r) == r * (2 * n - 1 - r);
    }
  }

  /** `calculateAverageCorrelation`: the mean correlation over all pairs, or 0 with fewer than two assets. */
  function AverageCorrelationOf(rs: seq<seq<real>>, sqrt: real -> real): Option<real>
    requires IsSqrt(sqrt)
  {
    var count := PairCount(|rs|, |rs|);
    if count == 0 then Some(0.0)
    else
      match PairTotal(rs, sqrt, |rs|)
      case None => None
      case Some(t) => Some(t / count as real)
  }

  lemma {:induction false} RowTotalBounded(rs: seq<seq<real>>, sqrt: real -> real, i: nat, j: nat)
    requires IsSqrt(sqrt) && i < j <= |rs| && RowTotal(rs, sqrt, i, j).Some?
    ensures -(j - i - 1) as real <= RowTotal(rs, sqrt, i, j).value <= (j - i - 1) as real
  {
    if j > i + 1 {
      RowTotalBounded(rs, sqrt, i, j - 1);
      PairwiseCorrelationBounded(rs[i], rs[j - 1], sqrt);
    }
  }

  lemma {:induction false} PairTotalBounded(rs: seq<seq<real>>, sqrt: real -> real, r: nat)
    requires IsSqrt(sqrt) && r <= |rs| && PairTotal(rs, sqrt, r).Some?
    ensures -(PairCount(|rs|, r) as real) <= PairTotal(rs, sqrt, r).value <= PairCount(|rs|, r) as real
  {
    if r > 0 {
      PairTotalBounded(rs, sqrt, r - 1);
      RowTotalBounded(rs, sqrt, r - 1, |rs|);
    }
  }

  /** The average correlation lies in [−1, 1] whenever it is defined. */
  lemma AverageCorrelationBounded(rs: seq<seq<real>>, sqrt: real -> real)
    requires IsSqrt(sqrt) && AverageCorrelationOf(rs, sqrt).Some?
    ensures -1.0 <= AverageCorrelationOf(rs, sqrt).value <= 1.0
  {
    var count := PairCount(|rs|, |rs|);
    if count > 0 {
      PairTotalBounded(rs, sqrt, |rs|);
      DivisionBetween(PairTotal(rs, sqrt, |rs|).value, count as real, -1.0, 1.0);
    }
  }

  /** The double loop over pairs i < j, proved to compute `AverageCorrelationOf` with n (n − 1) / 2 pairs. */
  method CalculateAverageCorrelation(rs: seq<seq<real>>, sqrt: real -> real) returns (avg: Option<real>)
    requires IsSqrt(sqrt)
    ensures avg == AverageCorrelationOf(rs, sqrt)
    ensures 2 * PairCount(|rs|, |rs|) == |rs| * (|rs| - 1)
  {
    var n := |rs|;
    var total: Option<real> := Some(0.0);
    var count := 0;
    var i := 0;
    while i < n
      invariant 0 <= i <= n
      invariant total == PairTotal(rs, sqrt, i) && count == PairCount(n, i)
    {
      var row, pairs := CalculateRowCorrelation(rs, sqrt, i);
      total := OAdd(total, row);
      count := count + pairs;
      i := i + 1;
    }
    PairCountClosed(n, n);
    if count == 0 {
      return Some(0.0);
    }
    avg := if total.None? then None else Some(total.value / count as real);
  }

  /** The inner loop: the correlations of series i with every later series, and how many there are. */
  method CalculateRowCorrelation(rs: seq<seq<real>>, sqrt: real -> real, i: nat) returns (row: Option<real>, pairs: nat)
    requires IsSqrt(sqrt) && i < |rs|
    ensures row == RowTotal(rs, sqrt, i, |rs|) && pairs == |rs| - i - 1
  {
    row := Some(0.0);
    pairs := 0;
    var j := i + 1;
    while j < |rs|
      invariant i + 1 <= j <= |rs|
      invariant row == RowTotal(rs, sqrt, i, j) && pairs == j - i - 1
    {
      var c := CalculatePairwiseCorrelation(rs[i], rs[j], sqrt);
      row := OAdd(row, c);
      pairs := pairs + 1;
      j := j + 1;
    }
  }

  // ---------------------------------------------------------------------
  // Momentum
  // ---------------------------------------------------------------------

  /** The default look-back periods of `calculateMomentum`, in months. */
  const MomentumMonths: seq<nat> := [1, 3, 6, 12]
  /** The weight of each default period, in the same order. */
  const MomentumWeights: seq<real> := [0.2, 0.3, 0.2, 0.3]
  /** Trading days per month. */
  const DaysPerMonth: nat := 21

  /** The price history is long enough for a period of k-th default length. */
  predicate Covers(prices: seq<real>, k: nat)
    requires k < |MomentumMonths|
  {
    MomentumMonths[k] * DaysPerMonth <= |prices|
  }

  /** The price one period back: prices[len − months·21]. */
  function PastPrice(prices: seq<real>, k: nat): real
    requires k < |MomentumMonths| && Covers(prices, k)
  {
    prices[|prices| - MomentumMonths[k] * DaysPerMonth]
  }

  /** Every covered period starts at a non-zero price (an unguarded division otherwise). */
  predicate MomentumDefined(prices: seq<real>) {
    forall k :: 0 <= k < |MomentumMonths| && Covers(prices, k) ==> PastPrice(prices, k) != 0.0
  }

  function PeriodReturn(prices: seq<real>, k: nat): real
    requires k < |MomentumMonths| && Covers(prices, k) && PastPrice(prices, k) != 0.0
  {
    (prices[|prices| - 1] - PastPrice(prices, k)) / PastPrice(prices, k)
  }

  /** Σ return × weight over the covered periods among the first k. */
  function MomentumScore(prices: seq<real>, k: nat): real
    requires k <= |MomentumMonths| && MomentumDefined(prices)
  {
    if k == 0 then 0.0
    else (MomentumScore(prices, k - 1) +
          if Covers(prices, k - 1) then PeriodReturn(prices, k - 1) * MomentumWeights[k - 1] else 0.0)
  }

  /** Σ weight over the covered periods among the first k. */
  function MomentumWeightTotal(prices: seq<real>, k: nat): real
    requires k <= |MomentumMonths|
  {
    if k == 0 then 0.0
    else MomentumWeightTotal(prices, k - 1) + (if Covers(prices, k - 1) then MomentumWeights[k - 1] else 0.0)
  }

  /** `calculateMomentum` with the default periods: the weighted mean of the covered period returns, or 0. */
  function Momentum(prices: seq<real>): (m: real)
    requires MomentumDefined(prices)
    ensures |prices| < DaysPerMonth ==> m == 0.0
  {
    MomentumWeightPositive(prices, |MomentumMonths|);
    var total := MomentumWeightTotal(prices, |MomentumMonths|);
    if total > 0.0 then MomentumScore(prices, |MomentumMonths|) / total else 0.0
  }

  lemma {:induction false} MomentumSums(prices: seq<real>, k: nat, lo: real, hi: real)
    requires k <= |MomentumMonths| && MomentumDefined(prices)
    requires forall j :: 0 <= j < k && Covers(prices, j) ==> lo <= PeriodReturn(prices, j) <= hi
    ensures MomentumSumsAt(prices, k, lo, hi)
  {
    if k > 0 {
      MomentumSums(prices, k - 1, lo, hi);
      MomentumSumsStep(prices, k, lo, hi);
    }
  }

  predicate MomentumSumsAt(prices: seq<real>, k: nat, lo: real, hi: real)
    requires k <= |MomentumMonths| && MomentumDefined(prices)
  {
    lo * MomentumWeightTotal(prices, k) <= MomentumScore(prices, k) <= hi * MomentumWeightTotal(prices, k)
  }

  lemma MomentumSumsStep(prices: seq<real>, k: nat, lo: real, hi: real)
    requires 0 < k <= |MomentumMonths| && MomentumDefined(prices)
    requires MomentumSumsAt(prices, k - 1, lo, hi)
    requires Covers(prices, k - 1) ==> lo <= PeriodReturn(prices, k - 1) <= hi
    ensures MomentumSumsAt(prices, k, lo, hi)
  {
    var s, t := MomentumScore(prices, k - 1), MomentumWeightTotal(prices, k - 1);
    var s', t' := MomentumScore(prices, k), MomentumWeightTotal(prices, k);
    assert lo * t <= s <= hi * t;
    if Covers(prices, k - 1) {
      var r, w := PeriodReturn(prices, k - 1), MomentumWeights[k - 1];
      assert s' == s + r * w && t' == t + w;
      WeightedBoundStep(lo, hi, r, w, s, t, s', t');
    } else {
      assert s' == s && t' == t;
    }
  }

  /** Adding a term r·w with lo ≤ r ≤ hi and w > 0 keeps lo·Σw ≤ Σ r·w ≤ hi·Σw. */
  lemma WeightedBoundStep(lo: real, hi: real, r: real, w: real, s: real, t: real, s': real, t': real)
    requires lo * t <= s <= hi * t && 0.0 < w && lo <= r <= hi
    requires s' == s + r * w && t' == t + w
    ensures lo * t' <= s' <= hi * t'
  {
    assert lo * w <= r * w <= hi * w;
    assert lo * t' == lo * t + lo * w && hi * t' == hi * t + hi * w;
  }

  /** The weight total is positive exactly when a one-month history (21 prices) is available. */
  lemma {:induction false} MomentumWeightPositive(prices: seq<real>, k: nat)
    requires 0 < k <= |MomentumMonths|
    ensures 0.0 < MomentumWeightTotal(prices, k) <==> DaysPerMonth <= |prices|
  {
    if k > 1 {
      MomentumWeightPositive(prices, k - 1);
      MomentumWeightNonNegative(prices, k - 1);
    }
  }

  lemma {:induction false} MomentumWeightNonNegative(prices: seq<real>, k: nat)
    requires k <= |MomentumMonths|
    ensures 0.0 <= MomentumWeightTotal(prices, k)
  {
    if k > 0 {
      MomentumWeightNonNegative(prices, k - 1);
    }
  }

  /**
   * The momentum lies between any bounds of the covered period returns, and is 0
   * when fewer than 21 prices are available.
   */
  lemma MomentumBetween(prices: seq<real>, lo: real, hi: real)
    requires MomentumDefined(prices)
    requires forall k :: 0 <= k < |MomentumMonths| && Covers(prices, k) ==> lo <= PeriodReturn(prices, k) <= hi
    ensures |prices| < DaysPerMonth ==> Momentum(prices) == 0.0
    ensures DaysPerMonth <= |prices| ==> lo <= Momentum(prices) <= hi
  {
    MomentumSums(prices, |MomentumMonths|, lo, hi);
    MomentumWeightPositive(prices, |MomentumMonths|);
    var total := MomentumWeightTotal(prices, |MomentumMonths|);
    if total > 0.0 {
      DivisionBetween(MomentumScore(prices, |MomentumMonths|), total, lo, hi);
    }
  }

  /** The forEach loops of `calculateMomentum`, proved to compute `Momentum`. */
  method CalculateMomentum(prices: seq<real>) returns (m: real)
    requires MomentumDefined(prices)
    ensures m == Momentum(prices)
  {
    var score, total := 0.0, 0.0;
    var k := 0;
    while k < |MomentumMonths|
      invariant 0 <= k <= |MomentumMonths|
      invariant score == MomentumScore(prices, k) && total == MomentumWeightTotal(prices, k)
    {
      if Covers(prices, k) {
        score := score + PeriodReturn(prices, k) * MomentumWeights[k];
        total := total + MomentumWeights[k];
      }
      k := k + 1;
    }
    m := if total > 0.0 then score / total else 0.0;
  }

  // ---------------------------------------------------------------------
  // Technical indicators
  // ---------------------------------------------------------------------

  /** An indicator value: `null` (too little data), NaN, or a number. */
  datatype Reading = Missing | NotANumber | Value(v: real)

  /** `calculateSMA`: the mean of the last `period` values, or `null` with fewer values. */
  function SMA(data: seq<real>, period: nat): (r: Reading)
    requires period > 0
    ensures r.Missing? <==> |data| < period
    ensures r.Value? <==> period <= |data|
  {
    if |data| < period then Missing else Value(Sum(data[|data| - period..]) / period as real)
  }

  /** The moving average lies between any bounds of the values in its window. */
  lemma SMAWithinWindow(data: seq<real>, period: nat, lo: real, hi: real)
    requires 0 < period <= |data|
    requires forall i :: |data| - period <= i < |data| ==> lo <= data[i] <= hi
    ensures lo <= SMA(data, period).v <= hi
  {
    var window := data[|data| - period..];
    assert forall i :: 0 <= i < |window| ==> window[i] == data[|data| - period + i];
    MeanBetween(window, lo, hi);
  }

  /** The i-th most recent price change, data[len − i] − data[len − i − 1]. */
  function Change(data: seq<real>, i: nat): real
    requires 1 <= i && i + 1 <= |data|
  {
    data[|data| - i] - data[|data| - i - 1]
  }

  /** Σ of the non-negative changes among the k most recent. */
  function Gains(data: seq<real>, k: nat): real
    requires k + 1 <= |data|
  {
    if k == 0 then 0.0 else Gains(data, k - 1) + (if Change(data, k) >= 0.0 then Change(data, k) else 0.0)
  }

  /** Σ of the magnitudes of the negative changes among the k most recent. */
  function Losses(data: seq<real>, k: nat): real
    requires k + 1 <= |data|
  {
    if k == 0 then 0.0 else Losses(data, k - 1) + (if Change(data, k) >= 0.0 then 0.0 else -Change(data, k))
  }

  lemma {:induction false} GainsLossesNonNegative(data: seq<real>, k: nat)
    requires k + 1 <= |data|
    ensures 0.0 <= Gains(data, k) && 0.0 <= Losses(data, k)
  {
    if k > 0 {
      GainsLossesNonNegative(data, k - 1);
    }
  }

  /**
   * `calculateRSI`: 100 − 100 / (1 + gains/losses) over the last `period`
   * changes. With no losses, gains/losses is Infinity (RSI 100) or, with no
   * gains either, NaN.
   */
  function RSI(data: seq<real>, period: nat): (r: Reading)
    ensures r.Missing? <==> |data| < period + 1
  {
    if |data| < period + 1 then Missing
    else
      var g, l := Gains(data, period), Losses(data, period);
      GainsLossesNonNegative(data, period);
      if l == 0.0 then (if g == 0.0 then NotANumber else Value(100.0))
      else
        assert 0.0 <= g / l;
        Value(100.0 - 100.0 / (1.0 + g / l))
  }

  /** A numeric RSI is the gains' share of all movement, 100·g/(g + l), so it lies in [0, 100]. */
  lemma RSIIsGainShare(data: seq<real>, period: nat)
    requires RSI(data, period).Value?
    ensures period + 1 <= |data|
    ensures 0.0 < Gains(data, period) + Losses(data, period)
    ensures RSI(data, period).v ==
      100.0 * Gains(data, period) / (Gains(data, period) + Losses(data, period))
    ensures 0.0 <= RSI(data, period).v <= 100.0
  {
    var g, l := Gains(data, period), Losses(data, period);
    GainsLossesNonNegative(data, period);
    if l != 0.0 {
      GainShare(g, l);
    } else {
      assert (100.0 * g / g) * g == 100.0 * g;
    }
  }

  lemma GainShare(g: real, l: real)
    requires 0.0 <= g && 0.0 < l
    ensures 0.0 < 1.0 + g / l
    ensures 100.0 - 100.0 / (1.0 + g / l) == 100.0 * g / (g + l)
    ensures 0.0 <= 100.0 * g / (g + l) <= 100.0
  {
    var rs := g / l;
    var d := 1.0 + rs;
    assert rs * l == g;
    assert d * l == g + l;
    var q := 100.0 / d;
    assert q * d == 100.0;
    assert q * (g + l) == 100.0 * l;
    var t := 100.0 * g / (g + l);
    assert t * (g + l) == 100.0 * g;
    assert (100.0 - q) * (g + l) == 100.0 * g;
    CancelFactor(100.0 - q, t, g + l);
    DivisionBetween(100.0 * g, g + l, 0.0, 100.0);
  }

  lemma CancelFactor(a: real, b: real, y: real)
    requires y != 0.0 && a * y == b * y
    ensures a == b
  {
    assert (a - b) * y == 0.0;
  }

  /** With every recent change rising, the RSI is 100 (or NaN when nothing moved). */
  lemma {:induction false} NoLosses(data: seq<real>, k: nat)
    requires k + 1 <= |data|
    requires forall i :: 1 <= i <= k ==> Change(data, i) >= 0.0
    ensures Losses(data, k) == 0.0
  {
    if k > 0 {
      NoLosses(data, k - 1);
    }
  }

  /** With every recent change falling, there are no gains and positive losses, so the RSI is 0. */
  lemma {:induction false} OnlyLosses(data: seq<real>, k: nat)
    requires k + 1 <= |data|
    requires forall i :: 1 <= i <= k ==> Change(data, i) < 0.0
    ensures Gains(data, k) == 0.0 && (k > 0 ==> 0.0 < Losses(data, k))
  {
    if k > 0 {
      OnlyLosses(data, k - 1);
      GainsLossesNonNegative(data, k - 1);
    }
  }

  lemma RSIExtremes(data: seq<real>, period: nat)
    requires period + 1 <= |data|
    ensures (forall i :: 1 <= i <= period ==> Change(data, i) >= 0.0) && Gains(data, period) != 0.0 ==>
      RSI(data, period) == Value(100.0)
    ensures (forall i :: 1 <= i <= period ==> Change(data, i) < 0.0) && period > 0 ==>
      RSI(data, period) == Value(0.0)
  {
    if forall i :: 1 <= i <= period ==> Change(data, i) >= 0.0 {
      NoLosses(data, period);
    }
    if forall i :: 1 <= i <= period ==> Change(data, i) < 0.0 {
      OnlyLosses(data, period);
    }
  }

  /** The gains/losses loop, proved to compute `RSI`. */
  method CalculateRSI(data: seq<real>, period: nat) returns (r: Reading)
    ensures r == RSI(data, period)
  {
    if |data| < period + 1 {
      return Missing;
    }
    var gains, losses := 0.0, 0.0;
    var i := 1;
    while i <= period
      invariant 1 <= i <= period + 1
      invariant gains == Gains(data, i - 1) && losses == Losses(data, i - 1)
    {
      var change := data[|data| - i] - data[|data| - i - 1];
      if change >= 0.0 {
        gains := gains + change;
      } else {
        losses := losses - change;
      }
      i := i + 1;
    }
    if losses == 0.0 {
      r := if gains == 0.0 then NotANumber else Value(100.0);
    } else {
      r := Value(100.0 - 100.0 / (1.0 + gains / losses));
    }
  }

  /** The trading signals: 'AL' (buy), 'SAT' (sell) and 'BEKLE' (hold). */
  datatype Signal = Buy | Sell | Hold

  /** JavaScript truthiness of an indicator: a number other than 0 (null and NaN are falsy). */
  predicate Truthy(r: Reading) {
    r.Value? && r.v != 0.0
  }

  /** `generateTrendSignal`. */
  function TrendSignal(sma50: Reading, sma200: Reading, rsi: Reading): (s: Signal)
    ensures s == Buy <==> Truthy(sma50) && Truthy(sma200) && Truthy(rsi) && sma50.v > sma200.v && rsi.v < 70.0
    ensures s == Sell <==> Truthy(sma50) && Truthy(sma200) && Truthy(rsi) && sma50.v < sma200.v && rsi.v > 30.0
  {
    if !Truthy(sma50) || !Truthy(sma200) || !Truthy(rsi) then Hold
    else if sma50.v > sma200.v && rsi.v < 70.0 then Buy
    else if sma50.v < sma200.v && rsi.v > 30.0 then Sell
    else Hold
  }

  function Mirror(s: Signal): Signal {
    match s
    case Buy => Sell
    case Sell => Buy
    case Hold => Hold
  }

  /**
   * The signal is symmetric: swapping the two averages and reflecting the RSI
   * (r to 100 − r) swaps buy and sell, as long as neither RSI is 0.
   */
  lemma TrendSignalMirror(sma50: Reading, sma200: Reading, r: real)
    requires r != 0.0 && r != 100.0
    ensures TrendSignal(sma200, sma50, Value(100.0 - r)) == Mirror(TrendSignal(sma50, sma200, Value(r)))
  {
  }
}
