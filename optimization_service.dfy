/**
 * The numeric helpers of the `OptimizationService` class in
 * services/OptimizationService.js: returns over positive prices, the
 * unclamped correlation, the symbol cleansing and table choice of
 * `getAssetPrices` with its fallback series, the top-5 ranking of
 * `findLowCorrelationAssets`, and the total value of `getOptimizationData`.
 */
module OptimizationService {
  import opened Numerics
  import AssetMetrics

  // Returns over positive prices

  /** The returns of `calculateReturns`: a pair counts only when both prices are positive. */
  function PositiveReturns(p: seq<real>): (r: seq<real>)
    ensures |r| <= if |p| == 0 then 0 else |p| - 1
  {
    if |p| < 2 then []
    else
      var a, b := p[|p| - 2], p[|p| - 1];
      PositiveReturns(p[..|p| - 1]) + (if b > 0.0 && a > 0.0 then [(b - a) / a] else [])
  }

  /** The loop of `calculateReturns`, proved to compute `PositiveReturns`. */
  method CalculateReturns(prices: seq<real>) returns (returns_: seq<real>)
    ensures returns_ == PositiveReturns(prices)
  {
    returns_ := [];
    if |prices| < 2 {
      return;
    }
    for i := 1 to |prices|
      invariant returns_ == PositiveReturns(prices[..i])
    {
      assert prices[..i + 1][..i] == prices[..i];
      if prices[i] > 0.0 && prices[i - 1] > 0.0 {
        returns_ := returns_ + [(prices[i] - prices[i - 1]) / prices[i - 1]];
      }
    }
    assert prices[..|prices|] == prices;
  }

  /** A return from a positive price to a positive price is above −1. */
  lemma {:induction false} PositiveReturnsAboveMinusOne(p: seq<real>)
    ensures forall i :: 0 <= i < |PositiveReturns(p)| ==> -1.0 < PositiveReturns(p)[i]
  {
    if |p| >= 2 {
      var a, b := p[|p| - 2], p[|p| - 1];
      PositiveReturnsAboveMinusOne(p[..|p| - 1]);
      if b > 0.0 && a > 0.0 {
        RatioAboveMinusOne(a, b);
      }
    }
  }

  lemma RatioAboveMinusOne(a: real, b: real)
    requires 0.0 < a && 0.0 < b
    ensures -1.0 < (b - a) / a
  {
    var q := (b - a) / a;
    assert q * a == b - a;
  }

  /** Over positive prices no pair is skipped: these are the simple returns. */
  lemma {:induction false} PositiveReturnsOfPositivePrices(p: seq<real>)
    requires forall i :: 0 <= i < |p| ==> 0.0 < p[i]
    ensures NonZeroBases(p) && PositiveReturns(p) == SimpleReturns(p)
  {
    if |p| >= 2 {
      PositiveReturnsOfPositivePrices(p[..|p| - 1]);
    }
  }

  // Unclamped correlation

  /**
   * `calculateCorrelation`: 0 when the shorter series has fewer than 2 points,
   * otherwise num / √(den1·den2) over the first n = min(len1, len2) pairs with
   * each mean dividing the whole series' sum by n. A zero deviation sum divides
   * 0 by 0 (NaN, None).
   */
  function Correlation(r1: seq<real>, r2: seq<real>, sqrt: real -> real): (c: Option<real>)
    requires IsSqrt(sqrt)
    ensures |r1| < 2 || |r2| < 2 ==> c == Some(0.0)
  {
    if |r1| < 2 || |r2| < 2 then Some(0.0)
    else
      var sums := AssetMetrics.PearsonSums(r1, r2);
      if sums.1 == 0.0 || sums.2 == 0.0 then None
      else Some(AssetMetrics.PearsonQuotient(sums.0, sums.1, sums.2, sqrt))
  }

  /**
   * Wherever it is defined, the unclamped correlation equals the asset route's
   * guarded and clamped one, so it lies in [−1, 1]; it is undefined exactly
   * where the asset route answers 0 for a zero deviation sum.
   */
  lemma CorrelationAgrees(r1: seq<real>, r2: seq<real>, sqrt: real -> real)
    requires IsSqrt(sqrt)
    ensures Correlation(r1, r2, sqrt).Some? ==> Correlation(r1, r2, sqrt).value == AssetMetrics.Correlation(r1, r2, sqrt)
    ensures Correlation(r1, r2, sqrt).Some? ==> -1.0 <= Correlation(r1, r2, sqrt).value <= 1.0
    ensures Correlation(r1, r2, sqrt).None? <==>
      2 <= |r1| && 2 <= |r2| && (AssetMetrics.PearsonSums(r1, r2).1 == 0.0 || AssetMetrics.PearsonSums(r1, r2).2 == 0.0)
  {
    if 2 <= |r1| && 2 <= |r2| {
      var sums := AssetMetrics.PearsonSums(r1, r2);
      if sums.1 != 0.0 && sums.2 != 0.0 {
        AssetMetrics.CorrelationUnclamped(r1, r2, sqrt);
      }
    }
  }

  /** The correlation loop, proved to compute `Correlation`. */
  method CalculateCorrelation(r1: seq<real>, r2: seq<real>, sqrt: real -> real) returns (c: Option<real>)
    requires IsSqrt(sqrt)
    ensures c == Correlation(r1, r2, sqrt)
  {
    var n := Min(|r1|, |r2|);
    if n < 2 {
      return Some(0.0);
    }
    var mean1, mean2 := Sum(r1) / n as real, Sum(r2) / n as real;
    var num, den1, den2 := CentredSums(r1, r2, mean1, mean2, n);
    assert AssetMetrics.PearsonSums(r1, r2) == (num, den1, den2);
    if den1 == 0.0 || den2 == 0.0 {
      return None;
    }
    c := Some(AssetMetrics.PearsonQuotient(num, den1, den2, sqrt));
  }

  // Symbol cleansing, table choice and fallback prices

  /** A character that `/[^A-Z0-9]/g` leaves in place. */
  predicate Allowed(ch: char) {
    'A' <= ch <= 'Z' || '0' <= ch <= '9'
  }

  /** `symbol.replace(/[^A-Z0-9]/g, '')`. */
  function CleanSymbol(s: string): (r: string)
    ensures |r| <= |s|
  {
    if s == [] then []
    else (if Allowed(s[0]) then [s[0]] else []) + CleanSymbol(s[1..])
  }

  /** Only the characters A–Z and 0–9 remain. */
  lemma {:induction false} CleanSymbolAllowed(s: string)
    ensures forall i :: 0 <= i < |CleanSymbol(s)| ==> Allowed(CleanSymbol(s)[i])
  {
    if s != [] {
      CleanSymbolAllowed(s[1..]);
    }
  }

  /** Cleansing keeps every allowed character in order: it distributes over concatenation. */
  lemma {:induction false} CleanSymbolAppend(a: string, b: string)
    ensures CleanSymbol(a + b) == CleanSymbol(a) + CleanSymbol(b)
  {
    if a == [] {
      assert a + b == b;
    } else {
      var c, t := a[0], a[1..];
      assert a == [c] + t && a + b == [c] + (t + b);
      CleanSymbolAppend(t, b);
      CleanSymbolCons(c, t + b);
      CleanSymbolCons(c, t);
    }
  }

  lemma CleanSymbolCons(c: char, s: string)
    ensures CleanSymbol([c] + s) == (if Allowed(c) then [c] else []) + CleanSymbol(s)
  {
    assert ([c] + s)[0] == c && ([c] + s)[1..] == s;
  }

  /** A symbol is left unchanged exactly when all its characters are allowed. */
  lemma {:induction false} CleanSymbolUnchanged(s: string)
    ensures CleanSymbol(s) == s <==> forall i :: 0 <= i < |s| ==> Allowed(s[i])
  {
    if s != [] {
      CleanSymbolUnchanged(s[1..]);
      if !Allowed(s[0]) {
        assert |CleanSymbol(s)| < |s|;
      }
    }
  }

  /** Cleansing twice is cleansing once. */
  lemma CleanSymbolIdempotent(s: string)
    ensures CleanSymbol(CleanSymbol(s)) == CleanSymbol(s)
  {
    CleanSymbolAllowed(s);
    CleanSymbolUnchanged(CleanSymbol(s));
  }

  const StockTable := "sp500veri"
  const CommodityTable := "commodity_futures"

  /** The price table of an asset type. */
  function TableFor(assetType: string): (t: string)
    ensures t == StockTable <==> assetType == "STOCK"
    ensures t == CommodityTable <==> assetType != "STOCK"
  {
    if assetType == "STOCK" then StockTable else CommodityTable
  }

  /** `Array(30).fill(price)`. */
  function Flat(price: real): (s: seq<real>)
    ensures |s| == 30 && forall i :: 0 <= i < 30 ==> s[i] == price
  {
    seq(30, i => price)
  }

  /**
   * The series `getAssetPrices` answers when the symbol has no column: 30 copies
   * of the company's current price when it has one, else 30 copies of 100.
   */
  function FallbackPrices(currentPrice: Option<real>): seq<real> {
    if currentPrice.Some? && currentPrice.value != 0.0 then Flat(currentPrice.value) else Flat(100.0)
  }

  /** A flat positive series has 29 zero returns. */
  lemma {:induction false} FlatReturns(price: real, k: nat)
    requires 0.0 < price && 2 <= k <= 30
    ensures PositiveReturns(Flat(price)[..k]) == seq(k - 1, i => 0.0)
  {
    var p := Flat(price)[..k];
    assert p[..k - 1] == Flat(price)[..k - 1];
    if k > 2 {
      FlatReturns(price, k - 1);
    } else {
      assert p[..1] == [price];
    }
    assert (price - price) / price == 0.0;
  }

  /** Every fallback series with a positive price yields 29 zero returns, so it is uncorrelated (0) or undefined against any series. */
  lemma FallbackReturns(currentPrice: Option<real>)
    requires currentPrice.Some? ==> 0.0 <= currentPrice.value
    ensures PositiveReturns(FallbackPrices(currentPrice)) == seq(29, i => 0.0)
  {
    var price := if currentPrice.Some? && currentPrice.value != 0.0 then currentPrice.value else 100.0;
    FlatReturns(price, 30);
    assert Flat(price)[..30] == Flat(price);
  }

  // Ranking by average correlation

  /** One row of `correlations`. */
  datatype Ranked = Ranked(symbol: string, name: string, sector: string, currentPrice: real, avgCorrelation: real)

  predicate SortedByCorrelation(s: seq<Ranked>) {
    forall i, j :: 0 <= i < j < |s| ==> s[i].avgCorrelation <= s[j].avgCorrelation
  }

  /** Insert x after every entry whose correlation is not above x's. */
  function InsertByCorrelation(x: Ranked, s: seq<Ranked>): (r: seq<Ranked>)
    requires SortedByCorrelation(s)
    ensures SortedByCorrelation(r) && multiset(r) == multiset(s) + multiset{x}
  {
    if s == [] then [x]
    else if x.avgCorrelation < s[0].avgCorrelation then [x] + s
    else
      var t := InsertByCorrelation(x, s[1..]);
      RestAbove(s, x, t);
      assert s == [s[0]] + s[1..];
      [s[0]] + t
  }

  lemma RestAbove(s: seq<Ranked>, x: Ranked, t: seq<Ranked>)
    requires SortedByCorrelation(s) && |s| > 0 && s[0].avgCorrelation <= x.avgCorrelation
    requires multiset(t) == multiset(s[1..]) + multiset{x}
    ensures forall j :: 0 <= j < |t| ==> s[0].avgCorrelation <= t[j].avgCorrelation
  {
    forall j | 0 <= j < |t|
      ensures s[0].avgCorrelation <= t[j].avgCorrelation
    {
      assert t[j] in multiset(t);
      if t[j] != x {
        assert t[j] in multiset(s[1..]);
        assert t[j] in s[1..];
      }
    }
  }

  /** `correlations.sort((a, b) => a.avgCorrelation - b.avgCorrelation)`: ascending, ties in input order. */
  function SortByCorrelation(cs: seq<Ranked>): (r: seq<Ranked>)
    ensures SortedByCorrelation(r) && multiset(r) == multiset(cs)
  {
    if cs == [] then []
    else
      var init := cs[..|cs| - 1];
      assert cs == init + [cs[|cs| - 1]];
      InsertByCorrelation(cs[|cs| - 1], SortByCorrelation(init))
  }

  /** `.slice(0, 5)` of the sorted rows. */
  function LowestFive(cs: seq<Ranked>): (r: seq<Ranked>)
    ensures |r| == Min(5, |cs|)
  {
    var sorted := SortByCorrelation(cs);
    assert |sorted| == |multiset(sorted)| == |multiset(cs)| == |cs|;
    sorted[..Min(5, |sorted|)]
  }

  /**
   * At most five rows, in ascending order of average correlation, each drawn
   * from the input, and none above a row that was left out.
   */
  lemma LowestFiveSpec(cs: seq<Ranked>)
    ensures |LowestFive(cs)| == Min(5, |cs|)
    ensures SortedByCorrelation(LowestFive(cs))
    ensures forall x :: x in LowestFive(cs) ==> x in cs
    ensures forall x, y :: x in LowestFive(cs) && y in multiset(cs) - multiset(LowestFive(cs)) ==> x.avgCorrelation <= y.avgCorrelation
  {
    var sorted := SortByCorrelation(cs);
    var k := Min(5, |sorted|);
    assert |sorted| == |multiset(sorted)| == |multiset(cs)| == |cs|;
    PrefixDrawn(sorted, cs, k);
    SplitMultiset(sorted, k);
    PrefixBelowSuffix(sorted, k);
  }

  lemma PrefixDrawn(s: seq<Ranked>, t: seq<Ranked>, k: nat)
    requires multiset(s) == multiset(t) && k <= |s|
    ensures forall x :: x in s[..k] ==> x in t
  {
    forall x | x in s[..k]
      ensures x in t
    {
      assert x in s;
      assert x in multiset(s);
    }
  }

  lemma SplitMultiset(s: seq<Ranked>, k: nat)
    requires k <= |s|
    ensures multiset(s) - multiset(s[..k]) == multiset(s[k..])
  {
    assert s == s[..k] + s[k..];
  }

  lemma PrefixBelowSuffix(s: seq<Ranked>, k: nat)
    requires SortedByCorrelation(s) && k <= |s|
    ensures forall x, y :: x in s[..k] && y in multiset(s[k..]) ==> x.avgCorrelation <= y.avgCorrelation
  {
    forall x, y | x in s[..k] && y in multiset(s[k..])
      ensures x.avgCorrelation <= y.avgCorrelation
    {
      var i :| 0 <= i < k && s[..k][i] == x;
      assert y in s[k..];
      var j :| 0 <= j < |s| - k && s[k..][j] == y;
      assert s[i] == x && s[k + j] == y;
    }
  }

  /** `correlationSum / portfolioReturns.length`; no value when there is no holding or a correlation is NaN. */
  function AverageCorrelation(returns_: seq<real>, portfolio: seq<seq<real>>, sqrt: real -> real): (a: Option<real>)
    requires IsSqrt(sqrt)
    ensures a.None? <==> portfolio == [] || exists i :: 0 <= i < |portfolio| && Correlation(returns_, portfolio[i], sqrt).None?
  {
    var cs := Correlations(returns_, portfolio, sqrt);
    if portfolio == [] || cs.None? then None else Some(Sum(cs.value) / |portfolio| as real)
  }

  /** The correlations against every holding's returns, or None when one is NaN. */
  function Correlations(returns_: seq<real>, portfolio: seq<seq<real>>, sqrt: real -> real): (cs: Option<seq<real>>)
    requires IsSqrt(sqrt)
    ensures cs.Some? ==> |cs.value| == |portfolio|
    ensures cs.Some? ==> forall i :: 0 <= i < |portfolio| ==> Correlation(returns_, portfolio[i], sqrt) == Some(cs.value[i])
    ensures cs.None? <==> exists i :: 0 <= i < |portfolio| && Correlation(returns_, portfolio[i], sqrt).None?
  {
    if portfolio == [] then Some([])
    else
      var init := Correlations(returns_, portfolio[..|portfolio| - 1], sqrt);
      var last := Correlation(returns_, portfolio[|portfolio| - 1], sqrt);
      if init.None? || last.None? then None else Some(init.value + [last.value])
  }

  /** The average correlation lies in [−1, 1]. */
  lemma AverageCorrelationBounded(returns_: seq<real>, portfolio: seq<seq<real>>, sqrt: real -> real)
    requires IsSqrt(sqrt) && AverageCorrelation(returns_, portfolio, sqrt).Some?
    ensures -1.0 <= AverageCorrelation(returns_, portfolio, sqrt).value <= 1.0
  {
    var cs := Correlations(returns_, portfolio, sqrt).value;
    forall i | 0 <= i < |cs|
      ensures -1.0 <= cs[i] <= 1.0
    {
      CorrelationAgrees(returns_, portfolio[i], sqrt);
    }
    MeanBetween(cs, -1.0, 1.0);
  }

  // Total value

  /** One holding of `getOptimizationData`; the company price is None when the join found none. */
  datatype Holding = Holding(quantity: real, currentPrice: Option<real>, purchasePrice: real)

  /** `asset.current_price || asset.purchase_price`. */
  function PriceOf(h: Holding): real {
    if h.currentPrice.Some? && h.currentPrice.value != 0.0 then h.currentPrice.value else h.purchasePrice
  }

  /** Every holding has a non-negative quantity and price. */
  predicate NonNegativeHoldings(hs: seq<Holding>) {
    forall i :: 0 <= i < |hs| ==> 0.0 <= hs[i].quantity && 0.0 <= PriceOf(hs[i])
  }

  /** `reduce((sum, asset) => sum + asset.currentValue, 0)` with currentValue = quantity × price. */
  function TotalValue(hs: seq<Holding>): (v: real)
    ensures NonNegativeHoldings(hs) ==> 0.0 <= v
  {
    if hs == [] then 0.0 else TotalValue(hs[..|hs| - 1]) + CurrentValue(hs[|hs| - 1])
  }

  /** `currentValue`: quantity × price. */
  function CurrentValue(h: Holding): (v: real)
    ensures 0.0 <= h.quantity && 0.0 <= PriceOf(h) ==> 0.0 <= v
  {
    h.quantity * PriceOf(h)
  }

  /** The total of two lists of holdings is the sum of their totals. */
  lemma {:induction false} TotalValueAppend(a: seq<Holding>, b: seq<Holding>)
    ensures TotalValue(a + b) == TotalValue(a) + TotalValue(b)
  {
    if b == [] {
      assert a + b == a;
    } else {
      TotalValueAppend(a, b[..|b| - 1]);
      assert (a + b)[..|a + b| - 1] == a + b[..|b| - 1];
    }
  }
}
