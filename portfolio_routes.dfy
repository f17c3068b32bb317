/**
 * The analysis handler of routes/portfolios.js and the helpers it calls: the
 * rows of `GET /:id/analysis` folded into one record per asset symbol, the
 * total value, and the unguarded volatility, Sharpe ratio and correlation.
 *
 * The handler's `assetData` object is keyed by symbol. The model assumes no
 * symbol is integer-like (such keys would be listed first, in ascending
 * order), so `Object.values` lists them in insertion order: the model keeps
 * the map together with the keys in the order they were added.
 */
module PortfolioRoutes {
  import opened Numerics
  import AssetMetrics

  // Grouping the analysis rows by symbol

  /** One point of an asset's price history. */
  datatype PricePoint = PricePoint(date: string, price: real)

  /** One row of the join between an asset of the portfolio and its price history; the price is None when the join found none. */
  datatype AnalysisRow = AnalysisRow(symbol: string, assetType: string, weight: real, quantity: real,
                                     purchasePrice: real, purchaseDate: string, priceHistory: Option<real>, date: string)

  /** The grouped record of one symbol. */
  datatype AssetData = AssetData(symbol: string, assetType: string, weight: real, quantity: real,
                                 purchasePrice: real, purchaseDate: string, priceHistory: seq<PricePoint>)

  /** The `assetData` object: its entries and its keys in insertion order. */
  datatype Grouping = Grouping(order: seq<string>, data: map<string, AssetData>)

  /** `if (asset.price_history)`: a price that is present and not 0. */
  predicate HasPrice(row: AnalysisRow) {
    row.priceHistory.Some? && row.priceHistory.value != 0.0
  }

  function NewAssetData(row: AnalysisRow): AssetData {
    AssetData(row.symbol, row.assetType, row.weight, row.quantity, row.purchasePrice, row.purchaseDate, [])
  }

  function WithPoint(a: AssetData, row: AnalysisRow): AssetData {
    if HasPrice(row) then a.(priceHistory := a.priceHistory + [PricePoint(row.date, row.priceHistory.value)]) else a
  }

  /** One call of the `forEach` body. */
  function GroupAssetRow(g: Grouping, row: AnalysisRow): Grouping {
    var s := row.symbol;
    var created := if s in g.data then g else Grouping(g.order + [s], g.data[s := NewAssetData(row)]);
    created.(data := created.data[s := WithPoint(created.data[s], row)])
  }

  function GroupedAssets(rows: seq<AnalysisRow>): Grouping {
    if rows == [] then Grouping([], map[]) else GroupAssetRow(GroupedAssets(rows[..|rows| - 1]), rows[|rows| - 1])
  }

  /** `Object.values(assetData)`. */
  function AssetValues(g: Grouping): seq<AssetData>
    requires forall s :: s in g.order ==> s in g.data
  {
    seq(|g.order|, i requires 0 <= i < |g.order| => g.data[g.order[i]])
  }

  /** The `forEach` of the handler, proved to compute the grouping above. */
  method GroupAnalysisRows(rows: seq<AnalysisRow>) returns (g: Grouping)
    ensures g == GroupedAssets(rows)
  {
    var order: seq<string> := [];
    var data: map<string, AssetData> := map[];
    for i := 0 to |rows|
      invariant Grouping(order, data) == GroupedAssets(rows[..i])
    {
      var row := rows[i];
      if row.symbol !in data {
        order := order + [row.symbol];
        data := data[row.symbol := NewAssetData(row)];
      }
      if row.priceHistory.Some? && row.priceHistory.value != 0.0 {
        var a := data[row.symbol];
        data := data[row.symbol := a.(priceHistory := a.priceHistory + [PricePoint(row.date, row.priceHistory.value)])];
      }
      assert rows[..i + 1][..i] == rows[..i];
    }
    assert rows[..|rows|] == rows;
    g := Grouping(order, data);
  }

  // The reference description of the grouping

  /** Some row has symbol s. */
  predicate Mentions(rows: seq<AnalysisRow>, s: string) {
    rows != [] && (rows[|rows| - 1].symbol == s || Mentions(rows[..|rows| - 1], s))
  }

  /** The symbols in the order of their first row. */
  function FirstAppearances(rows: seq<AnalysisRow>): seq<string> {
    if rows == [] then []
    else
      var init := rows[..|rows| - 1];
      FirstAppearances(init) + (if Mentions(init, rows[|rows| - 1].symbol) then [] else [rows[|rows| - 1].symbol])
  }

  function FirstRow(rows: seq<AnalysisRow>, s: string): (r: AnalysisRow)
    requires Mentions(rows, s)
    ensures r.symbol == s
  {
    var init := rows[..|rows| - 1];
    if Mentions(init, s) then FirstRow(init, s) else rows[|rows| - 1]
  }

  /** The price points of the rows of s that have a price, in row order. */
  function PointsOf(rows: seq<AnalysisRow>, s: string): seq<PricePoint> {
    if rows == [] then []
    else
      var last := rows[|rows| - 1];
      PointsOf(rows[..|rows| - 1], s) + (if last.symbol == s && HasPrice(last) then [PricePoint(last.date, last.priceHistory.value)] else [])
  }

  /** The record of symbol s: its first row's columns and the price points of all its rows. */
  function AssetSummary(rows: seq<AnalysisRow>, s: string): AssetData
    requires Mentions(rows, s)
  {
    var f := FirstRow(rows, s);
    AssetData(s, f.assetType, f.weight, f.quantity, f.purchasePrice, f.purchaseDate, PointsOf(rows, s))
  }

  lemma {:induction false} PointsOfUnmentioned(rows: seq<AnalysisRow>, s: string)
    requires !Mentions(rows, s)
    ensures PointsOf(rows, s) == []
  {
    if rows != [] {
      PointsOfUnmentioned(rows[..|rows| - 1], s);
    }
  }

  lemma {:induction false} FirstAppearancesHas(rows: seq<AnalysisRow>, s: string)
    ensures s in FirstAppearances(rows) <==> Mentions(rows, s)
  {
    if rows != [] {
      FirstAppearancesHas(rows[..|rows| - 1], s);
    }
  }

  /** Each symbol appears once among the first appearances. */
  lemma {:induction false} FirstAppearancesDistinct(rows: seq<AnalysisRow>)
    ensures forall i, j :: 0 <= i < j < |FirstAppearances(rows)| ==> FirstAppearances(rows)[i] != FirstAppearances(rows)[j]
  {
    if rows != [] {
      var init := rows[..|rows| - 1];
      FirstAppearancesDistinct(init);
      FirstAppearancesHas(init, rows[|rows| - 1].symbol);
    }
  }

  /**
   * The keys are the symbols in the order of their first row, and each key's
   * record is its first row's columns with the price points of its rows.
   */
  lemma {:induction false} GroupedAssetsSummary(rows: seq<AnalysisRow>, s: string)
    ensures GroupedAssets(rows).order == FirstAppearances(rows)
    ensures s in GroupedAssets(rows).data <==> Mentions(rows, s)
    ensures s in GroupedAssets(rows).data ==> GroupedAssets(rows).data[s] == AssetSummary(rows, s)
  {
    if rows != [] {
      var init, row := rows[..|rows| - 1], rows[|rows| - 1];
      GroupedAssetsSummary(init, s);
      GroupedAssetsSummary(init, row.symbol);
      if row.symbol == s && !Mentions(init, s) {
        PointsOfUnmentioned(init, s);
      }
    }
  }

  /**
   * `Object.values(assetData)` is one record per symbol, in the order of the
   * symbols' first rows, each being that symbol's summary.
   */
  lemma AssetValuesSpec(rows: seq<AnalysisRow>)
    ensures forall s :: s in GroupedAssets(rows).order ==> s in GroupedAssets(rows).data
    ensures var vs := AssetValues(GroupedAssets(rows));
      |vs| == |FirstAppearances(rows)| &&
      forall i :: 0 <= i < |vs| ==> Mentions(rows, FirstAppearances(rows)[i]) && vs[i] == AssetSummary(rows, FirstAppearances(rows)[i])
  {
    var g := GroupedAssets(rows);
    GroupedAssetsSummary(rows, "");
    forall s | s in g.order
      ensures s in g.data && Mentions(rows, s) && g.data[s] == AssetSummary(rows, s)
    {
      FirstAppearancesHas(rows, s);
      GroupedAssetsSummary(rows, s);
    }
  }

  // Total value

  /** `priceHistory[last]?.price || purchasePrice`. */
  function CurrentPrice(a: AssetData): real {
    if a.priceHistory != [] && a.priceHistory[|a.priceHistory| - 1].price != 0.0 then a.priceHistory[|a.priceHistory| - 1].price
    else a.purchasePrice
  }

  /** Every asset has a non-negative quantity and current price. */
  predicate NonNegativeAssets(assets: seq<AssetData>) {
    forall i :: 0 <= i < |assets| ==> 0.0 <= assets[i].quantity && 0.0 <= CurrentPrice(assets[i])
  }

  /** Σ current price × quantity. */
  function TotalValue(assets: seq<AssetData>): (v: real)
    ensures NonNegativeAssets(assets) ==> 0.0 <= v
  {
    if assets == [] then 0.0
    else TotalValue(assets[..|assets| - 1]) + AssetValue(assets[|assets| - 1])
  }

  /** One asset's current price × quantity. */
  function AssetValue(a: AssetData): (v: real)
    ensures 0.0 <= a.quantity && 0.0 <= CurrentPrice(a) ==> 0.0 <= v
  {
    CurrentPrice(a) * a.quantity
  }

  /** `calculateTotalValue`'s loop, proved to compute `TotalValue`. */
  method CalculateTotalValue(assets: seq<AssetData>) returns (total: real)
    ensures total == TotalValue(assets)
  {
    total := 0.0;
    for i := 0 to |assets|
      invariant total == TotalValue(assets[..i])
    {
      assert assets[..i + 1][..i] == assets[..i];
      total := total + AssetValue(assets[i]);
    }
    assert assets[..|assets|] == assets;
  }

  /** The total value of two lists of assets is the sum of their values. */
  lemma {:induction false} TotalValueAppend(a: seq<AssetData>, b: seq<AssetData>)
    ensures TotalValue(a + b) == TotalValue(a) + TotalValue(b)
  {
    if b == [] {
      assert a + b == a;
    } else {
      var init := b[..|b| - 1];
      TotalValueAppend(a, init);
      assert (a + b)[..|a + b| - 1] == a + init;
    }
  }

  /** An asset without a priced history is valued at its purchase price. */
  lemma CurrentPriceWithoutHistory(a: AssetData)
    requires a.priceHistory == []
    ensures TotalValue([a]) == a.purchasePrice * a.quantity
  {
    assert [a][..0] == [];
  }

  // Volatility and Sharpe ratio

  /**
   * `calculateVolatility`: the sample standard deviation with divisor n − 1.
   * No returns give no squared deviations and the root of 0 / -1, a zero; a
   * single return divides 0 by 0 (NaN, None).
   */
  function Volatility(series: seq<real>, sqrt: real -> real): (v: Option<real>)
    ensures v.None? <==> |series| == 1
  {
    if |series| == 0 then Some(sqrt(0.0))
    else if |series| == 1 then None
    else Some(sqrt(AssetMetrics.SampleVariance(series)))
  }

  /** An empty series has a volatility of zero. */
  lemma VolatilityOfEmpty(sqrt: real -> real)
    requires IsSqrt(sqrt)
    ensures Volatility([], sqrt) == Some(0.0)
  {
    SqrtZero(sqrt);
  }

  /** The volatility is non-negative and its square is the sample variance. */
  lemma VolatilitySquared(series: seq<real>, sqrt: real -> real)
    requires IsSqrt(sqrt) && 2 <= |series|
    ensures 0.0 <= Volatility(series, sqrt).value
    ensures Square(Volatility(series, sqrt).value) == AssetMetrics.SampleVariance(series)
  {
  }

  /**
   * Within one period's window, the asset route's annualised volatility is this
   * volatility scaled by √252.
   */
  lemma AnnualizedVolatilityScales(series: seq<real>, p: AssetMetrics.Period, sqrt: real -> real)
    requires 2 <= |series| <= AssetMetrics.Days(p)
    ensures AssetMetrics.AnnualizedVolatility(series, p, sqrt) == Volatility(series, sqrt).value * sqrt(252.0)
  {
    assert AssetMetrics.Window(series, AssetMetrics.Days(p)) == series;
  }

  const RiskFreeRate: real := 0.035

  /** `calculateSharpeRatio`: (return − 0.035) / volatility; a zero volatility has no quotient (None). */
  function SharpeRatio(ret: real, volatility: real): (s: Option<real>)
    ensures s.None? <==> volatility == 0.0
    ensures s.Some? ==> s.value * volatility == ret - RiskFreeRate
  {
    if volatility == 0.0 then None else Some((ret - RiskFreeRate) / volatility)
  }

  /** For a positive volatility a higher return gives a higher ratio. */
  lemma SharpeRatioMonotone(ret: real, ret': real, volatility: real)
    requires 0.0 < volatility && ret <= ret'
    ensures SharpeRatio(ret, volatility).value <= SharpeRatio(ret', volatility).value
  {
    var s, s' := SharpeRatio(ret, volatility).value, SharpeRatio(ret', volatility).value;
    if s' < s {
      ProductPositive(s - s', volatility);
    }
  }

  // Unguarded correlation

  /**
   * The loop's sums over the first |r1| pairs, each mean dividing a whole
   * series' sum by its own length.
   */
  function LoopSums(r1: seq<real>, r2: seq<real>): (sums: (real, real, real))
    requires 0 < |r1| <= |r2|
    ensures 0.0 <= sums.1 && 0.0 <= sums.2
  {
    var m1, m2 := Mean(r1), Mean(r2);
    CentredSquaresNonNegative(r1, m1, |r1|);
    CentredSquaresNonNegative(r2, m2, |r1|);
    (CentredCross(r1, r2, m1, m2, |r1|), CentredCross(r1, r1, m1, m1, |r1|), CentredCross(r2, r2, m2, m2, |r1|))
  }

  /**
   * `calculateCorrelation`: covariance / √(var1·var2). It is NaN (None) when
   * r1 is empty, when r2 is shorter than r1 (the loop reads past its end) and
   * when a variance sum is 0.
   */
  function Correlation(r1: seq<real>, r2: seq<real>, sqrt: real -> real): (c: Option<real>)
    requires IsSqrt(sqrt)
    ensures c.None? <==> |r1| == 0 || |r2| < |r1| || LoopSums(r1, r2).1 == 0.0 || LoopSums(r1, r2).2 == 0.0
  {
    if |r1| == 0 || |r2| < |r1| then None
    else
      var sums := LoopSums(r1, r2);
      if sums.1 == 0.0 || sums.2 == 0.0 then None
      else Some(AssetMetrics.PearsonQuotient(sums.0, sums.1, sums.2, sqrt))
  }

  /** Without a clamp, the quotient still lies in [−1, 1] by Cauchy–Schwarz. */
  lemma CorrelationBounded(r1: seq<real>, r2: seq<real>, sqrt: real -> real)
    requires IsSqrt(sqrt) && Correlation(r1, r2, sqrt).Some?
    ensures -1.0 <= Correlation(r1, r2, sqrt).value <= 1.0
  {
    CauchySchwarz(r1, r2, Mean(r1), Mean(r2), |r1|);
    var sums := LoopSums(r1, r2);
    QuotientOfSumsBounded(sums.0, sums.1, sums.2, sqrt);
  }

  lemma QuotientOfSumsBounded(num: real, d1: real, d2: real, sqrt: real -> real)
    requires IsSqrt(sqrt) && CauchyHolds(d1, d2, num) && d1 != 0.0 && d2 != 0.0
    ensures -1.0 <= AssetMetrics.PearsonQuotient(num, d1, d2, sqrt) <= 1.0
  {
    ProductPositive(d1, d2);
    SqrtPositive(sqrt, d1 * d2);
    CorrelationQuotientBounded(sqrt, num, d1, d2);
  }

  /** A non-empty series with some spread is perfectly correlated with itself. */
  lemma CorrelationWithItself(r: seq<real>, sqrt: real -> real)
    requires IsSqrt(sqrt) && 0 < |r| && LoopSums(r, r).1 != 0.0
    ensures Correlation(r, r, sqrt) == Some(1.0)
  {
    var sums := LoopSums(r, r);
    assert sums.0 == sums.1 && sums.2 == sums.1;
    SelfQuotient(sums.1, sqrt);
  }

  lemma SelfQuotient(d: real, sqrt: real -> real)
    requires IsSqrt(sqrt) && 0.0 < d
    ensures AssetMetrics.PearsonQuotient(d, d, d, sqrt) == 1.0
  {
    SqrtOfSquare(sqrt, d);
    assert sqrt(d * d) == d;
    assert d / d == 1.0;
  }

  /** For series of equal length the correlation does not depend on the order of its arguments. */
  lemma CorrelationSymmetric(r1: seq<real>, r2: seq<real>, sqrt: real -> real)
    requires IsSqrt(sqrt) && |r1| == |r2|
    ensures Correlation(r1, r2, sqrt) == Correlation(r2, r1, sqrt)
  {
    if 0 < |r1| {
      var m1, m2 := Mean(r1), Mean(r2);
      CentredCrossSymmetric(r1, r2, m1, m2, |r1|);
      var sums := LoopSums(r1, r2);
      AssetMetrics.ProductCommutes(sums.1, sums.2);
    }
  }

  /** The correlation loop, proved to compute `Correlation`. */
  method CalculateCorrelation(r1: seq<real>, r2: seq<real>, sqrt: real -> real) returns (c: Option<real>)
    requires IsSqrt(sqrt)
    ensures c == Correlation(r1, r2, sqrt)
  {
    if |r1| == 0 || |r2| < |r1| {
      return None;
    }
    var mean1, mean2 := Mean(r1), Mean(r2);
    var covariance, var1, var2 := CentredSums(r1, r2, mean1, mean2, |r1|);
    assert LoopSums(r1, r2) == (covariance, var1, var2);
    if var1 == 0.0 || var2 == 0.0 {
      return None;
    }
    c := Some(AssetMetrics.PearsonQuotient(covariance, var1, var2, sqrt));
  }

  /** An N×N matrix whose entries may be NaN. */
  type OptionMatrix = seq<seq<Option<real>>>

  /** `calculateCorrelationMatrix`: entry [i][j] is the correlation of series i with series j. */
  method CalculateCorrelationMatrix(series: seq<seq<real>>, sqrt: real -> real) returns (matrix: OptionMatrix)
    requires IsSqrt(sqrt)
    ensures |matrix| == |series|
    ensures forall i :: 0 <= i < |series| ==> |matrix[i]| == |series|
    ensures forall i, j :: 0 <= i < |series| && 0 <= j < |series| ==> matrix[i][j] == Correlation(series[i], series[j], sqrt)
  {
    var n := |series|;
    matrix := [];
    for i := 0 to n
      invariant |matrix| == i
      invariant forall k :: 0 <= k < i ==> |matrix[k]| == n
      invariant forall k, j :: 0 <= k < i && 0 <= j < n ==> matrix[k][j] == Correlation(series[k], series[j], sqrt)
    {
      var row := CorrelationRow(series, i, sqrt);
      matrix := matrix + [row];
    }
  }

  /** The inner loop: row i of the matrix. */
  method CorrelationRow(series: seq<seq<real>>, i: nat, sqrt: real -> real) returns (row: seq<Option<real>>)
    requires IsSqrt(sqrt) && i < |series|
    ensures |row| == |series|
    ensures forall j :: 0 <= j < |series| ==> row[j] == Correlation(series[i], series[j], sqrt)
  {
    row := [];
    for j := 0 to |series|
      invariant |row| == j
      invariant forall l :: 0 <= l < j ==> row[l] == Correlation(series[i], series[l], sqrt)
    {
      var c := CalculateCorrelation(series[i], series[j], sqrt);
      row := row + [c];
    }
  }

  /** With series of equal length the matrix is symmetric. */
  lemma CorrelationMatrixSymmetric(series: seq<seq<real>>, sqrt: real -> real, i: nat, j: nat)
    requires IsSqrt(sqrt) && i < |series| && j < |series|
    requires forall k :: 0 <= k < |series| ==> |series[k]| == |series[0]|
    ensures Correlation(series[i], series[j], sqrt) == Correlation(series[j], series[i], sqrt)
  {
    CorrelationSymmetric(series[i], series[j], sqrt);
  }
}
