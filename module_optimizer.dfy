/**
 * The `PortfolioOptimizer` class of js/modules/PortfolioOptimizer.js: input
 * validation, asset preparation, the covariance matrix and expected returns,
 * the max-sector concentration, a constrained random search for weights, the
 * 21-point efficient frontier and the weighted return and base-100
 * performance series. The random draws are inputs, and the `PortfolioCalculator`
 * collaborator, whose code is not part of this model, is a parameter.
 */
module ModuleOptimizer {
  import opened Numerics
  import opened Sectors

  const RiskFreeRate: real := 0.0475
  const TradingDays: nat := 252

  /**
   * The `window.PortfolioCalculator` collaborator: the operations used here,
   * specified only by their types.
   */
  datatype Calculator = Calculator(
    calculateReturns: seq<real> -> seq<real>,
    calculateCovariance: (seq<real>, seq<real>) -> real,
    calculatePortfolioReturn: (seq<real>, seq<real>) -> real,
    calculatePortfolioRisk: (seq<real>, Matrix) -> real)

  /**
   * An input asset. `prices` and `historicalPrices` are None when absent (an
   * array, even an empty one, is truthy); `weight` is None when absent or falsy.
   */
  datatype InputAsset = InputAsset(assetSymbol: string, symbol: string, weight: Option<real>,
                                   prices: Option<seq<real>>, historicalPrices: Option<seq<real>>, sector: string)

  /** A field of the input that should hold an array of assets. */
  datatype Field = Absent | NotAnArray | Rows(rows: seq<InputAsset>)

  /** `data.market`: absent, present without (truthy) prices, or with its price list. */
  datatype Market = NoMarket | MarketWithoutPrices | MarketPrices(prices: seq<real>)

  /** The portfolio data; `metrics` is None when absent, otherwise the field `metrics.portfolio_details`. */
  datatype InputData = InputData(portfolioDetails: Field, assets: Field, metrics: Option<Field>, market: Market)

  datatype DataError = MissingData | InvalidFormat

  /**
   * `validateData`: `portfolio_details || assets` must be an array; failing
   * both, `metrics.portfolio_details || []` is used; with neither the data is
   * refused. A non-array `metrics.portfolio_details` is refused too, as the
   * `map` in `processAssets` then throws.
   */
  function ValidateData(data: Option<InputData>): (r: Result<seq<InputAsset>, DataError>)
    ensures r == Err(MissingData) <==> data.None?
    ensures data.Some? && data.value.portfolioDetails.Rows? ==> r == Ok(data.value.portfolioDetails.rows)
    ensures data.Some? && data.value.portfolioDetails.Absent? && data.value.assets.Rows? ==> r == Ok(data.value.assets.rows)
    ensures data.Some? && data.value.portfolioDetails.Absent? && data.value.assets.Absent? && data.value.metrics.None? ==>
      r == Err(InvalidFormat)
  {
    if data.None? then Err(MissingData)
    else
      var d := data.value;
      if !d.portfolioDetails.Absent? || !d.assets.Absent? then
        var chosen := if !d.portfolioDetails.Absent? then d.portfolioDetails else d.assets;
        if chosen.Rows? then Ok(chosen.rows) else Err(InvalidFormat)
      else if d.metrics.Some? then
        match d.metrics.value
        case Absent => Ok([])
        case NotAnArray => Err(InvalidFormat)
        case Rows(rows) => Ok(rows)
      else Err(InvalidFormat)
  }

  /** An asset as `processAssets` prepares it. */
  datatype Asset = Asset(symbol: string, weight: real, returns_: seq<real>, prices: seq<real>, sector: string)

  /** `asset.prices || asset.historical_prices || []`. */
  function PricesOf(a: InputAsset): seq<real> {
    if a.prices.Some? then a.prices.value else if a.historicalPrices.Some? then a.historicalPrices.value else []
  }

  /** `asset.asset_symbol || asset.symbol`. */
  function SymbolOf(a: InputAsset): string {
    if a.assetSymbol != "" then a.assetSymbol else a.symbol
  }

  /** `(asset.weight || 0) / 100`: a percentage becomes a fraction. */
  function WeightOf(a: InputAsset): (w: real)
    ensures a.weight.Some? ==> w * 100.0 == a.weight.value
    ensures a.weight.None? ==> w == 0.0
  {
    if a.weight.Some? then a.weight.value / 100.0 else 0.0
  }

  /** `processAssets`: drops the assets without prices and prepares the others in order. */
  function ProcessAssets(pc: Calculator, rows: seq<InputAsset>): (assets: seq<Asset>)
    ensures |assets| <= |rows|
    ensures forall k :: 0 <= k < |assets| ==> |assets[k].prices| > 0
  {
    if rows == [] then []
    else
      var rest := ProcessAssets(pc, rows[..|rows| - 1]);
      var a := rows[|rows| - 1];
      var prices := PricesOf(a);
      if |prices| == 0 then rest
      else rest + [Asset(SymbolOf(a), WeightOf(a), pc.calculateReturns(prices), prices, a.sector)]
  }

  /** The number of input assets that have prices. */
  function CountPriced(rows: seq<InputAsset>): nat {
    if rows == [] then 0 else CountPriced(rows[..|rows| - 1]) + (if |PricesOf(rows[|rows| - 1])| == 0 then 0 else 1)
  }

  /**
   * One prepared asset per input asset with prices, in input order, each with a
   * non-empty price series, its weight divided by 100 and its returns from the
   * calculator.
   */
  lemma {:induction false} ProcessAssetsKeepsPriced(pc: Calculator, rows: seq<InputAsset>)
    ensures |ProcessAssets(pc, rows)| == CountPriced(rows)
    ensures forall k :: 0 <= k < |ProcessAssets(pc, rows)| ==>
      (var a := ProcessAssets(pc, rows)[k];
       |a.prices| > 0 && a.returns_ == pc.calculateReturns(a.prices) &&
       exists j :: 0 <= j < |rows| && a.prices == PricesOf(rows[j]) && a.weight == WeightOf(rows[j]) &&
                   a.symbol == SymbolOf(rows[j]) && a.sector == rows[j].sector)
    ensures (forall j :: 0 <= j < |rows| ==> |PricesOf(rows[j])| == 0) <==> ProcessAssets(pc, rows) == []
  {
    if rows != [] {
      var init := rows[..|rows| - 1];
      ProcessAssetsKeepsPriced(pc, init);
      var rest := ProcessAssets(pc, init);
      forall k | 0 <= k < |rest|
        ensures exists j :: 0 <= j < |rows| && rest[k].prices == PricesOf(rows[j]) && rest[k].weight == WeightOf(rows[j]) &&
                            rest[k].symbol == SymbolOf(rows[j]) && rest[k].sector == rows[j].sector
      {
        var j :| 0 <= j < |init| && rest[k].prices == PricesOf(init[j]) && rest[k].weight == WeightOf(init[j]) &&
                 rest[k].symbol == SymbolOf(init[j]) && rest[k].sector == init[j].sector;
        assert init[j] == rows[j];
      }
      if forall j :: 0 <= j < |rows| ==> |PricesOf(rows[j])| == 0 {
        assert forall j :: 0 <= j < |init| ==> init[j] == rows[j];
      }
      if ProcessAssets(pc, rows) == [] {
        assert |PricesOf(rows[|rows| - 1])| == 0;
        forall j | 0 <= j < |rows|
          ensures |PricesOf(rows[j])| == 0
        {
          if j < |init| {
            assert init[j] == rows[j];
          }
        }
      }
    }
  }

  /** The optimizer's state after the constructor. */
  datatype Optimizer = Optimizer(market: Market, assets: seq<Asset>, covariance: Matrix, expectedReturns: seq<real>)

  /**
   * What the constructor establishes: one covariance row and column and one
   * expected return per asset, and a non-empty price series for every asset.
   */
  predicate Valid(o: Optimizer) {
    IsSquare(o.covariance, |o.assets|) && |o.expectedReturns| == |o.assets| &&
    forall i :: 0 <= i < |o.assets| ==> |o.assets[i].prices| > 0
  }

  /** `calculateCovarianceMatrix`: the calculator's covariance of every pair of return series. */
  function CovarianceMatrixOf(pc: Calculator, assets: seq<Asset>): (m: Matrix)
    ensures IsSquare(m, |assets|)
    ensures forall i, j :: 0 <= i < |assets| && 0 <= j < |assets| ==>
      m[i][j] == pc.calculateCovariance(assets[i].returns_, assets[j].returns_)
  {
    seq(|assets|, i requires 0 <= i < |assets| =>
      seq(|assets|, j requires 0 <= j < |assets| => pc.calculateCovariance(assets[i].returns_, assets[j].returns_)))
  }

  /** A symmetric covariance operation gives a symmetric matrix. */
  lemma CovarianceMatrixSymmetric(pc: Calculator, assets: seq<Asset>)
    requires forall a, b :: pc.calculateCovariance(a, b) == pc.calculateCovariance(b, a)
    ensures IsSymmetric(CovarianceMatrixOf(pc, assets))
  {
  }

  /** The nested loops of `calculateCovarianceMatrix`, proved to compute `CovarianceMatrixOf`. */
  method CalculateCovarianceMatrix(pc: Calculator, assets: seq<Asset>) returns (m: Matrix)
    ensures m == CovarianceMatrixOf(pc, assets)
  {
    var n := |assets|;
    if n == 0 {
      return [];
    }
    m := [];
    var i := 0;
    while i < n
      invariant 0 <= i <= n && |m| == i
      invariant forall a :: 0 <= a < i ==> m[a] == CovarianceMatrixOf(pc, assets)[a]
    {
      var row := [];
      var j := 0;
      while j < n
        invariant 0 <= j <= n && |row| == j
        invariant forall b :: 0 <= b < j ==> row[b] == pc.calculateCovariance(assets[i].returns_, assets[b].returns_)
      {
        row := row + [pc.calculateCovariance(assets[i].returns_, assets[j].returns_)];
        j := j + 1;
      }
      assert row == CovarianceMatrixOf(pc, assets)[i];
      m := m + [row];
      i := i + 1;
    }
  }

  /** `calculateExpectedReturns` for one asset: (1 + mean daily return)^252 − 1, or 0 without returns. */
  function ExpectedReturn(a: Asset): real {
    if |a.returns_| == 0 then 0.0 else PowNat(1.0 + Mean(a.returns_), TradingDays) - 1.0
  }

  function ExpectedReturns(assets: seq<Asset>): (er: seq<real>)
    ensures |er| == |assets| && forall i :: 0 <= i < |assets| ==> er[i] == ExpectedReturn(assets[i])
  {
    seq(|assets|, i requires 0 <= i < |assets| => ExpectedReturn(assets[i]))
  }

  lemma {:induction false} PowNatAtLeastOne(x: real, k: nat)
    requires 1.0 <= x
    ensures 1.0 <= PowNat(x, k)
  {
    if k > 0 {
      PowNatAtLeastOne(x, k - 1);
      assert 1.0 * 1.0 <= x * PowNat(x, k - 1);
    }
  }

  lemma {:induction false} PowNatBelowOne(x: real, k: nat)
    requires 0.0 <= x <= 1.0
    ensures 0.0 <= PowNat(x, k) <= 1.0
  {
    if k > 0 {
      PowNatBelowOne(x, k - 1);
      ScaledDown(x, PowNat(x, k - 1));
    }
  }

  /** Scaling a non-negative amount by a factor in [0, 1] gives at most that amount. */
  lemma ScaledDown(d: real, m: real)
    requires 0.0 <= d <= 1.0 && 0.0 <= m
    ensures 0.0 <= d * m <= m
  {
    if 0.0 < d && 0.0 < m {
      ProductPositive(d, m);
      if d < 1.0 {
        ProductPositive(1.0 - d, m);
        assert (1.0 - d) * m == m - d * m;
      } else {
        assert d * m == 1.0 * m;
      }
    }
  }

  /**
   * Compounding preserves the sign of the mean daily return: a non-negative
   * mean gives a non-negative annual return, a mean in [−1, 0] one in [−1, 0].
   */
  lemma ExpectedReturnSign(a: Asset)
    requires |a.returns_| > 0
    ensures 0.0 <= Mean(a.returns_) ==> 0.0 <= ExpectedReturn(a)
    ensures -1.0 <= Mean(a.returns_) <= 0.0 ==> -1.0 <= ExpectedReturn(a) <= 0.0
  {
    var x := 1.0 + Mean(a.returns_);
    if 1.0 <= x {
      PowNatAtLeastOne(x, TradingDays);
    }
    if 0.0 <= x <= 1.0 {
      PowNatBelowOne(x, TradingDays);
    }
  }

  /**
   * The constructor: validates the data, prepares the assets, and computes the
   * covariance matrix and expected returns when any asset has prices. The market
   * prices default to none.
   */
  function NewOptimizer(pc: Calculator, data: Option<InputData>): (r: Result<Optimizer, DataError>)
    ensures r.Err? <==> ValidateData(data).Err?
    ensures r.Ok? ==> r.value.assets == ProcessAssets(pc, ValidateData(data).value)
    ensures r.Ok? ==> r.value.covariance == CovarianceMatrixOf(pc, r.value.assets)
    ensures r.Ok? ==> r.value.expectedReturns == ExpectedReturns(r.value.assets)
    ensures r.Ok? ==> Valid(r.value) && r.value.market == data.value.market
  {
    match ValidateData(data)
    case Err(e) => Err(e)
    case Ok(rows) =>
      ProcessAssetsKeepsPriced(pc, rows);
      var assets := ProcessAssets(pc, rows);
      if |assets| > 0 then Ok(Optimizer(data.value.market, assets, CovarianceMatrixOf(pc, assets), ExpectedReturns(assets)))
      else Ok(Optimizer(data.value.market, assets, [], []))
  }

  // ---------------------------------------------------------------------
  // Sector concentration and simple reductions
  // ---------------------------------------------------------------------

  function Holdings(assets: seq<Asset>): (hs: seq<Holding>)
    ensures |hs| == |assets| && forall i :: 0 <= i < |assets| ==> hs[i] == Holding(assets[i].sector, assets[i].weight)
  {
    seq(|assets|, i requires 0 <= i < |assets| => Holding(assets[i].sector, assets[i].weight))
  }

  /** `calculateSectorConcentration`: `Math.max(...sectorWeights, 0)` over the sectors with a name. */
  function SectorConcentration(o: Optimizer): (r: real)
    ensures 0.0 <= r
  {
    MaxTotal(SectorTotals(Holdings(o.assets), true))
  }

  /**
   * The concentration is the largest per-sector weight sum (not an HHI): at
   * least every named sector's sum, equal to one of them unless it is 0, and 0
   * when no asset has a sector.
   */
  lemma SectorConcentrationIsLargestSector(o: Optimizer)
    ensures forall c :: c != "" && Occurs(Holdings(o.assets), c) ==> SectorSum(Holdings(o.assets), c) <= SectorConcentration(o)
    ensures SectorConcentration(o) == 0.0 ||
      exists c :: c != "" && Occurs(Holdings(o.assets), c) && SectorConcentration(o) == SectorSum(Holdings(o.assets), c)
    ensures (forall i :: 0 <= i < |o.assets| ==> o.assets[i].sector == "") ==> SectorConcentration(o) == 0.0
  {
    var hs := Holdings(o.assets);
    var ts := SectorTotals(hs, true);
    SectorTotalsEntries(hs, true);
    forall c | c != "" && Occurs(hs, c)
      ensures SectorSum(hs, c) <= SectorConcentration(o)
    {
      SectorTotalsKeys(hs, true, c);
      var k := KeyIndex(ts, c);
      TotalOfEntry(ts, k);
      SectorTotalsSum(hs, true, c);
    }
    if SectorConcentration(o) != 0.0 {
      var k :| 0 <= k < |ts| && ts[k].total == SectorConcentration(o);
      var c := ts[k].sector;
      assert Counted(c, true) && Occurs(hs, c) && ts[k].total == SectorSum(hs, c);
      assert c != "" && Occurs(hs, c) && SectorConcentration(o) == SectorSum(hs, c);
    }
    if forall i :: 0 <= i < |o.assets| ==> o.assets[i].sector == "" {
      if |ts| > 0 {
        assert Occurs(hs, ts[0].sector) && ts[0].sector != "";
        OccursIndex(hs, ts[0].sector);
      }
    }
  }

  /** The position of a key in a table that has it. */
  lemma {:induction false} KeyIndex(ts: seq<SectorTotal>, c: string) returns (k: nat)
    requires HasKey(ts, c)
    ensures k < |ts| && ts[k].sector == c
  {
    if ts[0].sector == c {
      k := 0;
    } else {
      var k' := KeyIndex(ts[1..], c);
      k := k' + 1;
    }
  }

  lemma {:induction false} OccursIndex(hs: seq<Holding>, c: string)
    requires Occurs(hs, c)
    ensures exists i :: 0 <= i < |hs| && hs[i].sector == c
  {
    if hs[|hs| - 1].sector != c {
      OccursIndex(hs[..|hs| - 1], c);
      var i :| 0 <= i < |hs| - 1 && hs[..|hs| - 1][i].sector == c;
      assert hs[i].sector == c;
    }
  }

  // ---------------------------------------------------------------------
  // Random feasible weights
  // ---------------------------------------------------------------------

  const MinWeight: real := 0.05
  const MaxWeight: real := 0.40
  const SearchIterations: nat := 10000

  /**
   * The weight still to hand out after `generateRandomWeights` has visited the
   * first k assets: every asset starts at `lo`, and asset i receives
   * draws[i] × min(hi − lo, what remains), `draws[i]` being its `Math.random()`.
   */
  function Remaining(n: nat, lo: real, hi: real, draws: seq<real>, k: nat): real
    requires k <= |draws|
  {
    if k == 0 then 1.0 - lo * n as real
    else
      var r := Remaining(n, lo, hi, draws, k - 1);
      r - draws[k - 1] * MinReal(hi - lo, r)
  }

  /** The extra weight asset i receives. */
  function Allocation(n: nat, lo: real, hi: real, draws: seq<real>, i: nat): real
    requires i < |draws|
  {
    draws[i] * MinReal(hi - lo, Remaining(n, lo, hi, draws, i))
  }

  /** The n − 1 draws suffice for a portfolio of n assets. */
  predicate DrawsFit(n: nat, draws: seq<real>) {
    n <= |draws| + 1
  }

  /** The weights `generateRandomWeights` returns; the last asset takes whatever remains. */
  function RandomWeights(n: nat, lo: real, hi: real, draws: seq<real>): (w: seq<real>)
    requires DrawsFit(n, draws)
    ensures |w| == n
  {
    seq(n, j requires 0 <= j < n => if j < n - 1 then lo + Allocation(n, lo, hi, draws, j) else lo + Remaining(n, lo, hi, draws, n - 1))
  }

  lemma {:induction false} RandomWeightsPrefixSum(n: nat, lo: real, hi: real, draws: seq<real>, k: nat)
    requires DrawsFit(n, draws) && k < n
    ensures PrefixSumAt(n, lo, hi, draws, k)
  {
    if k > 0 {
      RandomWeightsPrefixSum(n, lo, hi, draws, k - 1);
      PrefixSumStep(n, lo, hi, draws, k);
    }
  }

  /** The first k random weights add up to k × lo plus what the first k allocations took. */
  predicate PrefixSumAt(n: nat, lo: real, hi: real, draws: seq<real>, k: nat)
    requires DrawsFit(n, draws) && k < n
  {
    SumFirst(RandomWeights(n, lo, hi, draws), k) == k as real * lo + (Remaining(n, lo, hi, draws, 0) - Remaining(n, lo, hi, draws, k))
  }

  lemma PrefixSumStep(n: nat, lo: real, hi: real, draws: seq<real>, k: nat)
    requires DrawsFit(n, draws) && 0 < k < n && PrefixSumAt(n, lo, hi, draws, k - 1)
    ensures PrefixSumAt(n, lo, hi, draws, k)
  {
    var w := RandomWeights(n, lo, hi, draws);
    var s, s' := SumFirst(w, k - 1), SumFirst(w, k);
    var r0, r, r' := Remaining(n, lo, hi, draws, 0), Remaining(n, lo, hi, draws, k - 1), Remaining(n, lo, hi, draws, k);
    var a := Allocation(n, lo, hi, draws, k - 1);
    assert s == (k - 1) as real * lo + (r0 - r);
    assert w[k - 1] == lo + a;
    assert s' == s + w[k - 1];
    RemainingNext(n, lo, hi, draws, k - 1);
    assert r' == r - a;
    assert k as real * lo == (k - 1) as real * lo + lo;
  }

  /** The random weights of a non-empty portfolio always sum to 1. */
  lemma RandomWeightsSumToOne(n: nat, lo: real, hi: real, draws: seq<real>)
    requires DrawsFit(n, draws) && n > 0
    ensures Sum(RandomWeights(n, lo, hi, draws)) == 1.0
  {
    var w := RandomWeights(n, lo, hi, draws);
    RandomWeightsPrefixSum(n, lo, hi, draws, n - 1);
    assert w[n - 1] == lo + Remaining(n, lo, hi, draws, n - 1);
    assert n as real * lo == (n - 1) as real * lo + lo;
  }

  /** One allocation step takes between 0 and min(cap, r) from a non-negative remainder r. */
  lemma AllocationStep(r: real, d: real, cap: real)
    requires 0.0 <= r && 0.0 <= cap && 0.0 <= d <= 1.0
    ensures 0.0 <= d * MinReal(cap, r) <= cap && 0.0 <= r - d * MinReal(cap, r) <= r
  {
    ScaledDown(d, MinReal(cap, r));
  }

  lemma {:induction false} RemainingBounds(n: nat, lo: real, hi: real, draws: seq<real>, k: nat)
    requires k <= |draws| && lo <= hi && 0.0 <= Remaining(n, lo, hi, draws, 0)
    requires forall i :: 0 <= i < |draws| ==> 0.0 <= draws[i] < 1.0
    ensures 0.0 <= Remaining(n, lo, hi, draws, k) <= Remaining(n, lo, hi, draws, 0)
  {
    if k > 0 {
      RemainingBounds(n, lo, hi, draws, k - 1);
      RemainingShrinks(n, lo, hi, draws, k);
    }
  }

  lemma RemainingShrinks(n: nat, lo: real, hi: real, draws: seq<real>, k: nat)
    requires 0 < k <= |draws| && lo <= hi && 0.0 <= draws[k - 1] < 1.0
    requires 0.0 <= Remaining(n, lo, hi, draws, k - 1)
    ensures 0.0 <= Remaining(n, lo, hi, draws, k) <= Remaining(n, lo, hi, draws, k - 1)
  {
    var r, d := Remaining(n, lo, hi, draws, k - 1), draws[k - 1];
    AllocationStep(r, d, hi - lo);
    assert Remaining(n, lo, hi, draws, k) == r - d * MinReal(hi - lo, r);
  }

  lemma AllocationBounds(n: nat, lo: real, hi: real, draws: seq<real>, k: nat)
    requires k < |draws| && lo <= hi && 0.0 <= Remaining(n, lo, hi, draws, 0)
    requires forall i :: 0 <= i < |draws| ==> 0.0 <= draws[i] < 1.0
    ensures 0.0 <= Allocation(n, lo, hi, draws, k) <= hi - lo
  {
    RemainingBounds(n, lo, hi, draws, k);
    var r, d := Remaining(n, lo, hi, draws, k), draws[k];
    AllocationStep(r, d, hi - lo);
    assert Allocation(n, lo, hi, draws, k) == d * MinReal(hi - lo, r);
  }

  /**
   * With room for the minimum weights (n × lo ≤ 1, lo ≤ hi) and draws in
   * [0, 1), every weight is at least lo, every weight but the last is at most
   * hi, and the last is at most 1 − (n − 1) × lo. The last is not capped at hi.
   */
  lemma RandomWeightsBounds(n: nat, lo: real, hi: real, draws: seq<real>)
    requires DrawsFit(n, draws) && lo <= hi && lo * n as real <= 1.0
    requires forall i :: 0 <= i < |draws| ==> 0.0 <= draws[i] < 1.0
    ensures forall j :: 0 <= j < n ==> lo <= RandomWeights(n, lo, hi, draws)[j]
    ensures forall j :: 0 <= j < n - 1 ==> RandomWeights(n, lo, hi, draws)[j] <= hi
    ensures n > 0 ==> RandomWeights(n, lo, hi, draws)[n - 1] <= 1.0 - (n - 1) as real * lo
  {
    var w := RandomWeights(n, lo, hi, draws);
    assert 0.0 <= Remaining(n, lo, hi, draws, 0);
    forall j | 0 <= j < n
      ensures lo <= w[j] && (j < n - 1 ==> w[j] <= hi)
    {
      if j < n - 1 {
        AllocationBounds(n, lo, hi, draws, j);
      } else {
        RemainingBounds(n, lo, hi, draws, n - 1);
      }
    }
    if n > 0 {
      RemainingBounds(n, lo, hi, draws, n - 1);
      assert lo * n as real == (n - 1) as real * lo + lo;
    }
  }

  /** A one-asset portfolio gets all the weight, above the 0.40 the search means to allow. */
  lemma RandomWeightsSingleAsset(draws: seq<real>)
    ensures RandomWeights(1, MinWeight, MaxWeight, draws) == [1.0]
  {
    assert Remaining(1, MinWeight, MaxWeight, draws, 0) == 1.0 - MinWeight;
    assert RandomWeights(1, MinWeight, MaxWeight, draws)[0] == MinWeight + Remaining(1, MinWeight, MaxWeight, draws, 0);
  }

  lemma RemainingNext(n: nat, lo: real, hi: real, draws: seq<real>, i: nat)
    requires i < |draws|
    ensures Remaining(n, lo, hi, draws, i + 1) == Remaining(n, lo, hi, draws, i) - Allocation(n, lo, hi, draws, i)
  {
  }

  /** `generateRandomWeights`: fills with the minimum, then hands out the rest in order. */
  method GenerateRandomWeights(n: nat, lo: real, hi: real, draws: seq<real>) returns (w: array<real>)
    requires DrawsFit(n, draws)
    ensures fresh(w) && w[..] == RandomWeights(n, lo, hi, draws)
  {
    w := new real[n](_ => lo);
    if n == 0 {
      return;
    }
    var remaining := 1.0 - lo * n as real;
    var i := 0;
    while i < n - 1
      invariant i < n
      invariant remaining == Remaining(n, lo, hi, draws, i)
      invariant forall j :: 0 <= j < i ==> w[j] == lo + Allocation(n, lo, hi, draws, j)
      invariant forall j :: i <= j < n ==> w[j] == lo
    {
      assert w[i] == lo;
      var maxAllocation := MinReal(hi - w[i], remaining);
      var allocation := draws[i] * maxAllocation;
      assert allocation == Allocation(n, lo, hi, draws, i);
      RemainingNext(n, lo, hi, draws, i);
      w[i] := w[i] + allocation;
      remaining := remaining - allocation;
      i := i + 1;
    }
    w[n - 1] := w[n - 1] + remaining;
    assert w[..] == RandomWeights(n, lo, hi, draws);
  }

  // ---------------------------------------------------------------------
  // The search for optimal weights
  // ---------------------------------------------------------------------

  /** The current weights `this.assets.map(a => a.weight)`. */
  function CurrentWeights(o: Optimizer): (w: seq<real>)
    ensures |w| == |o.assets| && forall i :: 0 <= i < |o.assets| ==> w[i] == o.assets[i].weight
  {
    seq(|o.assets|, i requires 0 <= i < |o.assets| => o.assets[i].weight)
  }

  /** `calculateDiversificationPenalty`: Σ w². */
  function Penalty(w: seq<real>): (p: real)
    ensures 0.0 <= p
    ensures w == [] ==> p == 0.0
  {
    SumOfSquares(w, |w|)
  }

  lemma SquareAtMost(x: real)
    requires 0.0 <= x <= 1.0
    ensures x * x <= x
  {
    ScaledDown(x, x);
  }

  lemma {:induction false} SquaresBelowSum(w: seq<real>, k: nat)
    requires k <= |w| && forall i :: 0 <= i < |w| ==> 0.0 <= w[i] <= 1.0
    ensures SumOfSquares(w, k) <= SumFirst(w, k)
  {
    if k > 0 {
      SquaresBelowSum(w, k - 1);
      var x := w[k - 1];
      SquareAtMost(x);
      var sq, t, sq', t' := SumOfSquares(w, k - 1), SumFirst(w, k - 1), SumOfSquares(w, k), SumFirst(w, k);
      assert sq' == sq + x * x && t' == t + x;
      BelowStep(sq, t, x, sq', t');
    }
  }

  lemma BelowStep(sq: real, t: real, x: real, sq': real, t': real)
    requires sq <= t && x * x <= x && sq' == sq + x * x && t' == t + x
    ensures sq' <= t'
  {
  }

  /** sq ≥ 2mt − jm²: for sq = Σ w², t = Σ w over j entries, the sum of the tangent bounds x² ≥ 2mx − m². */
  predicate AboveTangent(sq: real, t: real, j: real, m: real) {
    2.0 * m * t - j * (m * m) <= sq
  }

  lemma {:induction false} SquaresAboveTangent(w: seq<real>, m: real, k: nat)
    requires k <= |w|
    ensures AboveTangent(SumOfSquares(w, k), SumFirst(w, k), k as real, m)
  {
    if k > 0 {
      SquaresAboveTangent(w, m, k - 1);
      TangentStep(w, m, k);
    }
  }

  lemma TangentStep(w: seq<real>, m: real, k: nat)
    requires 0 < k <= |w| && AboveTangent(SumOfSquares(w, k - 1), SumFirst(w, k - 1), (k - 1) as real, m)
    ensures AboveTangent(SumOfSquares(w, k), SumFirst(w, k), k as real, m)
  {
    var x := w[k - 1];
    assert SumOfSquares(w, k) == SumOfSquares(w, k - 1) + x * x;
    TangentEntry(SumOfSquares(w, k - 1), SumFirst(w, k - 1), (k - 1) as real, x, m,
      SumOfSquares(w, k), SumFirst(w, k), k as real);
  }

  /** One entry more keeps the tangent bound, on plain numbers. */
  lemma TangentEntry(sq: real, t: real, j: real, x: real, m: real, sq': real, t': real, j': real)
    requires AboveTangent(sq, t, j, m)
    requires sq' == sq + x * x && t' == t + x && j' == j + 1.0
    ensures AboveTangent(sq', t', j', m)
  {
    SquareAboveTangent(x, m);
    assert m * t' == m * t + m * x;
    assert j' * (m * m) == j * (m * m) + m * m;
  }

  lemma SquareAboveTangent(x: real, m: real)
    ensures 2.0 * m * x - m * m <= x * x
  {
    assert 0.0 <= (x - m) * (x - m) == x * x - 2.0 * m * x + m * m;
  }

  /**
   * The penalty of weights in [0, 1] summing to 1 lies between 1/n (equal
   * weights) and 1 (everything in one asset).
   */
  lemma PenaltyBounds(w: seq<real>)
    requires |w| > 0 && Sum(w) == 1.0 && forall i :: 0 <= i < |w| ==> 0.0 <= w[i] <= 1.0
    ensures 1.0 / |w| as real <= Penalty(w) <= 1.0
  {
    SquaresBelowSum(w, |w|);
    var n := |w| as real;
    var m := 1.0 / n;
    SquaresAboveTangent(w, m, |w|);
    assert n * m == 1.0;
    assert n * (m * m) == m;
  }

  /**
   * The score a candidate gets: distance of its return from the target, plus
   * its risk scaled by (1 − tolerance), plus its penalty.
   */
  function Score(pc: Calculator, o: Optimizer, w: seq<real>, target: real, tolerance: real): (s: real)
    ensures tolerance <= 1.0 && 0.0 <= pc.calculatePortfolioRisk(w, o.covariance) ==> 0.0 <= s
  {
    Abs(pc.calculatePortfolioReturn(w, o.expectedReturns) - target) +
    RiskTerm(pc.calculatePortfolioRisk(w, o.covariance), tolerance) + Penalty(w)
  }

  /** `risk * (1 - riskTolerance)`: non-negative for a non-negative risk and a tolerance of at most 1. */
  function RiskTerm(risk: real, tolerance: real): (t: real)
    ensures tolerance <= 1.0 && 0.0 <= risk ==> 0.0 <= t
  {
    risk * (1.0 - tolerance)
  }

  /**
   * Above a tolerance of 1 the risk term changes sign: of two candidates with
   * the same return and penalty, the riskier one scores lower and is preferred.
   */
  lemma ScoreRewardsRiskAboveOne(pc: Calculator, o: Optimizer, v: seq<real>, w: seq<real>, target: real, tolerance: real)
    requires 1.0 < tolerance
    requires pc.calculatePortfolioReturn(v, o.expectedReturns) == pc.calculatePortfolioReturn(w, o.expectedReturns)
    requires Penalty(v) == Penalty(w)
    requires pc.calculatePortfolioRisk(v, o.covariance) < pc.calculatePortfolioRisk(w, o.covariance)
    ensures Score(pc, o, w, target, tolerance) < Score(pc, o, v, target, tolerance)
  {
    var a, b := pc.calculatePortfolioRisk(v, o.covariance), pc.calculatePortfolioRisk(w, o.covariance);
    var e := Abs(pc.calculatePortfolioReturn(w, o.expectedReturns) - target);
    assert Score(pc, o, w, target, tolerance) == e + RiskTerm(b, tolerance) + Penalty(w);
    assert Score(pc, o, v, target, tolerance) == e + RiskTerm(a, tolerance) + Penalty(w);
    RiskTermDecreasing(a, b, tolerance);
  }

  /** Above a tolerance of 1 the risk term falls as the risk rises. */
  lemma RiskTermDecreasing(a: real, b: real, tolerance: real)
    requires 1.0 < tolerance && a < b
    ensures RiskTerm(b, tolerance) < RiskTerm(a, tolerance)
  {
    ProductPositive(b - a, tolerance - 1.0);
    assert RiskTerm(a, tolerance) - RiskTerm(b, tolerance) == (b - a) * (tolerance - 1.0);
  }

  /** The index of the first smallest of scores[0..k]: the candidate kept by a strict `<` against the best so far. */
  function FirstMinimum(scores: seq<real>, k: nat): (b: nat)
    requires 0 < k <= |scores|
    ensures b < k
  {
    if k == 1 then 0
    else
      var p := FirstMinimum(scores, k - 1);
      if scores[k - 1] < scores[p] then k - 1 else p
  }

  /** The kept candidate scores no more than any other, and strictly less than every earlier one. */
  lemma {:induction false} FirstMinimumIsFirstBest(scores: seq<real>, k: nat)
    requires 0 < k <= |scores|
    ensures forall j :: 0 <= j < k ==> scores[FirstMinimum(scores, k)] <= scores[j]
    ensures forall j :: 0 <= j < FirstMinimum(scores, k) ==> scores[FirstMinimum(scores, k)] < scores[j]
  {
    if k > 1 {
      FirstMinimumIsFirstBest(scores, k - 1);
    }
  }

  /** Every search draw holds enough random numbers for the portfolio. */
  predicate SearchDraws(o: Optimizer, draws: seq<seq<real>>) {
    |draws| == SearchIterations && forall i :: 0 <= i < |draws| ==> DrawsFit(|o.assets|, draws[i])
  }

  function Candidate(o: Optimizer, draws: seq<seq<real>>, i: nat): (w: seq<real>)
    requires SearchDraws(o, draws) && i < |draws|
    ensures |w| == |o.assets|
  {
    RandomWeights(|o.assets|, MinWeight, MaxWeight, draws[i])
  }

  function Scores(pc: Calculator, o: Optimizer, target: real, tolerance: real, draws: seq<seq<real>>): (r: seq<real>)
    requires SearchDraws(o, draws)
    ensures |r| == |draws|
  {
    seq(|draws|, i requires 0 <= i < |draws| => Score(pc, o, Candidate(o, draws, i), target, tolerance))
  }

  /**
   * `findOptimalWeights`: without a covariance matrix the current weights;
   * otherwise the first best-scoring of the 10000 random candidates.
   */
  function OptimalWeights(pc: Calculator, o: Optimizer, target: real, tolerance: real, draws: seq<seq<real>>): (w: seq<real>)
    requires SearchDraws(o, draws)
    ensures Valid(o) ==> |w| == |o.assets|
  {
    if |o.covariance| == 0 then CurrentWeights(o)
    else Candidate(o, draws, FirstMinimum(Scores(pc, o, target, tolerance, draws), |draws|))
  }

  /**
   * Without a covariance matrix the current weights come back. Otherwise the
   * result is one of the candidates, scoring no more than any of them and less
   * than every earlier one; it sums to 1, and for at most 20 assets and draws in
   * [0, 1) every weight is at least 0.05 and all but the last at most 0.40.
   */
  lemma OptimalWeightsIsBestCandidate(pc: Calculator, o: Optimizer, target: real, tolerance: real, draws: seq<seq<real>>)
    requires SearchDraws(o, draws) && Valid(o)
    ensures |o.covariance| == 0 ==> OptimalWeights(pc, o, target, tolerance, draws) == CurrentWeights(o)
    ensures |o.covariance| > 0 ==>
      exists b :: 0 <= b < |draws| && OptimalWeights(pc, o, target, tolerance, draws) == Candidate(o, draws, b) &&
        (forall j :: 0 <= j < |draws| ==> Scores(pc, o, target, tolerance, draws)[b] <= Scores(pc, o, target, tolerance, draws)[j]) &&
        (forall j :: 0 <= j < b ==> Scores(pc, o, target, tolerance, draws)[b] < Scores(pc, o, target, tolerance, draws)[j])
    ensures |o.covariance| > 0 ==> Sum(OptimalWeights(pc, o, target, tolerance, draws)) == 1.0
    ensures |o.covariance| > 0 && |o.assets| <= 20 && (forall i, j :: 0 <= i < |draws| && 0 <= j < |draws[i]| ==> 0.0 <= draws[i][j] < 1.0) ==>
      (forall j :: 0 <= j < |o.assets| ==> MinWeight <= OptimalWeights(pc, o, target, tolerance, draws)[j]) &&
      (forall j :: 0 <= j < |o.assets| - 1 ==> OptimalWeights(pc, o, target, tolerance, draws)[j] <= MaxWeight)
  {
    if |o.covariance| > 0 {
      var scores := Scores(pc, o, target, tolerance, draws);
      var b := FirstMinimum(scores, |draws|);
      FirstMinimumIsFirstBest(scores, |draws|);
      assert OptimalWeights(pc, o, target, tolerance, draws) == Candidate(o, draws, b);
      var n := |o.assets|;
      RandomWeightsSumToOne(n, MinWeight, MaxWeight, draws[b]);
      if n <= 20 && (forall i, j :: 0 <= i < |draws| && 0 <= j < |draws[i]| ==> 0.0 <= draws[i][j] < 1.0) {
        assert forall j :: 0 <= j < |draws[b]| ==> 0.0 <= draws[b][j] < 1.0;
        assert MinWeight * n as real <= 1.0;
        RandomWeightsBounds(n, MinWeight, MaxWeight, draws[b]);
      }
    }
  }

  /** The search loop of `findOptimalWeights`, with `Infinity` as the first best score. */
  method FindOptimalWeights(pc: Calculator, o: Optimizer, target: real, tolerance: real, draws: seq<seq<real>>)
    returns (best: seq<real>)
    requires SearchDraws(o, draws)
    ensures best == OptimalWeights(pc, o, target, tolerance, draws)
  {
    if |o.covariance| == 0 {
      return CurrentWeights(o);
    }
    var n := |o.assets|;
    ghost var scores := Scores(pc, o, target, tolerance, draws);
    best := CurrentWeights(o);
    var bestScore: Option<real> := None;
    ghost var b := 0;
    var i := 0;
    while i < SearchIterations
      invariant 0 <= i <= SearchIterations
      invariant i == 0 <==> bestScore.None?
      invariant i > 0 ==> b == FirstMinimum(scores, i) && bestScore == Some(scores[b]) && best == Candidate(o, draws, b)
    {
      var w := GenerateRandomWeights(n, MinWeight, MaxWeight, draws[i]);
      var weights := w[..];
      var score := Score(pc, o, weights, target, tolerance);
      assert weights == Candidate(o, draws, i);
      if bestScore.None? || score < bestScore.value {
        bestScore := Some(score);
        best := weights;
        b := i;
      }
      i := i + 1;
    }
  }

  // ---------------------------------------------------------------------
  // The efficient frontier
  // ---------------------------------------------------------------------

  const FrontierSteps: nat := 20
  const FrontierTolerance: real := 3.0

  /** `calculateCurrentReturn`: Σ weight × expected return over the current holdings. */
  function CurrentReturn(o: Optimizer): real
    requires Valid(o)
  {
    Dot(CurrentWeights(o), o.expectedReturns, |o.assets|)
  }

  /** With non-negative current weights summing to 1, the current return lies between the smallest and largest expected return. */
  lemma CurrentReturnBetween(o: Optimizer)
    requires Valid(o) && |o.assets| > 0
    requires Sum(CurrentWeights(o)) == 1.0 && forall i :: 0 <= i < |o.assets| ==> 0.0 <= o.assets[i].weight
    ensures MinOf(o.expectedReturns) <= CurrentReturn(o) <= MaxOf(o.expectedReturns)
  {
    var lo, hi := MinOf(o.expectedReturns), MaxOf(o.expectedReturns);
    DotBetween(CurrentWeights(o), o.expectedReturns, lo, hi, |o.assets|);
  }

  /** The target return of frontier point i: min + (i / 20)(max − min). */
  function FrontierTarget(lo: real, hi: real, i: nat): real {
    lo + (i as real / FrontierSteps as real) * (hi - lo)
  }

  /** The 21 targets run from the smallest to the largest expected return, never decreasing. */
  lemma FrontierTargetsSpan(lo: real, hi: real, i: nat, j: nat)
    requires lo <= hi && i <= j <= FrontierSteps
    ensures FrontierTarget(lo, hi, 0) == lo && FrontierTarget(lo, hi, FrontierSteps) == hi
    ensures lo <= FrontierTarget(lo, hi, i) <= FrontierTarget(lo, hi, j) <= hi
  {
    FrontierTargetEnds(lo, hi);
    var fi, fj := i as real / FrontierSteps as real, j as real / FrontierSteps as real;
    assert 0.0 <= fi <= fj <= 1.0;
    Interpolate(lo, hi, fi, fj, FrontierTarget(lo, hi, i), FrontierTarget(lo, hi, j));
  }

  /** The first target is the smallest expected return and the last is the largest. */
  lemma FrontierTargetEnds(lo: real, hi: real)
    ensures FrontierTarget(lo, hi, 0) == lo && FrontierTarget(lo, hi, FrontierSteps) == hi
  {
    assert FrontierSteps as real / FrontierSteps as real == 1.0;
    assert 1.0 * (hi - lo) == hi - lo;
  }

  /** Moving a fraction f ≤ g of the way from lo to hi (to a and b) stays between them, and in order. */
  lemma Interpolate(lo: real, hi: real, f: real, g: real, a: real, b: real)
    requires lo <= hi && 0.0 <= f <= g <= 1.0
    requires a == lo + f * (hi - lo) && b == lo + g * (hi - lo)
    ensures lo <= a <= b <= hi
  {
    var d := hi - lo;
    ScaledDown(f, d);
    ScaledDown(g - f, d);
    ScaledDown(g, d);
    DifferenceOfProducts(g, f, d);
    assert g * d <= d;
    assert lo + g * d <= hi;
  }

  lemma DifferenceOfProducts(g: real, f: real, d: real)
    ensures g * d - f * d == (g - f) * d
  {
  }

  datatype FrontierPoint = FrontierPoint(return_: real, risk: real, weights: seq<real>)

  datatype Frontier = Frontier(points: seq<FrontierPoint>, currentReturn: real, currentRisk: real)

  /** One search's draws per frontier point. */
  predicate FrontierDraws(o: Optimizer, draws: seq<seq<seq<real>>>) {
    |draws| == FrontierSteps + 1 && forall i :: 0 <= i < |draws| ==> SearchDraws(o, draws[i])
  }

  function FrontierPointOf(pc: Calculator, o: Optimizer, draws: seq<seq<seq<real>>>, i: nat): FrontierPoint
    requires Valid(o) && |o.assets| > 0 && FrontierDraws(o, draws) && i <= FrontierSteps
  {
    var target := FrontierTarget(MinOf(o.expectedReturns), MaxOf(o.expectedReturns), i);
    var w := OptimalWeights(pc, o, target, FrontierTolerance, draws[i]);
    FrontierPoint(target, pc.calculatePortfolioRisk(w, o.covariance), w)
  }

  /**
   * `calculateEfficientFrontier`: 21 points, each the search's weights for an
   * evenly spaced target at tolerance 3, with their risk, and the current
   * portfolio's return and risk. None when there are no expected returns, where
   * `Math.min()` and `Math.max()` give infinities and every target is NaN.
   */
  function FrontierOf(pc: Calculator, o: Optimizer, draws: seq<seq<seq<real>>>): (f: Option<Frontier>)
    requires Valid(o) && FrontierDraws(o, draws)
    ensures f.Some? <==> |o.assets| > 0
    ensures f.Some? ==> |f.value.points| == FrontierSteps + 1
  {
    if |o.assets| == 0 then None
    else Some(Frontier(seq(FrontierSteps + 1, i requires 0 <= i <= FrontierSteps => FrontierPointOf(pc, o, draws, i)),
                       CurrentReturn(o), pc.calculatePortfolioRisk(CurrentWeights(o), o.covariance)))
  }

  /**
   * The frontier exists exactly when there are assets. Its 21 targets start at
   * the smallest expected return, end at the largest and never decrease; every
   * point's weights are the search's result for its target, and cost the
   * calculator's risk.
   */
  lemma FrontierSweepsReturns(pc: Calculator, o: Optimizer, draws: seq<seq<seq<real>>>)
    requires Valid(o) && FrontierDraws(o, draws)
    ensures FrontierOf(pc, o, draws).Some? <==> |o.assets| > 0
    ensures FrontierOf(pc, o, draws).Some? ==>
      var ps := FrontierOf(pc, o, draws).value.points;
      |ps| == FrontierSteps + 1 &&
      ps[0].return_ == MinOf(o.expectedReturns) && ps[FrontierSteps].return_ == MaxOf(o.expectedReturns) &&
      (forall i, j :: 0 <= i <= j <= FrontierSteps ==> ps[i].return_ <= ps[j].return_) &&
      (forall i :: 0 <= i <= FrontierSteps ==>
        ps[i].weights == OptimalWeights(pc, o, ps[i].return_, FrontierTolerance, draws[i]) &&
        ps[i].risk == pc.calculatePortfolioRisk(ps[i].weights, o.covariance))
  {
    if |o.assets| > 0 {
      var lo, hi := MinOf(o.expectedReturns), MaxOf(o.expectedReturns);
      var ps := FrontierOf(pc, o, draws).value.points;
      assert lo <= o.expectedReturns[0] <= hi;
      FrontierTargetsSpan(lo, hi, 0, 0);
      forall i, j | 0 <= i <= j <= FrontierSteps
        ensures ps[i].return_ <= ps[j].return_
      {
        FrontierTargetsSpan(lo, hi, i, j);
      }
    }
  }

  /** The loop of `calculateEfficientFrontier`. */
  method CalculateEfficientFrontier(pc: Calculator, o: Optimizer, draws: seq<seq<seq<real>>>) returns (f: Option<Frontier>)
    requires Valid(o) && FrontierDraws(o, draws)
    ensures f == FrontierOf(pc, o, draws)
  {
    if |o.assets| == 0 {
      return None;
    }
    var lo, hi := MinOf(o.expectedReturns), MaxOf(o.expectedReturns);
    var points: seq<FrontierPoint> := [];
    var i := 0;
    while i <= FrontierSteps
      invariant 0 <= i <= FrontierSteps + 1 && |points| == i
      invariant forall k :: 0 <= k < i ==> points[k] == FrontierPointOf(pc, o, draws, k)
    {
      var target := FrontierTarget(lo, hi, i);
      var weights := FindOptimalWeights(pc, o, target, FrontierTolerance, draws[i]);
      var risk := pc.calculatePortfolioRisk(weights, o.covariance);
      assert FrontierPoint(target, risk, weights) == FrontierPointOf(pc, o, draws, i);
      points := points + [FrontierPoint(target, risk, weights)];
      i := i + 1;
    }
    var current := Dot(CurrentWeights(o), o.expectedReturns, |o.assets|);
    f := Some(Frontier(points, current, pc.calculatePortfolioRisk(CurrentWeights(o), o.covariance)));
    assert points == FrontierOf(pc, o, draws).value.points;
  }

  // ---------------------------------------------------------------------
  // Portfolio details, returns and performance
  // ---------------------------------------------------------------------

  datatype Detail = Detail(assetSymbol: string, weight: real, sector: string, currentPrice: real, expectedReturn: real)

  /** `generatePortfolioDetails`: each asset with its new weight, its last price and its expected return. */
  function PortfolioDetails(o: Optimizer, w: seq<real>): (ds: seq<Detail>)
    requires Valid(o) && |w| == |o.assets|
    ensures |ds| == |o.assets|
    ensures forall i :: 0 <= i < |ds| ==>
      ds[i].assetSymbol == o.assets[i].symbol && ds[i].weight == w[i] && ds[i].sector == o.assets[i].sector &&
      ds[i].currentPrice == o.assets[i].prices[|o.assets[i].prices| - 1] && ds[i].expectedReturn == o.expectedReturns[i]
  {
    seq(|o.assets|, i requires 0 <= i < |o.assets| =>
      Detail(o.assets[i].symbol, w[i], o.assets[i].sector, o.assets[i].prices[|o.assets[i].prices| - 1], o.expectedReturns[i]))
  }

  /** The dates are those of the first asset's prices; every other asset has a price on each of them. */
  predicate Aligned(o: Optimizer) {
    |o.assets| > 0 && |o.assets[0].prices| > 0 &&
    forall i :: 0 <= i < |o.assets| ==> |o.assets[0].prices| <= |o.assets[i].prices|
  }

  function Days(o: Optimizer): (d: nat)
    requires Aligned(o)
    ensures d > 0
  {
    |o.assets[0].prices|
  }

  /** Σ_{i<k} w[i] × price of asset i on day t. */
  function ValueOf(o: Optimizer, w: seq<real>, t: nat, k: nat): real
    requires Aligned(o) && t < Days(o) && k <= |o.assets| && k <= |w|
  {
    if k == 0 then 0.0 else ValueOf(o, w, t, k - 1) + w[k - 1] * o.assets[k - 1].prices[t]
  }

  /** The weighted portfolio value on day t. */
  function PortfolioValue(o: Optimizer, w: seq<real>, t: nat): real
    requires Aligned(o) && t < Days(o) && |w| == |o.assets|
  {
    ValueOf(o, w, t, |o.assets|)
  }

  /** No day's portfolio value is zero, so every daily return is a number. */
  predicate NonZeroValues(o: Optimizer, w: seq<real>)
    requires Aligned(o) && |w| == |o.assets|
  {
    forall t :: 0 <= t < Days(o) ==> PortfolioValue(o, w, t) != 0.0
  }

  /** `calculatePortfolioReturns`: the relative change of the weighted value from each day to the next. */
  function PortfolioReturnsOf(o: Optimizer, w: seq<real>): (r: seq<real>)
    requires Aligned(o) && |w| == |o.assets| && NonZeroValues(o, w)
    ensures |r| == Days(o) - 1
  {
    seq(Days(o) - 1, t requires 0 <= t < Days(o) - 1 =>
      (PortfolioValue(o, w, t + 1) - PortfolioValue(o, w, t)) / PortfolioValue(o, w, t))
  }

  /** `calculatePortfolioPerformance`: 100 on the first day, then the value relative to the first day's, times 100. */
  function PerformanceOf(o: Optimizer, w: seq<real>): (v: seq<real>)
    requires Aligned(o) && |w| == |o.assets| && PortfolioValue(o, w, 0) != 0.0
    ensures |v| == Days(o)
  {
    seq(Days(o), t requires 0 <= t < Days(o) =>
      if t == 0 then 100.0 else PortfolioValue(o, w, t) / PortfolioValue(o, w, 0) * 100.0)
  }

  lemma {:induction false} GrowthIsValueRatio(o: Optimizer, w: seq<real>, t: nat)
    requires Aligned(o) && |w| == |o.assets| && NonZeroValues(o, w) && t < Days(o)
    ensures Growth(PortfolioReturnsOf(o, w), t) == PortfolioValue(o, w, t) / PortfolioValue(o, w, 0)
  {
    if t > 0 {
      GrowthIsValueRatio(o, w, t - 1);
      GrowthFacts(o, w, t);
      RatioStep(PortfolioValue(o, w, 0), PortfolioValue(o, w, t - 1), PortfolioValue(o, w, t),
        PortfolioReturnsOf(o, w)[t - 1], Growth(PortfolioReturnsOf(o, w), t - 1), Growth(PortfolioReturnsOf(o, w), t));
    }
  }

  /** g' is g grown by the return r of the day whose value went from a to b. */
  lemma GrowthFacts(o: Optimizer, w: seq<real>, t: nat)
    requires Aligned(o) && |w| == |o.assets| && NonZeroValues(o, w) && 0 < t < Days(o)
    ensures Compounds(PortfolioValue(o, w, t - 1), PortfolioValue(o, w, t), PortfolioReturnsOf(o, w)[t - 1],
      Growth(PortfolioReturnsOf(o, w), t - 1), Growth(PortfolioReturnsOf(o, w), t))
  {
  }

  /**
   * Performance compounds the daily returns: the value on day t is 100 times
   * the growth of the first t returns.
   */
  lemma PerformanceCompoundsReturns(o: Optimizer, w: seq<real>)
    requires Aligned(o) && |w| == |o.assets| && NonZeroValues(o, w)
    ensures forall t :: 0 <= t < Days(o) ==> PerformanceOf(o, w)[t] == 100.0 * Growth(PortfolioReturnsOf(o, w), t)
  {
    forall t | 0 <= t < Days(o)
      ensures PerformanceOf(o, w)[t] == 100.0 * Growth(PortfolioReturnsOf(o, w), t)
    {
      GrowthIsValueRatio(o, w, t);
      if t == 0 {
        assert Growth(PortfolioReturnsOf(o, w), 0) == 1.0;
      }
    }
  }

  /** The inner loop: the weighted value of the portfolio on day t. */
  method WeightedValue(o: Optimizer, w: seq<real>, t: nat) returns (v: real)
    requires Aligned(o) && t < Days(o) && |w| == |o.assets|
    ensures v == PortfolioValue(o, w, t)
  {
    v := 0.0;
    var i := 0;
    while i < |o.assets|
      invariant 0 <= i <= |o.assets| && v == ValueOf(o, w, t, i)
    {
      v := v + w[i] * o.assets[i].prices[t];
      i := i + 1;
    }
  }

  /** The loops of `calculatePortfolioReturns`. */
  method CalculatePortfolioReturns(o: Optimizer, w: seq<real>) returns (returns_: seq<real>)
    requires Aligned(o) && |w| == |o.assets| && NonZeroValues(o, w)
    ensures returns_ == PortfolioReturnsOf(o, w)
  {
    returns_ := [];
    var t := 1;
    while t < Days(o)
      invariant 1 <= t <= Days(o)
      invariant |returns_| == t - 1
      invariant forall k :: 0 <= k < t - 1 ==> returns_[k] == PortfolioReturnsOf(o, w)[k]
    {
      var previousValue := WeightedValue(o, w, t - 1);
      var currentValue := WeightedValue(o, w, t);
      returns_ := returns_ + [(currentValue - previousValue) / previousValue];
      t := t + 1;
    }
  }

  /** The loops of `calculatePortfolioPerformance`. */
  method CalculatePortfolioPerformance(o: Optimizer, w: seq<real>) returns (values: seq<real>)
    requires Aligned(o) && |w| == |o.assets| && PortfolioValue(o, w, 0) != 0.0
    ensures values == PerformanceOf(o, w)
  {
    var initialValue := WeightedValue(o, w, 0);
    values := [100.0];
    var t := 1;
    while t < Days(o)
      invariant 1 <= t <= Days(o) && |values| == t
      invariant forall k :: 0 <= k < t ==> values[k] == PerformanceOf(o, w)[k]
    {
      var currentValue := WeightedValue(o, w, t);
      values := values + [currentValue / initialValue * 100.0];
      t := t + 1;
    }
  }

  // ---------------------------------------------------------------------
  // Metrics
  // ---------------------------------------------------------------------

  /** The `window.RiskMetrics` collaborator, specified only by its types. */
  datatype RiskMetrics = RiskMetrics(
    calculateSharpeRatio: (real, real, real) -> real,
    calculateCVaR: seq<real> -> real,
    calculateBeta: (seq<real>, seq<real>) -> real)

  datatype Metrics = Metrics(expectedReturn: real, estimatedRisk: real, optimizedSharpe: real, cvarValue: real,
                             betaValue: real, sectorConcentration: real,
                             performance: Option<seq<real>>, marketPerformance: Option<seq<real>>)

  /** `getDefaultMetrics`. */
  function DefaultMetrics(): Metrics {
    Metrics(0.0, 0.0, 0.0, 0.0, 1.0, 0.0, Some([100.0]), Some([100.0]))
  }

  /** The default single-point performance is what a one-day price history gives. */
  lemma DefaultPerformanceIsOneDay(o: Optimizer, w: seq<real>)
    requires Aligned(o) && |w| == |o.assets| && PortfolioValue(o, w, 0) != 0.0 && Days(o) == 1
    ensures PerformanceOf(o, w) == DefaultMetrics().performance.value
  {
    assert PerformanceOf(o, w)[0] == 100.0;
  }

  /** `this.marketData.prices ? calculateReturns(prices) : []`, with `{ prices: [] }` for a missing market. */
  function MarketReturns(pc: Calculator, o: Optimizer): seq<real> {
    match o.market
    case NoMarket => pc.calculateReturns([])
    case MarketWithoutPrices => []
    case MarketPrices(p) => pc.calculateReturns(p)
  }

  /** All assets' daily returns one after another, as `calculateInitialMetrics` pools them. */
  function PooledReturns(assets: seq<Asset>): (r: seq<real>)
    ensures |assets| == 0 ==> r == []
  {
    if assets == [] then [] else PooledReturns(assets[..|assets| - 1]) + assets[|assets| - 1].returns_
  }

  /** Pooling a first part of the assets gives a first part of the pool. */
  lemma {:induction false} PooledReturnsPrefix(assets: seq<Asset>, j: nat)
    requires j <= |assets|
    ensures PooledReturns(assets[..j]) <= PooledReturns(assets)
  {
    if j < |assets| {
      var init := assets[..|assets| - 1];
      PooledReturnsPrefix(init, j);
      assert init[..j] == assets[..j];
    } else {
      assert assets[..j] == assets;
    }
  }

  /** Where asset k's returns start in the pool. */
  function PoolOffset(assets: seq<Asset>, k: nat): nat
    requires k <= |assets|
  {
    |PooledReturns(assets[..k])|
  }

  /** The pool holds every asset's returns, in asset order, one after the other. */
  lemma PooledReturnsContains(assets: seq<Asset>, k: nat)
    requires k < |assets|
    ensures PoolOffset(assets, k) + |assets[k].returns_| == PoolOffset(assets, k + 1) <= |PooledReturns(assets)|
    ensures PooledReturns(assets)[PoolOffset(assets, k)..PoolOffset(assets, k + 1)] == assets[k].returns_
  {
    var upTo := assets[..k + 1];
    assert upTo[..k] == assets[..k];
    assert PooledReturns(upTo) == PooledReturns(assets[..k]) + assets[k].returns_;
    PooledReturnsPrefix(assets, k + 1);
  }

  /**
   * `calculateInitialMetrics`: defaults without assets; otherwise the
   * calculator's return and risk of the current weights, the Sharpe ratio at
   * 4.75%, CVaR and beta of the pooled asset returns, and the sector
   * concentration.
   */
  function InitialMetrics(pc: Calculator, rm: RiskMetrics, o: Optimizer): (m: Metrics)
    requires Valid(o)
    ensures |o.assets| == 0 <==> m == DefaultMetrics()
  {
    if |o.assets| == 0 then DefaultMetrics()
    else
      var w := CurrentWeights(o);
      var ret := pc.calculatePortfolioReturn(w, o.expectedReturns);
      var risk := pc.calculatePortfolioRisk(w, o.covariance);
      var pooled := PooledReturns(o.assets);
      Metrics(ret, risk, rm.calculateSharpeRatio(ret, risk, RiskFreeRate), rm.calculateCVaR(pooled),
              rm.calculateBeta(pooled, MarketReturns(pc, o)), SectorConcentration(o), None, None)
  }

  /**
   * `calculateMetrics`: the metrics of given weights, with CVaR and beta of the
   * weighted daily returns and the base-100 performance series.
   */
  function MetricsOf(pc: Calculator, rm: RiskMetrics, o: Optimizer, w: seq<real>): (m: Metrics)
    requires Valid(o) && Aligned(o) && |w| == |o.assets| && NonZeroValues(o, w)
    ensures m.performance.Some? && |m.performance.value| == Days(o) && m.performance.value[0] == 100.0
    ensures m.marketPerformance.None?
  {
    var ret := pc.calculatePortfolioReturn(w, o.expectedReturns);
    var risk := pc.calculatePortfolioRisk(w, o.covariance);
    var rs := PortfolioReturnsOf(o, w);
    Metrics(ret, risk, rm.calculateSharpeRatio(ret, risk, RiskFreeRate), rm.calculateCVaR(rs),
            rm.calculateBeta(rs, MarketReturns(pc, o)), SectorConcentration(o), Some(PerformanceOf(o, w)), None)
  }

  datatype Optimized = Optimized(details: seq<Detail>, metrics: Metrics, frontier: Frontier)

  /** All the draws `optimizePortfolio` uses: one search, then one per frontier point. */
  predicate OptimizeDraws(o: Optimizer, search: seq<seq<real>>, frontier: seq<seq<seq<real>>>) {
    SearchDraws(o, search) && FrontierDraws(o, frontier)
  }

  /**
   * `optimizePortfolio`: the searched weights as portfolio details, their
   * metrics and the frontier. None without assets, where
   * `calculatePortfolioReturns` reads the prices of an asset that is not there.
   */
  function OptimizePortfolio(pc: Calculator, rm: RiskMetrics, o: Optimizer, target: real, tolerance: real,
                             search: seq<seq<real>>, frontier: seq<seq<seq<real>>>): (r: Option<Optimized>)
    requires Valid(o) && OptimizeDraws(o, search, frontier)
    requires |o.assets| > 0 ==> Aligned(o) && NonZeroValues(o, OptimalWeights(pc, o, target, tolerance, search))
    ensures r.Some? <==> |o.assets| > 0
    ensures r.Some? ==> (|r.value.details| == |o.assets| &&
      forall i :: 0 <= i < |o.assets| ==> r.value.details[i].weight == OptimalWeights(pc, o, target, tolerance, search)[i])
    ensures r.Some? ==> r.value.metrics == MetricsOf(pc, rm, o, OptimalWeights(pc, o, target, tolerance, search))
    ensures r.Some? ==> Some(r.value.frontier) == FrontierOf(pc, o, frontier)
  {
    if |o.assets| == 0 then None
    else
      var w := OptimalWeights(pc, o, target, tolerance, search);
      Some(Optimized(PortfolioDetails(o, w), MetricsOf(pc, rm, o, w), FrontierOf(pc, o, frontier).value))
  }
}
