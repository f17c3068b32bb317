# Portfolio analytics — a Dafny model

This project models the numerical core of a portfolio-management web
application. Users build portfolios of stocks and commodities, and the
application computes figures about them:

- returns, covariance and correlation matrices;
- Sharpe, Treynor and alpha/beta figures;
- volatility, drawdown, VaR and CVaR;
- sector concentration, risk parity and momentum/RSI signals;
- an efficient frontier, and a simple gradient and random-search optimiser;
- Monte-Carlo paths through a Cholesky factor.

The model covers the browser-side optimiser and simulator
(`js/optimization.js`), the module optimiser
(`js/modules/PortfolioOptimizer.js`), the analytics helpers and request
handlers of `routes/assets.js` and `routes/portfolios.js`, the
optimisation service (`services/OptimizationService.js`), and the
form arithmetic and HTML escaping of `js/portfolio.js`.

One Dafny module covers each source file. The Monte-Carlo simulator and
the weight simulator of `js/optimization.js` have their own modules. Three
modules hold shared helpers:

- `Numerics`: sums, dot products, simple returns, clamping, Cauchy–Schwarz;
- `Sorting`: the numeric sort and tail means;
- `Sectors`: per-sector weight totals and concentration.

Conventions of the model:

- Reals are exact. `Math.sqrt` and fractional `Math.pow` are function
  parameters. A lemma that needs them takes the hypothesis `IsSqrt(sqrt)`:
  an exact non-negative square root on non-negative inputs.
- `Math.random` and normal draws are inputs: sequences of draws passed in.
- Where JavaScript would produce `NaN` or `Infinity` and let it flow on, the
  model returns `None` (or a three-way reading for RSI). Where the source
  divides by a quantity that its callers always keep non-zero, that
  quantity is a `requires`.
- Weights entered as percentages are divided by 100, as in the source.
- Loops become methods with invariants, each proved against a
  specification function. The lemmas are stated about those functions.
- The JavaScript classes set their fields only in constructors. They are
  datatypes with a building function.

## Model

| member | source | states |
|---|---|---|
| AssetHandlers.GroupPortfolios | routes/assets.js:167-194 | the reduce over the join rows followed by `Object.values` returns exactly the values of the grouped map, keys in ascending order |
| AssetHandlers.GroupedMapSummary | routes/assets.js:167-192 | the accumulator has a key for exactly the portfolios the rows mention, and each key maps to that portfolio's first-row columns with the details of all its rows |
| AssetHandlers.GroupPortfoliosSpec | routes/assets.js:167-194 | one record per mentioned portfolio, in ascending id order, each its first row's columns with the details of its rows in row order |
| AssetHandlers.LoneHeaderRow | routes/assets.js:168-179 | a portfolio whose only row has no detail (null detail id) still gets a record, with no details |
| AssetHandlers.SortedKeys | routes/assets.js:194 | `Object.values` visits integer keys in ascending order: the listed keys are strictly increasing and are exactly the map's keys |
| AssetHandlers.CreatedExactly | routes/assets.js:75-105 | the portfolio is created exactly when it has a name and a non-empty asset array each with a type, symbol, quantity and price; its value is then Σ quantity × price |
| AssetHandlers.FirstIncomplete | routes/assets.js:84-91 | the validation stops at the first asset missing a field: every earlier one is complete |
| AssetHandlers.ValuePositive | routes/assets.js:100-105 | with positive quantities and prices the total value is positive |
| AssetHandlers.CreatePortfolio | routes/assets.js:75-105 | the three 400 checks in order and the value loop give exactly the outcome defined by the checks |
| AssetMetrics.Days | routes/assets.js:32-37 | each reporting period has between 21 and 252 trading days (21, 63, 126, 252) |
| AssetMetrics.Factor | routes/assets.js:32-37 | each period's factor is its share of a 252-day year: factor × 252 equals its trading days, and lies in (0, 1] |
| AssetMetrics.SharpeRatio | routes/assets.js:397-403 | 0 for zero volatility; otherwise the ratio times the volatility is the return in excess of the period's compounded 3.5% risk-free rate |
| AssetMetrics.TreynorRatio | routes/assets.js:406-412 | 0 for zero beta; otherwise the ratio times beta is the excess return over the period's risk-free rate |
| AssetMetrics.SharpeRatioMonotone | routes/assets.js:397-403 | with positive volatility a higher return never gives a lower Sharpe ratio |
| AssetMetrics.Alpha | routes/assets.js:389-394 | Jensen's alpha is 0 exactly when the return equals what the pricing model expects, rf + β(market − rf) at the period's compounded risk-free rate, and positive exactly when the return exceeds it |
| AssetMetrics.AlphaOfMarketSeries | routes/assets.js:389-394 | a market series measured against itself has beta 1 and, at its own annualised return, an alpha of 0 |
| AssetMetrics.PearsonSums | routes/assets.js:366-380 | the two deviation sums, each mean taken over the shorter length n, are never negative |
| AssetMetrics.ClampedQuotient | routes/assets.js:382-385 | the final step returns a value in [−1, 1] (0 when a deviation sum is 0) |
| AssetMetrics.Correlation | routes/assets.js:363-386 | the correlation always lies in [−1, 1] and is 0 when either series has fewer than 2 points |
| AssetMetrics.CorrelationDegenerate | routes/assets.js:382 | a zero deviation sum gives correlation 0 |
| AssetMetrics.CorrelationUnclamped | routes/assets.js:384-385 | with an exact square root the clamp never cuts: by Cauchy–Schwarz the result is the plain Pearson quotient |
| AssetMetrics.ClampInactive | routes/assets.js:384-385 | when num² ≤ d1·d2 the clamp leaves num / √(d1·d2) unchanged |
| AssetMetrics.CorrelationSymmetric | routes/assets.js:363-386 | swapping the two series does not change the correlation |
| AssetMetrics.CorrelationWithItself | routes/assets.js:363-386 | a series with spread has correlation exactly 1 with itself |
| AssetMetrics.CalculateCorrelation | routes/assets.js:363-386 | the accumulation loop returns exactly the correlation defined above |
| AssetMetrics.CorrelationEntry | routes/assets.js:343-353 | every matrix entry lies in [−1, 1] and the diagonal is exactly 1 |
| AssetMetrics.CorrelationEntrySymmetric | routes/assets.js:343-353 | entry (i, j) equals entry (j, i) |
| AssetMetrics.CalculateCorrelationMatrix | routes/assets.js:338-360 | the nested loops return the symbols in input order and an N×N symmetric matrix whose entries are the correlations, 1 on the diagonal |
| AssetMetrics.Covariance | routes/assets.js:713-728 | 0 when the lengths differ or there are fewer than 2 points |
| AssetMetrics.CovarianceSymmetric | routes/assets.js:713-728 | the covariance does not depend on the order of its arguments |
| AssetMetrics.VarianceNonNegative | routes/assets.js:713-728 | the covariance of a series with itself is never negative |
| AssetMetrics.CalculateCovariance | routes/assets.js:713-728 | the loop returns the sample covariance annualised by 252 |
| AssetMetrics.Beta | routes/assets.js:652-675 | 1 when either series is empty; no number (NaN) exactly when both are non-empty and the common length is 1, where the loop divides by length − 1 = 0 |
| AssetMetrics.BetaOfMarket | routes/assets.js:652-675 | the market's beta against itself is 1 |
| AssetMetrics.BetaOfFlatMarket | routes/assets.js:674 | a market with zero variance over the common length gives beta 1 |
| AssetMetrics.CalculateBeta | routes/assets.js:652-675 | the loop returns exactly the beta defined above |
| AssetMetrics.AnnualizedReturn | routes/assets.js:473-481 | 0 for no returns |
| AssetMetrics.AnnualizedReturnOfPrices | routes/assets.js:473-481 | over the simple returns of a price series the annualised return is (last / first)^(252 / number of returns) − 1 |
| AssetMetrics.Window | routes/assets.js:488 | the window holds the last min(length, days) returns, in order |
| AssetMetrics.SampleVariance | routes/assets.js:493-496 | the sample variance is never negative |
| AssetMetrics.AnnualizedVolatility | routes/assets.js:484-502 | 0 with fewer than two returns, and never negative |
| AssetMetrics.AnnualizedVolatilityWindow | routes/assets.js:484-502 | the volatility reads only the period's last `days` returns |
| AssetMetrics.CovarianceWithItself | routes/assets.js:713-728 | a series' covariance with itself is its sample variance times 252 |
| AssetMetrics.AnnualizedVolatilitySquared | routes/assets.js:484-502 | the squared annualised volatility equals the annualised covariance of the period window with itself |
| AssetMetrics.Peak | routes/assets.js:509-514 | the running peak is the highest of the prices seen so far and is one of them |
| AssetMetrics.PeakNonDecreasing | routes/assets.js:509-514 | the running peak never decreases |
| AssetMetrics.MaxDrawdown | routes/assets.js:505-522 | 0 with fewer than 2 prices |
| AssetMetrics.PositiveStartPeaks | routes/assets.js:509-516 | a positive first price keeps every peak the loop divides by non-zero |
| AssetMetrics.MaxDrawdownIsLargest | routes/assets.js:505-522 | the result is the largest fall below a running peak: no price falls further, and one falls that far unless the result is 0 |
| AssetMetrics.MaxDrawdownBounds | routes/assets.js:505-522 | with positive prices the maximum drawdown lies in [0, 1) |
| AssetMetrics.MaxDrawdownOfRisingPrices | routes/assets.js:505-522 | prices that never fall have drawdown 0 |
| AssetMetrics.CalculateMaxDrawdown | routes/assets.js:505-522 | the loop returns exactly the maximum drawdown defined above |
| AssetMetrics.DailyReturns | routes/assets.js:546-579 | at most one return per consecutive pair of prices |
| AssetMetrics.DailyReturnsComplete | routes/assets.js:556-569 | every pair yields a return exactly when both prices parse and the earlier one is not 0 |
| AssetMetrics.DailyReturnsSimple | routes/assets.js:556-569 | when every price parses and no earlier price is 0, the daily returns are the simple returns (p[i] − p[i−1]) / p[i−1] |
| AssetMetrics.CalculateDailyReturns | routes/assets.js:546-579 | the loop with its `continue` returns exactly the daily returns defined above |
| AssetMetrics.PortfolioVolatility | routes/assets.js:678-710 | no number (NaN) exactly when there are holdings and the accumulated variance is negative |
| AssetMetrics.RootOf | routes/assets.js:709 | the square root has no value exactly for a negative total |
| AssetMetrics.ContributionIsWeightedVariance | routes/assets.js:685-690 | each holding contributes w² times the annualised variance of its period returns |
| AssetMetrics.PortfolioVolatilityOfOne | routes/assets.js:678-710 | a one-holding portfolio's volatility is |w| times the holding's own annualised volatility |
| AssetMetrics.CalculatePortfolioVolatility | routes/assets.js:678-710 | the contributions loop and the i < j pair loops compute Σ w_i²σ_i² + 2 Σ w_i w_j Cov(R_i, R_j) and its root |
| AssetMetrics.PortfolioMaxDrawdownBetween | routes/assets.js:582-591 | with non-negative weights and every drawdown in [lo, hi], the weighted sum lies between lo and hi times the total weight as a fraction |
| AssetMetrics.PortfolioMaxDrawdown | routes/assets.js:582-591 | with non-negative weights and drawdowns the weighted sum is non-negative |
| AssetMetrics.PortfolioMaxDrawdownAverages | routes/assets.js:582-591 | with weights summing to 100 the portfolio drawdown lies between the smallest and largest holding drawdown |
| AssetMetrics.SectorRecommendationsSelect | routes/assets.js:1034-1063 | the recommendations are exactly the candidates, in their order, whose sector the portfolio holds with total weight below 0.1, with no correlation and no prices |
| AssetMetrics.SectorRecommendations | routes/assets.js:1034-1063 | no more recommendations than candidates |
| ModuleOptimizer.ValidateData | js/modules/PortfolioOptimizer.js:10-32 | refuses missing data; uses portfolio_details, else assets, when present (refusing a non-array); falls back to metrics.portfolio_details or []; refuses data with none of the three |
| ModuleOptimizer.WeightOf | js/modules/PortfolioOptimizer.js:55 | the percentage weight divided by 100 (weight·100 = input), 0 when the weight is missing |
| ModuleOptimizer.ProcessAssetsKeepsPriced | js/modules/PortfolioOptimizer.js:50-71 | one prepared asset per input asset with prices, in input order, with its prices, its weight divided by 100 and the calculator's returns; empty exactly when no input has prices |
| ModuleOptimizer.ProcessAssets | js/modules/PortfolioOptimizer.js:50-71 | no more prepared assets than input assets, and each prepared asset has at least one price |
| ModuleOptimizer.CovarianceMatrixOf | js/modules/PortfolioOptimizer.js:73-91 | N×N, entry [i][j] being the calculator's covariance of assets i and j |
| ModuleOptimizer.CovarianceMatrixSymmetric | js/modules/PortfolioOptimizer.js:81-88 | a symmetric covariance operation gives a symmetric matrix |
| ModuleOptimizer.CalculateCovarianceMatrix | js/modules/PortfolioOptimizer.js:73-91 | the nested loops fill exactly `CovarianceMatrixOf` (empty without assets) |
| ModuleOptimizer.ExpectedReturns | js/modules/PortfolioOptimizer.js:93-107 | one annualised expected return (1+mean)^252 − 1 per asset, 0 without returns |
| ModuleOptimizer.ExpectedReturnSign | js/modules/PortfolioOptimizer.js:101-102 | compounding keeps the sign: a non-negative mean gives a non-negative return, a mean in [−1,0] a return in [−1,0] |
| ModuleOptimizer.NewOptimizer | js/modules/PortfolioOptimizer.js:2-48 | fails exactly when validation fails; otherwise the assets are the processed rows, the covariance and expected returns are computed from them and the market is kept |
| ModuleOptimizer.SectorConcentrationIsLargestSector | js/modules/PortfolioOptimizer.js:183-192 | the largest per-sector weight sum (not an HHI): at least every named sector's sum, equal to one of them unless 0, and 0 when no asset has a sector |
| ModuleOptimizer.SectorConcentration | js/modules/PortfolioOptimizer.js:183-192 | the concentration is never negative |
| ModuleOptimizer.RandomWeights | js/modules/PortfolioOptimizer.js:241-262 | n weights |
| ModuleOptimizer.RandomWeightsSumToOne | js/modules/PortfolioOptimizer.js:241-262 | the weights of a non-empty portfolio sum to exactly 1 whatever the draws |
| ModuleOptimizer.RemainingBounds | js/modules/PortfolioOptimizer.js:251-256 | the weight still to hand out stays between 0 and the initial remainder |
| ModuleOptimizer.AllocationBounds | js/modules/PortfolioOptimizer.js:252-254 | each allocation lies between 0 and maxWeight − minWeight |
| ModuleOptimizer.RandomWeightsBounds | js/modules/PortfolioOptimizer.js:247-259 | with n·minWeight ≤ 1 and draws in [0,1): every weight ≥ minWeight, the first n−1 ≤ maxWeight, the last ≤ 1 − (n−1)·minWeight and not capped at maxWeight |
| ModuleOptimizer.RandomWeightsSingleAsset | js/modules/PortfolioOptimizer.js:247-259 | a single asset gets weight 1, above the 0.40 cap |
| ModuleOptimizer.GenerateRandomWeights | js/modules/PortfolioOptimizer.js:241-262 | the loop over a fresh array computes `RandomWeights` |
| ModuleOptimizer.CurrentWeights | js/modules/PortfolioOptimizer.js:197 | the assets' weights in order |
| ModuleOptimizer.SquaresBelowSum | js/modules/PortfolioOptimizer.js:266 | for weights in [0,1], Σw² ≤ Σw |
| ModuleOptimizer.PenaltyBounds | js/modules/PortfolioOptimizer.js:264-267 | the penalty Σw² of weights in [0,1] summing to 1 lies in [1/n, 1], so it is ≥ 0 |
| ModuleOptimizer.Penalty | js/modules/PortfolioOptimizer.js:264-267 | Σw² is never negative, and 0 for no weights |
| ModuleOptimizer.ScoreRewardsRiskAboveOne | js/modules/PortfolioOptimizer.js:223-225 | above tolerance 1 the risk term changes sign: of two equally returning candidates the riskier scores lower |
| ModuleOptimizer.Score | js/modules/PortfolioOptimizer.js:223-225 | with a tolerance of at most 1 and a non-negative risk the score is non-negative |
| ModuleOptimizer.FirstMinimum | js/modules/PortfolioOptimizer.js:227-230 | the kept index is one of the candidates |
| ModuleOptimizer.FirstMinimumIsFirstBest | js/modules/PortfolioOptimizer.js:227-230 | the kept candidate scores ≤ every candidate and < every earlier one (strict `<` keeps the first of equal scores) |
| ModuleOptimizer.OptimalWeightsIsBestCandidate | js/modules/PortfolioOptimizer.js:194-239 | current weights when the covariance is empty; otherwise the first lowest-scoring candidate, summing to 1, with every weight ≥ 0.05 and all but the last ≤ 0.40 for up to 20 assets and draws in [0,1) |
| ModuleOptimizer.FindOptimalWeights | js/modules/PortfolioOptimizer.js:194-239 | the 10000-iteration loop with bestScore = Infinity computes `OptimalWeights` |
| ModuleOptimizer.OptimalWeights | js/modules/PortfolioOptimizer.js:194-239 | for a well-formed optimiser the result has one weight per asset |
| ModuleOptimizer.CurrentReturnBetween | js/modules/PortfolioOptimizer.js:269-272 | with non-negative weights summing to 1 the current return lies between the smallest and largest expected return |
| ModuleOptimizer.FrontierTargetsSpan | js/modules/PortfolioOptimizer.js:317-324 | target 0 is min, target 20 is max, and the targets never decrease |
| ModuleOptimizer.FrontierSweepsReturns | js/modules/PortfolioOptimizer.js:315-355 | the frontier exists exactly when there are assets; its 21 points' return_ are the targets (not the achieved returns), from min to max non-decreasing, each with the search's weights and their risk |
| ModuleOptimizer.FrontierOf | js/modules/PortfolioOptimizer.js:315-355 | a frontier exists exactly when there are assets, and then has 21 points |
| ModuleOptimizer.CalculateEfficientFrontier | js/modules/PortfolioOptimizer.js:315-355 | the 21-step loop computes `FrontierOf` |
| ModuleOptimizer.PortfolioDetails | js/modules/PortfolioOptimizer.js:274-282 | one detail per asset with its symbol, new weight, sector, last price and expected return |
| ModuleOptimizer.PortfolioReturnsOf | js/modules/PortfolioOptimizer.js:357-382 | one return per day after the first |
| ModuleOptimizer.PerformanceOf | js/modules/PortfolioOptimizer.js:384-408 | one value per price index |
| ModuleOptimizer.GrowthIsValueRatio | js/modules/PortfolioOptimizer.js:362-379 | compounding the first t daily returns gives the ratio of the day-t value to the day-0 value |
| ModuleOptimizer.PerformanceCompoundsReturns | js/modules/PortfolioOptimizer.js:384-408 | values[t] = 100·Π_{s<t}(1+r_s), so the first is 100 and each is 100·Σw p_t / Σw p_0 |
| ModuleOptimizer.WeightedValue | js/modules/PortfolioOptimizer.js:367-374 | the inner loop computes Σ_i w_i·price_i(t) |
| ModuleOptimizer.CalculatePortfolioReturns | js/modules/PortfolioOptimizer.js:357-382 | the loops compute `PortfolioReturnsOf` |
| ModuleOptimizer.CalculatePortfolioPerformance | js/modules/PortfolioOptimizer.js:384-408 | the loops compute `PerformanceOf` |
| ModuleOptimizer.DefaultPerformanceIsOneDay | js/modules/PortfolioOptimizer.js:410-421 | the default single-point performance [100] is what a one-day price history gives |
| ModuleOptimizer.PooledReturns | js/modules/PortfolioOptimizer.js:153-158 | no assets pool no returns |
| ModuleOptimizer.PooledReturnsContains | js/modules/PortfolioOptimizer.js:153-158 | the pool holds every asset's returns, in asset order, back to back |
| ModuleOptimizer.InitialMetrics | js/modules/PortfolioOptimizer.js:129-181 | the default metrics exactly when there are no assets |
| ModuleOptimizer.MetricsOf | js/modules/PortfolioOptimizer.js:284-313 | the performance series has one value per day and starts at 100 |
| ModuleOptimizer.OptimizePortfolio | js/modules/PortfolioOptimizer.js:109-127 | defined exactly when there are assets; the details, metrics and frontier are those of the searched weights |
| MonteCarlo.NewSimulator | js/optimization.js:824-833 | throws (None) exactly when the portfolio or its asset array is missing; otherwise keeps the portfolio, iterations and horizon |
| MonteCarlo.SimulatedReturns | js/optimization.js:835-844 | one row per asset, every return being its standard-normal draw × 0.02 |
| MonteCarlo.CalculateReturns | js/optimization.js:835-844 | the loop builds one row of 252 returns per asset, each draw × 0.02 |
| MonteCarlo.SimulatedMean | js/optimization.js:840 | scaling the draws by 0.02 scales their mean by 0.02 |
| MonteCarlo.CovarianceOf | js/optimization.js:846-857 | the matrix is n×n for n return rows |
| MonteCarlo.CovarianceOfCorrelation | js/optimization.js:846-857 | a symmetric correlation matrix gives a symmetric covariance; a unit diagonal gives variance 0.0004; entries stay within ±0.0004 |
| MonteCarlo.CalculateCovariance | js/optimization.js:846-857 | the nested loops fill correlation[i][j]·0.02·0.02 for every i, j |
| MonteCarlo.CholeskyFactor | js/optimization.js:951-967 | the factor is finite exactly when every entry on or below the diagonal is, and is then n×n |
| MonteCarlo.CholeskyLowerTriangular | js/optimization.js:951-967 | L[i][j] = 0 for j > i and every diagonal entry is ≥ 0 (the clamp at 0 before the square root) |
| MonteCarlo.CholeskyDiagonal | js/optimization.js:961-962 | a diagonal entry is sqrt(max(0, m[i][i] − Σ)) ≥ 0 |
| MonteCarlo.CholeskyReproduces | js/optimization.js:955-964 | L·Lᵀ reproduces m below the diagonal, and on the diagonal wherever the clamp did not apply |
| MonteCarlo.Cholesky | js/optimization.js:951-967 | the triple loop computes `CholeskyFactor`, stopping at the first non-finite entry |
| MonteCarlo.CholeskyCell | js/optimization.js:957-963 | one entry L[i][j] from the entries computed before it |
| MonteCarlo.CholeskySum | js/optimization.js:957-960 | the innermost loop computes Σ_{k<j} L[i][k]·L[j][k] |
| MonteCarlo.MatVec | js/optimization.js:969-973 | one entry per row, each Σ_k row[k]·v[k] |
| MonteCarlo.CorrelatedShockCausal | js/optimization.js:899-907 | the i-th correlated shock L·z depends only on the draws z[0..i] |
| MonteCarlo.PathStepSplits | js/optimization.js:910-911 | a day's return is the weighted mean return plus the weighted correlated shock |
| MonteCarlo.MeanReturns | js/optimization.js:896 | one mean per return row |
| MonteCarlo.PathOf | js/optimization.js:894-915 | a finite path has one return per day of the horizon |
| MonteCarlo.GeneratePath | js/optimization.js:894-915 | the day loop computes `PathOf`: Σ_i (mean_i + (L·z_t)_i)·w_i for every day t |
| MonteCarlo.FinalValue | js/optimization.js:976-987 | 0 for an empty path |
| MonteCarlo.CalculateFinalValue | js/optimization.js:976-987 | the compounding loop computes Π(1+r_t) − 1 |
| MonteCarlo.FinalValueCompounds | js/optimization.js:976-987 | compounding two paths one after the other multiplies their growth factors |
| MonteCarlo.FinalValueAtLeastMinusOne | js/optimization.js:976-987 | when no day loses more than everything the terminal return is ≥ −1 |
| MonteCarlo.QuantileIndexBounds | js/optimization.js:935-938 | ⌊n·q⌋ is an index of the series for q in [0,1) |
| MonteCarlo.MedianIndexBetween | js/optimization.js:921 | the median index ⌊n/2⌋ lies between the 25th and 75th percentile indices |
| MonteCarlo.AnalyzeResults | js/optimization.js:918-941 | the volatility is defined exactly for two or more results |
| MonteCarlo.SummaryIndicesOrdered | js/optimization.js:918-941 | the percentile indices are ordered and inside the series |
| MonteCarlo.AnalyzeResultsOrdered | js/optimization.js:918-941 | min ≤ p5 ≤ p25 ≤ median ≤ p75 ≤ p95 ≤ max |
| MonteCarlo.AnalyzeResultsBounds | js/optimization.js:918-941 | min and max are results bounding all results, the mean lies between them, the volatility is ≥ 0 |
| MonteCarlo.VaR | js/optimization.js:990-994 | defined exactly when ⌊n(1−c)⌋ indexes the sorted results |
| MonteCarlo.CVaR | js/optimization.js:997-1002 | undefined (0/0) exactly when ⌊n(1−c)⌋ is 0 |
| MonteCarlo.CVaRAtMostVaR | js/optimization.js:990-1002 | with a non-empty tail inside the series CVaR ≤ VaR, CVaR ≥ the minimum, and VaR is one of the results |
| MonteCarlo.VaRMonotone | js/optimization.js:990-994 | a higher confidence gives an equal or lower VaR |
| MonteCarlo.CutoffMonotone | js/optimization.js:992 | a higher confidence leaves an equal or smaller tail |
| MonteCarlo.CalculateVaR | js/optimization.js:990-994 | sorts a copy, leaves the caller's array unchanged, and returns `VaR` of its contents |
| MonteCarlo.CalculateCVaR | js/optimization.js:997-1002 | sorts a copy, leaves the caller's array unchanged, and returns `CVaR` of its contents |
| MonteCarlo.DefaultConfidenceLevels | js/optimization.js:885-889 | with 10000 results the tails hold 500 and 100 results, CVaR95 ≤ VaR95 and VaR99 ≤ VaR95 |
| MonteCarlo.SimulatedResults | js/optimization.js:868-876 | one terminal return per iteration |
| MonteCarlo.Simulate | js/optimization.js:859-891 | the results are the terminal returns of every path, the analysis is their summary, and the confidence fields are VaR95, VaR99 and CVaR95 of the results |
| MonteCarlo.RunPaths | js/optimization.js:868-876 | the iteration loop yields one terminal return per iteration, each the final value of that iteration's path, and fails exactly when the Cholesky factor is not finite and there is at least one iteration |
| OptimizationService.PositiveReturns | services/OptimizationService.js:220-228 | at most one return per consecutive pair of prices |
| OptimizationService.CalculateReturns | services/OptimizationService.js:220-228 | the loop returns exactly the returns of the pairs whose two prices are positive, in order |
| OptimizationService.PositiveReturnsAboveMinusOne | services/OptimizationService.js:223-224 | every return the service keeps is above −1 |
| OptimizationService.PositiveReturnsOfPositivePrices | services/OptimizationService.js:220-228 | over positive prices no pair is skipped: the result is the simple returns |
| OptimizationService.Correlation | services/OptimizationService.js:230-232 | 0 when the shorter series has fewer than 2 points |
| OptimizationService.CorrelationAgrees | services/OptimizationService.js:230-248 | where defined, the unguarded correlation equals the assets route's clamped one and lies in [−1, 1]; it is NaN exactly when the series have 2 or more points and a deviation sum is 0 |
| OptimizationService.CalculateCorrelation | services/OptimizationService.js:230-248 | the loop returns exactly the correlation defined above |
| OptimizationService.CleanSymbol | services/OptimizationService.js:68 | cleansing never lengthens the symbol |
| OptimizationService.CleanSymbolAllowed | services/OptimizationService.js:68 | only the characters A–Z and 0–9 remain |
| OptimizationService.CleanSymbolAppend | services/OptimizationService.js:68 | cleansing distributes over concatenation, so allowed characters keep their order |
| OptimizationService.CleanSymbolUnchanged | services/OptimizationService.js:68 | a symbol is left unchanged exactly when all its characters are allowed |
| OptimizationService.CleanSymbolIdempotent | services/OptimizationService.js:68 | cleansing twice is cleansing once |
| OptimizationService.TableFor | services/OptimizationService.js:71 | the stock table is chosen exactly for type 'STOCK', the commodity table for every other type |
| OptimizationService.Flat | services/OptimizationService.js:95 | the fallback series has 30 entries, all the given price |
| OptimizationService.FallbackReturns | services/OptimizationService.js:82-101 | a fallback series (30 copies of the current price, or of 100) yields 29 zero returns |
| OptimizationService.InsertByCorrelation | services/OptimizationService.js:215-216 | inserting into a list sorted by average correlation keeps it sorted and adds exactly that row |
| OptimizationService.SortByCorrelation | services/OptimizationService.js:215-216 | the rows come out in ascending average correlation, a permutation of the input |
| OptimizationService.LowestFiveSpec | services/OptimizationService.js:215-217 | at most five rows (min(5, n)), ascending by average correlation, each from the input, none above a row left out |
| OptimizationService.LowestFive | services/OptimizationService.js:215-217 | exactly min(5, n) rows |
| OptimizationService.Correlations | services/OptimizationService.js:200-202 | when no correlation is NaN there is one per holding, each the candidate's correlation with that holding's returns |
| OptimizationService.AverageCorrelationBounded | services/OptimizationService.js:200-209 | a defined average correlation lies in [−1, 1] |
| OptimizationService.AverageCorrelation | services/OptimizationService.js:200-209 | no value exactly when there is no holding or some holding's correlation is NaN |
| OptimizationService.TotalValueAppend | services/OptimizationService.js:28-41 | the total value of two lists of holdings is the sum of their totals |
| OptimizationService.TotalValue | services/OptimizationService.js:28-41 | with non-negative quantities and prices (current price, else purchase price) the total is non-negative |
| OptimizationService.CurrentValue | services/OptimizationService.js:28-41 | a holding with non-negative quantity and price has a non-negative current value |
| PageOptimizer.CalculateReturns | js/optimization.js:103-109 | exactly len(prices)−1 returns (none for no prices), entry i being (p[i+1]−p[i])/p[i]; equal to the shared `SimpleReturns` |
| PageOptimizer.ToAsset | js/optimization.js:34-40 | the stored weight is the percentage divided by 100 (weight·100 = row weight); one return fewer than prices; sector kept |
| PageOptimizer.KeepCorrect | js/optimization.js:28-41 | the map/filter keeps exactly the rows that have prices (count), each as a well-formed asset, and yields nothing exactly when no row has prices |
| PageOptimizer.Build | js/optimization.js:13-50 | throws "invalid portfolio" exactly when the details are missing, "market data missing" exactly when the market prices are missing, "no valid asset" exactly when no row has prices; otherwise the optimiser holds one asset per priced row, an N×N symmetric covariance matrix and the expected returns |
| PageOptimizer.SampleCovarianceSymmetric | js/optimization.js:258-278 | the covariance is symmetric in its two series |
| PageOptimizer.SampleCovarianceSelf | js/optimization.js:258-278 | a series' covariance with itself is ≥ 0 |
| PageOptimizer.CalculateCovariance | js/optimization.js:258-278 | 0 when either series is empty; otherwise Σ over the first min(len1,len2) pairs of centred products (each centred on its whole-series mean) divided by n−1 |
| PageOptimizer.CovarianceMatrixOf | js/optimization.js:117-133 | the matrix is N×N and entry [i][j] is the covariance of series i and j |
| PageOptimizer.CovarianceMatrixShape | js/optimization.js:117-133 | the matrix is N×N, symmetric, with a non-negative diagonal |
| PageOptimizer.CalculateCovarianceMatrix | js/optimization.js:112-135 | throws (None) exactly when there are no assets; otherwise the nested loops fill exactly `CovarianceMatrixOf` |
| PageOptimizer.ExpectedReturn | js/optimization.js:138-146 | 0 for an asset without returns, else the mean return |
| PageOptimizer.ExpectedReturns | js/optimization.js:138-146 | one expected return per asset, in asset order |
| PageOptimizer.ExpectedReturnWithinRange | js/optimization.js:145 | the mean return lies between the asset's smallest and largest return |
| PageOptimizer.PortfolioReturnOfEqualAssets | js/optimization.js:364-366 | the reduce Σ w_i·er_i returns c when every expected return is c and the weights sum to 1 |
| PageOptimizer.CalculatePortfolioRisk | js/optimization.js:324-361 | 0 when weights or covariance are missing; otherwise sqrt(max(0, Σ w_i w_j Σ_ij)) with missing or zero entries skipped, so it is never negative and its square is the clipped quadratic form |
| PageOptimizer.PortfolioRiskOf | js/optimization.js:356 | `Math.sqrt(Math.max(0, risk))` is never negative and its square is the quadratic form clipped at 0 |
| PageOptimizer.RiskHomogeneous | js/optimization.js:346-356 | scaling every weight by c scales the portfolio risk by \|c\| |
| PageOptimizer.SectorConcentration | js/optimization.js:75-87 | the Herfindahl index of the per-sector weight sums, never negative |
| PageOptimizer.SectorConcentrationTerms | js/optimization.js:75-87 | assets without a sector are ignored; each sector appears once with the sum of its assets' weights |
| PageOptimizer.RiskMultiplier | js/optimization.js:223-227 | defined exactly for 'low', 'medium' and 'high' (0.5, 1.0, 1.5) |
| PageOptimizer.Gradients | js/optimization.js:281-301 | one gradient entry per weight |
| PageOptimizer.CalculateGradients | js/optimization.js:281-301 | the two loops compute 2·mult·Σ_j cov[i][j]·w_j + 2(wᵀμ − target)·μ_i for every i |
| PageOptimizer.RiskGradients | js/optimization.js:286-290 | the nested loop leaves entry i equal to Σ_j 2·cov[i][j]·w_j·mult |
| PageOptimizer.Clipped | js/optimization.js:244-247 | every clamped weight lies in [0, 1] |
| PageOptimizer.StepNormalised | js/optimization.js:244-251 | a step that does not divide by a zero sum yields weights in [0, 1] summing to 1 |
| PageOptimizer.RunNormalised | js/optimization.js:233-252 | after one or more defined iterations the weights are in [0, 1] and sum to 1 |
| PageOptimizer.OptimisedWeightsNormalised | js/optimization.js:218-255 | whenever the optimiser returns weights for a non-empty portfolio they are long-only, at most 1 and sum to 1 |
| PageOptimizer.SimplifiedOptimization | js/optimization.js:218-255 | the 1000-iteration loop from equal weights computes `OptimisedWeights`; an unknown tolerance gives NaN weights (None) |
| PageOptimizer.UpdateWeights | js/optimization.js:244-251 | one loop body: gradient step, clamp to [0,1], divide by the sum (None on a zero sum) |
| PageOptimizer.RunStaysUndefined | js/optimization.js:233-252 | once the weights are NaN every later iteration leaves them NaN |
| PageOptimizer.FrontierTargetsSweep | js/optimization.js:178-179 | target i is (i/100)·top, the caller passing top = max(er): the first is 0, the last is the largest expected return, non-decreasing when that is ≥ 0 |
| PageOptimizer.FrontierPointBounded | js/optimization.js:180-190 | every frontier point's return lies within the range of the expected returns and its risk is ≥ 0 |
| PageOptimizer.CalculateEfficientFrontier | js/optimization.js:172-196 | 101 points, point i being the optimiser's 'medium' weights for target i with their risk and return |
| PageOptimizer.ComputeFrontierPoint | js/optimization.js:179-192 | one pass of the frontier loop equals `FrontierPointAt` |
| PageOptimizer.SharpeAsWritten | js/optimization.js:90-100 | as written: ratio × sqrt(portfolio risk) = excess return, although the risk is already a standard deviation |
| PageOptimizer.SharpeRatio | js/optimization.js:312-314 | the corrected ratio: ratio × portfolio standard deviation = excess return over 4.75% |
| PageOptimizer.SharpeAsWrittenDiffers | js/optimization.js:95-99 | on a one-asset portfolio with standard deviation 0.04 the as-written ratio is 0.2625 where the ratio is 1.3125 |
| PageOptimizer.CalculateCVaR | js/optimization.js:369-374 | sorts the CALLER's array in place (its new contents are the sorted old contents) and returns the mean of the first ⌊(1−c)·n⌋ sorted values, None when that count is 0 |
| PageOptimizer.CVaRWithinTail | js/optimization.js:370-373 | the CVaR lies between the minimum and the sorted value at the cutoff |
| PageOptimizer.Variance | js/optimization.js:470-474 | no number (0 / 0) exactly for a single value; an empty series divides 0 by −1 and gives 0 |
| PageOptimizer.VarianceIsSelfCovariance | js/optimization.js:470-474 | wherever defined, the variance is the series' covariance with itself, hence ≥ 0 |
| PageOptimizer.BetaOf | js/optimization.js:433-446 | no finite beta exactly when the market series has fewer than two returns, the portfolio has exactly one, or the market variance is 0; otherwise beta × market variance is the covariance |
| PageOptimizer.BetaOfItself | js/optimization.js:433-446 | a series' beta against itself is 1 whenever defined (and is defined for a non-constant series) |
| PageOptimizer.CompoundFoldIsGrowth | js/optimization.js:478 | the reduce (1+a)(1+b)−1 equals Π(1+r_i) − 1 |
| PageOptimizer.AnnualisedReturnOf | js/optimization.js:476-492 | defined exactly for a non-empty series (an empty one gives pow(1, ∞) = NaN) |
| PageOptimizer.AlphaOfItself | js/optimization.js:449-455 | Jensen's alpha of a series against itself is 0 whenever defined |
| PageOptimizer.AlphaOf | js/optimization.js:449-455 | no number exactly when the beta has none or the portfolio series is empty (Math.pow(1, Infinity)); otherwise R_p − r_f − β(R_m − r_f) |
| PageOptimizer.TrackingErrorOf | js/optimization.js:458-467 | no number exactly when the market series is shorter than the portfolio series or the portfolio has a single return |
| PageOptimizer.TrackingErrorOfItself | js/optimization.js:458-467 | a series tracks itself with error 0, including the empty series |
| PageOptimizer.TrackingErrorOfEmpty | js/optimization.js:458-474 | without portfolio returns the tracking error is the root of 0 / −1, a zero |
| PageOptimizer.TrackingErrorNonNegative | js/optimization.js:458-467 | a defined tracking error is never negative |
| PageOptimizer.PortfolioDailyReturns | js/optimization.js:495-510 | one portfolio return per day after the first |
| PageOptimizer.CalculatePortfolioReturns | js/optimization.js:495-510 | the nested loops compute Σ_j w_j·(p_j[t+1]−p_j[t])/p_j[t] for every day t |
| PageOptimizer.DailyReturnIsWeighted | js/optimization.js:500-506 | the portfolio return on day t is the weighted sum of the assets' own stored returns on day t |
| PageOptimizer.Beta | js/optimization.js:433-446 | no finite beta exactly when the market has at most two prices, the assets exactly two, or the market returns do not vary |
| PageOptimizer.Alpha | js/optimization.js:449-455 | no number exactly when the beta has none or the assets have at most one price |
| PageOptimizer.TrackingError | js/optimization.js:458-467 | no number exactly when the assets have exactly two prices, or at least two and the market has fewer |
| PageOptimizer.TrackingErrorWithoutReturns | js/optimization.js:458-474 | assets with at most one price give a tracking error of zero |
| PageOptimizer.PortfolioValue | js/optimization.js:53-58 | the total value is undefined (NaN) exactly when some asset has no prices |
| PageOptimizer.PercentRoundTrip | js/optimization.js:56 | multiplying the stored fraction by 100 gives back the percentage weight the row carried |
| PageOptimizer.PortfolioValueOfRows | js/optimization.js:53-58 | the constructed optimiser's total value is Σ last price × percentage weight over the detail rows that have prices |
| PageOptimizer.LatestDailyReturn | js/optimization.js:61-72 | the daily return has no value exactly when some asset with two or more prices has a previous price of 0 |
| PageOptimizer.LatestDailyReturnOfTidy | js/optimization.js:61-72 | for the constructed assets it is the weighted sum of each asset's last entry of its return series |
| PageOptimizer.LatestTermOfTidy | js/optimization.js:64-70 | for an asset as the constructor builds it, the latest price change times the weight is the weight times the last entry of its return series |
| PageOptimizer.CalculateRiskContribution | js/optimization.js:381-388 | the inner loop returns row i of the covariance matrix applied to the weights, times weight i |
| PageOptimizer.RiskContributions | js/optimization.js:381-388 | one contribution per asset, each the risk contribution of that asset |
| PageOptimizer.ParityScore | js/optimization.js:377-397 | the score has no value exactly when there are assets and their contributions sum to 0 |
| PageOptimizer.RiskParity | js/optimization.js:377-397 | no number exactly when there are assets whose risk contributions sum to 0; otherwise never negative |
| PageOptimizer.ParityGapZero | js/optimization.js:392-394 | each squared deviation is non-negative, and their sum is 0 exactly when every share equals the target |
| PageOptimizer.ParityScoreZero | js/optimization.js:377-397 | the risk-parity score is never negative, and is 0 exactly when every asset carries the same 1/n share of the total risk |
| PageOptimizer.SharesSumToOne | js/optimization.js:391-394 | the shares of the total risk sum to 1 |
| PageSimulator.WithNewAsset | js/optimization.js:563-575 | every existing weight is multiplied by (1−w) with all other fields kept, and the new asset is appended with weight w |
| PageSimulator.WithNewAssetSum | js/optimization.js:563-575 | weights summing to s become weights summing to s(1−w)+w, so a sum of 1 is preserved |
| PageSimulator.WeightChangeAsWritten | js/optimization.js:594-604 | as written: asset k gets the new weight, but weights summing to 1 end up summing to 1 + w_k |
| PageSimulator.WeightChangeAsWrittenExample | js/optimization.js:599-604 | weights [0.5, 0.5] with the first changed to 0.7 become [0.7, 0.8] |
| PageSimulator.WeightChange | js/optimization.js:594-604 | corrected: asset k gets the new weight, the others share 1 − newWeight in their old proportions, and a sum of 1 is preserved |
| PageSimulator.CorrelationOf | js/optimization.js:691-692 | 0 when a deviation sum is 0, otherwise num/sqrt(d1·d2), which lies in [−1,1] whenever num² ≤ d1·d2 |
| PageSimulator.PairwiseCorrelationBounded | js/optimization.js:675-693 | every defined pairwise correlation lies in [−1, 1] |
| PageSimulator.PairwiseCorrelation | js/optimization.js:675-693 | 0 for an empty returns1; no number exactly when returns2 is shorter and returns1's deviation sum is not 0 |
| PageSimulator.CalculatePairwiseCorrelation | js/optimization.js:675-693 | the loop over returns1's length computes `PairwiseCorrelation`: NaN (None) when returns2 is shorter, unless returns1's deviation sum is 0 |
| PageSimulator.SquaredDeviations | js/optimization.js:683-689 | the loop accumulates Σ(r_i − m)² |
| PageSimulator.CrossDeviations | js/optimization.js:683-689 | the loop accumulates the cross sum and the second series' squared deviations |
| PageSimulator.PairCountClosed | js/optimization.js:661-668 | the pair loop counts r(2n−1−r)/2 pairs below row r, hence n(n−1)/2 pairs in all |
| PageSimulator.AverageCorrelationBounded | js/optimization.js:657-672 | a defined average correlation lies in [−1, 1] |
| PageSimulator.CalculateAverageCorrelation | js/optimization.js:657-672 | the double loop over i < j computes the mean pairwise correlation, 0 for fewer than two assets, over n(n−1)/2 pairs |
| PageSimulator.CalculateRowCorrelation | js/optimization.js:661-667 | the inner loop adds the correlations of series i with every later series and counts n − i − 1 pairs |
| PageSimulator.MomentumWeightPositive | js/optimization.js:727-746 | the weight total is positive exactly when at least 21 prices (one month) are available |
| PageSimulator.MomentumBetween | js/optimization.js:723-747 | the momentum is 0 with fewer than 21 prices and otherwise lies between any bounds of the covered period returns |
| PageSimulator.Momentum | js/optimization.js:723-747 | 0 with fewer than 21 prices |
| PageSimulator.CalculateMomentum | js/optimization.js:723-747 | the forEach loops compute the weighted mean of the period returns for the covered periods 1, 3, 6, 12 months (weights 0.2, 0.3, 0.2, 0.3) |
| PageSimulator.SMA | js/optimization.js:792-795 | null exactly when there are fewer values than the period, otherwise a number |
| PageSimulator.SMAWithinWindow | js/optimization.js:792-795 | the moving average lies between any bounds of the values in its window |
| PageSimulator.GainsLossesNonNegative | js/optimization.js:800-807 | the gains and the losses sums are never negative |
| PageSimulator.RSI | js/optimization.js:797-811 | null exactly when there are fewer than period + 1 values |
| PageSimulator.RSIIsGainShare | js/optimization.js:797-811 | a numeric RSI equals 100·gains/(gains+losses) and so lies in [0, 100] |
| PageSimulator.RSIExtremes | js/optimization.js:803-810 | only rising changes give RSI 100, only falling changes give RSI 0 |
| PageSimulator.CalculateRSI | js/optimization.js:797-811 | the gains/losses loop computes `RSI` |
| PageSimulator.TrendSignal | js/optimization.js:813-819 | buy exactly when all three indicators are truthy, sma50 > sma200 and rsi < 70; sell exactly when all are truthy, sma50 < sma200 and rsi > 30; hold otherwise |
| PageSimulator.TrendSignalMirror | js/optimization.js:813-819 | swapping the averages and reflecting the RSI swaps buy and sell |
| PortfolioForm.EscapeHtml | js/portfolio.js:271-281 | a missing or empty input gives the empty string |
| PortfolioForm.EscapeCharsNoMarkup | js/portfolio.js:271-281 | the escaped text contains none of < > " ' |
| PortfolioForm.EscapeCharsAppend | js/portfolio.js:273-279 | escaping works character by character: it distributes over concatenation |
| PortfolioForm.EscapeCharsPlain | js/portfolio.js:273-279 | a text with none of the five special characters is left unchanged |
| PortfolioForm.UnescapeStep | js/portfolio.js:274-278 | decoding undoes each character's replacement in front of any text |
| PortfolioForm.EscapeRoundTrip | js/portfolio.js:271-281 | decoding the escaped text gives the original text back, so escaping loses nothing |
| PortfolioForm.AssetFigures | js/portfolio.js:383-399 | total and weight are 0 when the price or the entered amount is missing, and the weight is 0 for a non-positive portfolio size |
| PortfolioForm.WeightOf | js/portfolio.js:399 | for a positive portfolio size, weight × size = total × 100 |
| PortfolioForm.AssetTotals | js/portfolio.js:394 | a stock's total is price × quantity, a commodity's total is the amount entered |
| PortfolioForm.WeightLinear | js/portfolio.js:399 | the weight is additive in the total |
| PortfolioForm.SavedQuantity | js/portfolio.js:472 | the stored quantity has no value (division by zero) exactly for a commodity priced 0 |
| PortfolioForm.QuantityRoundTrip | js/portfolio.js:764-766 | saving the entered quantity and loading it back for editing gives the entered value again |
| PortfolioForm.LoadedQuantity | js/portfolio.js:764-766 | loading a stored quantity and saving it again gives the stored quantity back, whenever saving has a value |
| PortfolioForm.PortfolioTotals | js/portfolio.js:709-731 | remaining plus invested is the portfolio size, and the warning fires exactly when the total weight exceeds 100 |
| PortfolioForm.CalculatePortfolioTotals | js/portfolio.js:709-731 | the `forEach` over the rows computes exactly the totals defined above |
| PortfolioForm.TotalWeightOfInvested | js/portfolio.js:714-720 | when every row was weighed against the same size, the total weight is the invested amount as a percentage of it |
| PortfolioForm.OverweightWhenOverInvested | js/portfolio.js:728-730 | for rows whose figures are not rounded, the weight warning fires exactly when more than the portfolio size is invested |
| PortfolioRoutes.GroupAnalysisRows | routes/portfolios.js:234-253 | the `forEach` over the rows computes exactly the grouping: keys in insertion order and one record per symbol |
| PortfolioRoutes.FirstAppearancesDistinct | routes/portfolios.js:236-246 | each symbol gets one record: no key is inserted twice |
| PortfolioRoutes.GroupedAssetsSummary | routes/portfolios.js:234-253 | the keys are the symbols in the order of their first row, and each record is its first row's columns with the priced points of all its rows in row order |
| PortfolioRoutes.AssetValuesSpec | routes/portfolios.js:234-258 | `Object.values(assetData)` is one record per symbol, in first-appearance order, each that symbol's summary |
| PortfolioRoutes.CalculateTotalValue | routes/portfolios.js:275-282 | the loop returns Σ current price × quantity, the current price being the last history price, else the purchase price |
| PortfolioRoutes.TotalValueAppend | routes/portfolios.js:275-282 | the total value of two lists of assets is the sum of their totals |
| PortfolioRoutes.TotalValue | routes/portfolios.js:275-282 | with non-negative quantities and current prices the total is non-negative |
| PortfolioRoutes.CurrentPriceWithoutHistory | routes/portfolios.js:278 | an asset without a priced history is valued at its purchase price |
| PortfolioRoutes.Volatility | routes/portfolios.js:327-331 | no number (0 / 0) exactly for a single return; no returns give √(0 / −1), a zero |
| PortfolioRoutes.VolatilityOfEmpty | routes/portfolios.js:327-331 | with no returns the volatility is 0 |
| PortfolioRoutes.VolatilitySquared | routes/portfolios.js:327-331 | the volatility is non-negative and its square is the sample variance with divisor n − 1 |
| PortfolioRoutes.AnnualizedVolatilityScales | routes/portfolios.js:327-331 | within one period's window, the assets route's annualised volatility is this volatility times √252 |
| PortfolioRoutes.SharpeRatio | routes/portfolios.js:333-336 | no quotient exactly when the volatility is 0; otherwise ratio × volatility is the return minus 0.035 |
| PortfolioRoutes.SharpeRatioMonotone | routes/portfolios.js:333-336 | for a positive volatility a higher return never gives a lower ratio |
| PortfolioRoutes.LoopSums | routes/portfolios.js:356-369 | the two variance sums of the loop are never negative |
| PortfolioRoutes.Correlation | routes/portfolios.js:355-372 | NaN exactly when the first series is empty, when the second is shorter than the first (the loop reads past its end) or when a variance sum is 0 |
| PortfolioRoutes.CorrelationBounded | routes/portfolios.js:355-372 | without any clamp, a defined correlation still lies in [−1, 1] |
| PortfolioRoutes.CorrelationWithItself | routes/portfolios.js:355-372 | a non-empty series with spread has correlation exactly 1 with itself |
| PortfolioRoutes.CorrelationSymmetric | routes/portfolios.js:355-372 | for series of equal length swapping the arguments does not change the correlation |
| PortfolioRoutes.CalculateCorrelation | routes/portfolios.js:355-372 | the loop returns exactly the correlation defined above |
| PortfolioRoutes.CalculateCorrelationMatrix | routes/portfolios.js:343-353 | an n × n matrix whose entry (i, j) is the correlation of series i with series j, the diagonal included |
| PortfolioRoutes.CorrelationMatrixSymmetric | routes/portfolios.js:343-353 | with series of equal length the matrix is symmetric |
| Numerics.SimpleReturns | js/optimization.js:103-109 | one return per consecutive pair of prices (n − 1 of them), each dividing by the earlier price |
| Numerics.SimpleReturnsAt | routes/portfolios.js:319-325 | the i-th return is (p[i+1] − p[i]) / p[i] |
| Numerics.SimpleReturnsRebuildPrices | js/optimization.js:103-109 | compounding the returns from the first price gives back every later price |
| Numerics.GrowthOfPrices | js/optimization.js:103-109 | compounding the first k returns gives the ratio of the k-th price to the first |
| Numerics.MaxOf | js/modules/PortfolioOptimizer.js:319 | `Math.max(...s)` is an entry of s and no entry exceeds it |
| Numerics.MinOf | js/modules/PortfolioOptimizer.js:318 | `Math.min(...s)` is an entry of s and no entry is below it |
| Numerics.Clamp | routes/assets.js:385 | `Math.max(lo, Math.min(hi, x))` lies in [lo, hi] and leaves x unchanged when it already does |
| Numerics.CauchySchwarz | routes/assets.js:374-384 | the squared cross sum of deviations is at most the product of the squared deviation sums, which bounds every Pearson quotient by 1 |
| Sorting.Sort | js/optimization.js:370 | `sort((a, b) => a − b)` yields an ascending permutation of the input |
| Sorting.SortedExtremes | js/optimization.js:370 | the first sorted entry is the minimum and the last the maximum, both drawn from the input |
| Sorting.SortInPlace | js/optimization.js:370 | the caller's array is sorted in place: its new contents are the ascending permutation of its old contents |
| Sorting.SliceEnd | js/optimization.js:372 | `slice(0, e)` stops at the length and takes e itself when 0 ≤ e ≤ n |
| Sorting.TailMean | js/optimization.js:371-373 | the tail mean has no value (0 / 0) exactly when the cutoff is 0 |
| Sorting.TailMeanBetween | js/optimization.js:371-373 | for a cutoff inside a sorted series the tail mean lies between the smallest entry and the entry at the cutoff |
| Sorting.SumPrefix | js/optimization.js:373 | the reduce over `slice(0, k)` sums the first k entries |
| Sectors.SectorTotalsEntries | js/optimization.js:76-81 | the sector table has one entry per counted sector that occurs, whose total is the sum of the weights of its holdings |
| Sectors.SectorTotalsKeys | js/optimization.js:78-81 | a sector has an entry exactly when it is counted (non-empty when blanks are skipped) and some holding has it |
| Sectors.SectorTotalsSum | js/optimization.js:80 | each sector's total is the sum of its holdings' weights |
| Sectors.Hhi | js/optimization.js:84-86 | the Herfindahl–Hirschman index Σ total² is never negative |
| Sectors.MaxTotal | js/modules/PortfolioOptimizer.js:183-192 | `Math.max(...totals, 0)` is non-negative, at least every sector total, and is 0 or one of them |

## Left out

- User interface: the DOM updates, Chart.js charts, alerts and event listeners of `js/optimization.js` (lines 1005-1777) and the rendering and fetch functions of `js/portfolio.js`. They are presentation and network code.
- Database and HTTP I/O. Left out are the Express handlers' SQL queries and the connection pool. Also left out are the asynchronous helpers `calculateExpectedReturn`, `calculatePortfolioExpectedReturn(s)`, `getMarketReturns`, `calculatePortfolioReturns`, `calculateAssetReturns` and `calculateAssetCorrelation` of `routes/assets.js`. Of the handlers, only the pure computations they apply to query results are modelled.
- `calculatePortfolioVolatilities` (`routes/assets.js`:731-741): a loop over the four period keys that calls the modelled `CalculatePortfolioVolatility`; it adds nothing beyond that call.
- Randomness: `Math.random` and `generateNormal` are not modelled. Their draws are inputs. The random correlation of the recommendations endpoint (`routes/assets.js`:938-1015) is left out with that endpoint.
- Concurrency: `Promise.all` and the ordering of awaited queries.
- IEEE-754 arithmetic: rounding, overflow and signed zero are not modelled. `NaN`/`Infinity` appear only as `None` results or as excluded inputs.
- The `window.PortfolioCalculator` and `window.RiskMetrics` collaborators used by `js/optimization.js` are abstract parameters. Their code is not part of this model.
- `PortfolioOptimizer.recommendAssets` and its helpers (`js/optimization.js`:402-428) call functions that no file defines, so every call throws.
- `optimizePortfolio` (`js/optimization.js`:150-169) and `findOptimalWeights` (199-215) are thin wrappers around the modelled `SimplifiedOptimization`, `CalculatePortfolioRisk`, `CalculateEfficientFrontier` and `SharpeRatio`.
- `updatePortfolioMetrics` (`js/optimization.js`:513-) only writes to the page.
- `PortfolioSimulator`'s metric comparisons call methods the class does not define, so they throw before returning. This covers `simulateNewAsset` and `simulateWeightChange` (their metrics part), `calculateDiversificationEffect`, `calculateCorrelationImpact`, `calculatePortfolioMetrics`, `compareMetrics`, `compareSectorConcentration`, `analyzeSectorRotation` and `calculateSectorMomentum`. Only the weight arithmetic of the two simulations is modelled.
- `PageSimulator.CalculateMomentum`: only the default periods are modelled, not caller-supplied period lists.
- `calculatePortfolioBeta` and `calculatePortfolioAlpha` (`routes/assets.js`:525-543): line 527 calls `calculateAnnualizedVolatility` without a period, so looking up `periodConfig[undefined]` throws whenever there are two or more returns.
- `calculatePerformance` in `routes/portfolios.js` calls `calculateTotalReturn` (line 293), which no file defines. `calculateRiskMetrics` and `calculateBeta` there are stubs: the beta is the constant 1.0.
- `OptimizationService.simulatePortfolio`, `optimizeSimulatedPortfolio` and `getRecommendations` (`services/OptimizationService.js`:120-172, 250-341) construct a `PortfolioOptimizer` that the file never imports, and otherwise only run queries.
- The sector grouping duplicated in the server entry point is not part of this model.
- PortfolioForm.OverweightWhenOverInvested: the form writes each row's total and weight rounded to two decimals with `toFixed(2)` (`js/portfolio.js`:402-403), and `calculatePortfolioTotals` re-reads those rounded strings (714-716). The model sums unrounded figures, so the warning matches over-investment only without that display rounding. For example, a portfolio size of 1 and one row worth 1.004 shows "1.00" invested and a weight of "100.40", which raises the warning.
- PortfolioForm.PortfolioTotals: sums the rows' figures as numbers; the two-decimal rounding between `calculateAssetValues` and `calculatePortfolioTotals` is not modelled.
- PageOptimizer.Build: `UsablePrices` excludes assets with exactly two prices. Their one return gives a sample covariance of 0 / 0 = NaN (`js/optimization.js`:258-278), which `calculatePortfolioRisk` skips through `!cov[i][j]` (346-350); that skip of NaN entries is not modelled.
- PortfolioRoutes.GroupAnalysisRows: assumes that no asset symbol is an integer-like string. `Object.values` lists such keys first, in ascending numeric order, and the model keeps insertion order only.

## Findings

| source | as written | input that shows it | evidently intended | confidence | as-written member | corrected member |
|---|---|---|---|---|---|---|
| js/optimization.js:599-604 | `simulateWeightChange` rescales the other weights by (1 − difference)/(1 − old weight), so the new weights sum to 1 + old weight | weights [0.5, 0.5], change asset 0 to 0.7: result [0.7, 0.8], sum 1.5 | rescale the others by (1 − new weight)/(1 − old weight) so the weights still sum to 1 | high (not executed) | PageSimulator.WeightChangeAsWrittenExample | PageSimulator.WeightChange |
| js/optimization.js:95 | `calculateSharpeRatio` takes the square root of the portfolio risk, which `calculatePortfolioRisk` already returns as a standard deviation | one asset of weight 1, expected return 0.10, risk-free rate 0.0475, variance 0.0016 so risk 0.04 (with an exact square root): 0.2625 instead of 1.3125 | divide the excess return by the risk itself, as `calculatePortfolioMetrics` does at lines 312-314 | high (not executed) | PageOptimizer.SharpeAsWrittenDiffers | PageOptimizer.SharpeRatio |
