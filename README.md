# Arbitrage-pricing factors: index and shape logic

A model of the macro-factor inputs of `sharadar/pipeline/arbitrage_pricing1.py`.
The file defines seven zipline custom factors. Each fills an `out` buffer with
one slot per asset, for one evaluation day, from day-by-asset windows of closes:

- `Closes`, `InterestRate` and `InflationRate` copy the latest row of their
  window (`window_length = 1`). `InflationRate` reads the column of asset id
  10450.
- `TBillBeta`, `TBillBondSpreadBeta`, `PurchaseManagerIndexBeta` and
  `InflationRateBeta` work on a 252-day window. They resample it monthly
  (every 21st row from row 0), build a dependent series of monthly returns and
  a reference series, pass both to `beta_residual` and write the betas.
  `TBillBondSpreadBeta` takes the 30-year bond (id 10240) minus the 3-month
  bill (id 10003) as its reference. `PurchaseManagerIndexBeta` uses the
  monthly log returns of the PMI (id 10430).
- `prices_by_sid` finds the first position of an id in `assets` and returns
  that column as a one-column series.

The project has four modules:

- `Matrix` (`matrix.dfy`): a window is a sequence of rows, oldest day first.
  It defines `m[1:]`, `np.diff(m, axis=0)`, elementwise maps and subtraction,
  and single-column extraction.
- `Lookup` (`lookup.dfy`): `np.where`, the first match, and `prices_by_sid`.
  A missing id gives an explicit `IndexError` result.
- `Returns` (`returns.dfy`): the `[0::21]` resampler, monthly log returns,
  simple returns, the annualizer `(1 + r) ** 12 - 1` and the sampled levels
  `[0::21][1:]`. It also proves the row-count and row-alignment facts.
- `Factors` (`factors.dfy`): the regression inputs of each beta factor, and
  one method per `compute` that writes `out`.

Prices are `real`s. `np.log` and `np.exp` are the parameters `ln` and `exp`,
and `beta_residual` is the parameter `betaResidual`. Nothing proved depends on
what they compute. `out[:] = v` follows numpy broadcasting: `v` must have one
entry per slot or a single entry (`Fits`), and `Filled` says what `out` then
holds.

Two facts of the code fix the shapes. `[0::21]` followed by `np.diff` or
`[1:]` gives ceil(W / 21) - 1 monthly rows for a window of W >= 1 days, and
none when W <= 21 (`Returns.MonthlyRows`). An id that occurs more than once in
`assets` resolves to its first position (`Lookup.FirstMatch`).

## Model

| member | source | states |
|---|---|---|
| Lookup.Where | sharadar/pipeline/arbitrage_pricing1.py:20 | `np.where(assets == sid)[0]` lists exactly the positions holding `sid`, each in range, in strictly increasing order |
| Lookup.FirstMatch | sharadar/pipeline/arbitrage_pricing1.py:20 | on an id that occurs, the result is the smallest position holding it |
| Lookup.FirstMatchIsFirstOfWhere | sharadar/pipeline/arbitrage_pricing1.py:20 | on an id that occurs, the match list is non-empty and its element `[0]` is the first match |
| Lookup.PricesBySid | sharadar/pipeline/arbitrage_pricing1.py:19-22 | succeeds exactly when `sid` occurs in `assets`; the failure carries `sid`; on success the result has the row count of `close`, one column, and row k is `[close[k][i]]` for the first match `i` |
| Lookup.PricesBySidIsFirstColumn | sharadar/pipeline/arbitrage_pricing1.py:19-22 | for the smallest position `i` holding `sid`, extraction returns column `i` |
| Matrix.Tail | sharadar/pipeline/arbitrage_pricing1.py:38 | `m[1:]` has one element fewer (empty stays empty) and element k is `m[k + 1]` |
| Matrix.Diff | sharadar/pipeline/arbitrage_pricing1.py:31 | `np.diff(axis=0)` keeps the column count, has R - 1 rows (0 for an empty input), and row k is row k + 1 minus row k |
| Matrix.SubM | sharadar/pipeline/arbitrage_pricing1.py:62 | the row-wise `-` of two same-shape matrices keeps the shape, and each element is the difference of the elements at the same position |
| Matrix.Column | sharadar/pipeline/arbitrage_pricing1.py:21 | `np.reshape(m[:, i], (-1, 1))` has the row count of `m`, one column, and row k is `[m[k][i]]` |
| Returns.MonthlySample | sharadar/pipeline/arbitrage_pricing1.py:31 | `[0::21]` over R rows has ceil(R / 21) rows, and sample k is row 21 * k of the window |
| Returns.MonthlySampleRect | sharadar/pipeline/arbitrage_pricing1.py:31 | sampling keeps the column count |
| Returns.MonthlySampleColumn | sharadar/pipeline/arbitrage_pricing1.py:62 | sampling an extracted column equals extracting that column from the sampled rows |
| Returns.MonthlyRowsBounds | sharadar/pipeline/arbitrage_pricing1.py:31-38 | the monthly row count is ceil(R / 21) - 1: the last row ends inside the window, one more would not |
| Returns.MonthlyRowExists | sharadar/pipeline/arbitrage_pricing1.py:31-38 | monthly row k exists exactly when its closing day 21 * (k + 1) is inside the window |
| Returns.MonthlyLogReturns | sharadar/pipeline/arbitrage_pricing1.py:31 | `np.diff(np.log(close[0::21, :]))` has ceil(R / 21) - 1 rows of the same width; row k is ln of day 21 * (k + 1) minus ln of day 21 * k, column by column |
| Returns.SimpleReturns | sharadar/pipeline/arbitrage_pricing1.py:33 | `np.exp(r) - 1.0` keeps the shape and maps each log return `x` to `exp(x) - 1` |
| Returns.AnnualizedOfLogReturns | sharadar/pipeline/arbitrage_pricing1.py:33-35 | annualizing the simple returns of any monthly log returns gives, in row k, the annualized return from day 21 * k to day 21 * (k + 1) |
| Returns.AnnualizedMonthlyReturns | sharadar/pipeline/arbitrage_pricing1.py:31-35 | the dependent series of the T-bill factors has ceil(R / 21) - 1 rows of the same width; row k annualizes `exp(ln(day 21 * (k + 1)) - ln(day 21 * k)) - 1` |
| Returns.Annualize | sharadar/pipeline/arbitrage_pricing1.py:35 | `(1.0 + monthly_R) ** 12 - 1.0` with an exact power; it has no contract of its own, its properties are stated in `Returns.AnnualizeBounds` |
| Returns.PowBernoulli | sharadar/pipeline/arbitrage_pricing1.py:35 | Bernoulli's inequality for the power in the annualizer: (1 + x) ** n >= 1 + n * x when x >= -1 |
| Returns.AnnualizeBounds | sharadar/pipeline/arbitrage_pricing1.py:35 | for a monthly return above -100%, the annualized return stays above -100%, is at least 12 times the monthly one, and has the same sign |
| Returns.MonthlyLevels | sharadar/pipeline/arbitrage_pricing1.py:38 | `rate[0::21, :][1:, :]` has ceil(R / 21) - 1 rows, and row k is day 21 * (k + 1) of the window |
| Factors.BetaWindowMonths | sharadar/pipeline/arbitrage_pricing1.py:27 | a 252-day window gives 11 monthly rows |
| Factors.TBillBetaInputs | sharadar/pipeline/arbitrage_pricing1.py:29-38 | the dependent side is the annualized monthly returns and the reference is the sampled T-bill level; for windows of equal length both sides have equal row counts, and row k of both is day 21 * (k + 1) |
| Factors.SpreadBetaInputs | sharadar/pipeline/arbitrage_pricing1.py:52-62 | succeeds exactly when ids 10240 and 10003 both occur; otherwise fails on 10240 if it is missing, else on 10003; the dependent side is the annualized monthly returns; the reference has one column, as many rows as the dependent side, and row k is the first 10240 column minus the first 10003 column on day 21 * (k + 1) |
| Factors.Spread | sharadar/pipeline/arbitrage_pricing1.py:62 | the spread of two one-column series has ceil(R / 21) - 1 rows, and row k is bond minus bill on day 21 * (k + 1) |
| Factors.SpreadOfColumns | sharadar/pipeline/arbitrage_pricing1.py:60-62 | a spread of two extracted columns has, in row k, column `i` minus column `j` of the window on day 21 * (k + 1) |
| Factors.PmiBetaInputs | sharadar/pipeline/arbitrage_pricing1.py:72-77 | succeeds exactly when id 10430 occurs, failing with that id otherwise; the dependent side is the monthly log returns of every asset; the reference has one column, as many rows as the dependent side, and row k is ln of the first 10430 column on day 21 * (k + 1) minus ln of it on day 21 * k |
| Factors.LogReturnsOfColumn | sharadar/pipeline/arbitrage_pricing1.py:74-77 | the monthly log returns of a series extracted from column `i` are, row by row, the monthly log returns of column `i` of the window |
| Factors.InflationBetaInputs | sharadar/pipeline/arbitrage_pricing1.py:114-116 | the dependent side is the monthly log returns and the reference is the sampled inflation level; for windows of equal length both sides have equal row counts |
| Factors.Assign | sharadar/pipeline/arbitrage_pricing1.py:41 | `out[:] = v` overwrites every slot: with `v[i]`, or with the single entry of `v` |
| Factors.WriteLatest | sharadar/pipeline/arbitrage_pricing1.py:16 | `out[:] = window[-window_length]` fills `out` from that row |
| Factors.ClosesCompute | sharadar/pipeline/arbitrage_pricing1.py:11-16 | every slot gets its asset's close on the last day of the window |
| Factors.InterestRateCompute | sharadar/pipeline/arbitrage_pricing1.py:84-90 | on the one-column rate window the source supplies, every slot gets the one-year rate of the last day |
| Factors.InflationRateCompute | sharadar/pipeline/arbitrage_pricing1.py:96-103 | succeeds exactly when id 10450 occurs, then fills every slot with its last-day value from the first matching column; otherwise `out` is unchanged |
| Factors.TBillBetaCompute | sharadar/pipeline/arbitrage_pricing1.py:29-41 | `out` holds the betas of the T-bill regression |
| Factors.SpreadBetaCompute | sharadar/pipeline/arbitrage_pricing1.py:52-65 | succeeds exactly when both ids occur, then `out` holds the betas of the spread regression; otherwise `out` is unchanged |
| Factors.PmiBetaCompute | sharadar/pipeline/arbitrage_pricing1.py:72-81 | succeeds exactly when id 10430 occurs, then `out` holds the betas of the PMI regression; otherwise `out` is unchanged |
| Factors.InflationBetaCompute | sharadar/pipeline/arbitrage_pricing1.py:114-119 | `out` holds the betas of the inflation regression |

## Left out

- Floating point: prices and rates are exact reals, so rounding, NaN and infinities are not modelled. `np.log` and `np.exp` are the uninterpreted parameters `ln` and `exp`. `** 12` is exact real multiplication.
- `beta_residual` (imported from `sharadar.pipeline.factors`) is not part of this model. It is the parameter `betaResidual`, and the model states only which matrices reach it and that its first result is written.
- `Factors.TBillBetaCompute`, `Factors.SpreadBetaCompute`, `Factors.PmiBetaCompute`, `Factors.InflationBetaCompute`: a beta vector that numpy cannot broadcast into `out` raises in the source. Here `Fits` is a precondition, and so is a well-formed window (`Rect`).
- `Factors.TBillBetaInputs`, `Factors.InflationBetaInputs`: the two windows come from the pipeline engine. Equal row counts hold only when both windows have the same length, which the engine supplies and the model takes as a hypothesis.
- `adjust_for_inflation` is a single float formula that no factor calls; it is not modelled.
- The zipline `CustomFactor` machinery is not modelled: `inputs`, `window_safe`, and the engine that builds the windows and calls `compute`. Each `compute` receives its window as a parameter.
- `symbol('TR3M')` and `symbol('TR1Y')` are lookups in an external symbol table; the rate windows they select are parameters.
- The `today` argument of every `compute` is unused by the source and is omitted. `assets` is kept only where the source reads it: for id lookup and the column count.
- The arguments of `compute` are values here, so the guarantee that the windows and `assets` are left unchanged holds by construction. Only `out` is an array.
