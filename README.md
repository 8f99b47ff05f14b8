# Expense tracker forecasting core, modelled in Dafny

This project models the decision logic of a personal expense tracker. The
tracker has an Express backend, a React frontend and a small Python
forecasting service. The model covers:

- **The prediction controller.** It turns a user's month × category spending
  totals into a dense matrix. It then takes either the sparse-data path (a
  growth forecast of the monthly totals, clamped step by step against recent
  totals) or the model path, with a plausibility check. Each step's total is
  split across categories by the largest-remainder (Hamilton) method.
- **The two forecast services.** The simple one sanitises a series, falls
  back to a repeated mean and pads or trims the model's answer to exactly
  `horizon` non-negative integers. The complex one adds a spending-profile
  classifier, window means, a clamped statistical fallback, a per-category
  scaling policy and a "budget sanity" backstop.
- **The request validators and profile controllers.** These cover expense
  categories with legacy names, user meta, profile updates and the
  prediction horizon.
- **The frontend's pure helpers.** These are month, day and ISO 8601 week
  keys with their labels; filtering and grouping of expenses; normalising
  the total-prediction payload; the sign-up password rule and submit order;
  and the dashboard's monthly aggregation and top-N lists.
- **The forecasting service's feature row and prediction loop.**

Amounts are exact reals, so `Math.floor`, `Math.round` and sums are exact.
A JavaScript number that may be `NaN` or infinite is a `JsNum`, and a
JavaScript value is a `JsValue`. Several things are parameters rather than
computations:

- the clock;
- `Math.random`, `Math.sin` and `Math.sqrt`;
- `Date.parse` and number-to-string conversion;
- the trained model and numpy's `log1p`/`expm1`;
- the database's and the HTTP client's outcomes.

Every stated property holds for all values of these parameters.

Files, one module each:

- **Shared support**
  - `js_values.dfy`: JavaScript numbers, values, truthiness, `Number(…)`, `Math.round` and `+`.
  - `numeric.dfy`: floor, round, clamp, sums and means.
  - `text.dfy`: trimming, ASCII lower-casing, digits, padding, splitting.
  - `sequences.dfy`: filters, a stable insertion sort, top-N, de-duplication.
  - `grouping.dfy`: sums keyed by string in insertion order, as with a JavaScript `Map`.
  - `calendar.dfy`: the proleptic Gregorian calendar, weekdays and ISO weeks.
  - `local_time.dfy`, `outcomes.dfy`, `schema.dfy`, `users.dfy`, `forecast_api.dfy`: clocks, results, schema helpers, user constants, forecast result shapes.
- **One file per source file**
  - `predict_controller.dfy` with `allocation.dfy`;
  - `ml_service_backup.dfy`, `ml_service.dfy`;
  - `expenses_validator.dfy`, `user_validator.dfy`, `predict_validator.dfy`;
  - `user_meta_controller.dfy`, `user_controller.dfy`;
  - `show_expenses.dfy`, `predict_page.dfy`, `login_page.dfy`, `dashboard.dfy`;
  - `ml_api.dfy`.

Where the code and its documentation disagree, the model follows the code:

- **Matrix cells.** A cell of the category × month matrix is *assigned*
  `Math.round(row.total)`, so the last row of a (month, category) pair wins.
  The cells are not accumulated.
- **Blend weights.** The blend weights of the scaling policy are those the
  arithmetic yields: (0.62, 0.7] for a stable category and [0.2, 0.4) for a
  volatile one.
- **Name check.** The profile controller's name check is inverted. Only a
  blank string passes, and it is stored as the empty string.
- **Service call.** The complex controller imports a named `forecast` that
  the simple service does not export. The model takes the service's outcome
  as a parameter shaped like the complex service's result.

## Model

| member | source | states |
|---|---|---|
| PredictController.CategoryName | backend/src/controllers/predictControllers_complex_backup.js:25 | a missing or empty category becomes "Uncategorized"; any other name is kept; the result is never empty |
| PredictController.UniqueMonths | backend/src/controllers/predictControllers_complex_backup.js:22 | exactly the months of the rows, each once, in strictly ascending string order |
| PredictController.UniqueCategories | backend/src/controllers/predictControllers_complex_backup.js:25 | exactly the (defaulted) categories of the rows, each once, none empty, at least one when there are rows |
| PredictController.LastRowWins | backend/src/controllers/predictControllers_complex_backup.js:32-38 | the cell of a row's (category, month) is the rounded total of the last row with that pair |
| PredictController.CellWithoutRow | backend/src/controllers/predictControllers_complex_backup.js:28-30 | a (category, month) pair without a row keeps its 0 |
| PredictController.BuildMatrix | backend/src/controllers/predictControllers_complex_backup.js:28-38 | the loop over the rows yields the matrix of the cell definition, one series per category, one entry per month |
| PredictController.RowsMatrix | backend/src/controllers/predictControllers_complex_backup.js:22-38 | the matrix of the rows has one row per distinct category and one column per distinct month |
| PredictController.AlignedTotal | backend/src/controllers/predictControllers_complex_backup.js:46 | entry i is the sum over categories of entry i of each series |
| PredictController.AlignedTotalConserves | backend/src/controllers/predictControllers_complex_backup.js:46 | the aligned totals add up to the sum of all series' sums |
| PredictController.ModelPathHasHistory | backend/src/controllers/predictControllers_complex_backup.js:40-48 | when no category is sparse, the aligned total has at least 6 positive months and a positive historical mean |
| PredictController.PositiveMeanBounds | backend/src/controllers/predictControllers_complex_backup.js:141-146 | the mean of the positive entries is 0 without any, else between 1 and the largest entry |
| PredictController.PositivesNonEmpty | backend/src/controllers/predictControllers_complex_backup.js:142 | there are positive entries iff some entry is positive |
| PredictController.GrowthForecast | backend/src/controllers/predictControllers_complex_backup.js:59-62 | one prediction per step, step i being the rounded mean grown by 1.5% per step for i+1 steps |
| PredictController.GrowthForecastNonDecreasing | backend/src/controllers/predictControllers_complex_backup.js:59-62 | the growth forecast never falls below the rounded mean and never decreases from step to step |
| PredictController.Horizon | backend/src/controllers/predictControllers_complex_backup.js:7 | a truthy `Number(horizonDates)` is kept; a falsy or NaN one becomes 1 |
| PredictController.MissingHorizonIsOne | backend/src/controllers/predictControllers_complex_backup.js:7 | a missing horizonDates yields horizon 1 |
| PredictController.PredictionLength | backend/src/controllers/predictControllers_complex_backup.js:59 | `Math.max(1, horizon)` as an array length: 1 for horizons up to 1 and for -Infinity, the floor in range, and a failure for +Infinity or a length no array can have |
| PredictController.StepBounds | backend/src/controllers/predictControllers_complex_backup.js:169-175 | the step's bounds (0.80,1.25), (0.70,1.35), (0.60,1.45), later steps reusing the last pair, always lo < 1 < hi |
| PredictController.ClampStep | backend/src/controllers/predictControllers_complex_backup.js:174-180 | a finite total lands in [lo·baseRef, hi·baseRef] and is unchanged when already inside; a non-finite one becomes round(targetMean) or, when that is 0, round(baseRef) |
| PredictController.ClampTotals | backend/src/controllers/predictControllers_complex_backup.js:174-180 | every step of the totals is clamped with its own step's bounds |
| PredictController.LastPositiveValue | backend/src/controllers/predictControllers_complex_backup.js:162-167 | 0 iff no aligned total is positive, otherwise the last positive one |
| PredictController.LastPositive | backend/src/controllers/predictControllers_complex_backup.js:162-167 | the backward scan returns the last positive aligned total, else 0 |
| PredictController.BaseRef | backend/src/controllers/predictControllers_complex_backup.js:168 | the reference total is never negative |
| PredictController.RecentAverage | backend/src/controllers/predictControllers_complex_backup.js:184-191 | the mean of the positive values among the last three, 0 without any; never negative |
| PredictController.CategoryAverages | backend/src/controllers/predictControllers_complex_backup.js:101-109 | one non-negative recent average per category |
| PredictController.InputSummary | backend/src/controllers/predictControllers_complex_backup.js:141-146 | per category: its name, its count of positive months, and the rounded mean of those months (0 exactly when there are none) |
| PredictController.TableSums | backend/src/controllers/predictControllers_complex_backup.js:128-130 | the per-category table written into the response sums, step by step, to the totals |
| PredictController.TableSplits | backend/src/controllers/predictControllers_complex_backup.js:214-216 | writing a table whose columns are largest-remainder splits into prediction_by_category keeps every step the split of its total |
| PredictController.Apportion | backend/src/controllers/predictControllers_complex_backup.js:198-217 | every step's column is the largest-remainder split of that step's total by the recent proportions, and sums to the rounded total |
| PredictController.TotalsOnly | backend/src/controllers/predictControllers_complex_backup.js:151-219 | the totals-only path: totals are the rounded clamped totals, each step's column is their largest-remainder split and sums to that step's total |
| PredictController.MethodName | backend/src/controllers/predictControllers_complex_backup.js:223 | the reported method is the result's method or "unknown", never empty |
| PredictController.NoHistoryIsUnrealistic | backend/src/controllers/predictControllers_complex_backup.js:73-88 | with a historical mean of 0 the ratio is not finite, so the model's answer is judged unrealistic |
| PredictController.PlausibleTotalsKept | backend/src/controllers/predictControllers_complex_backup.js:73-88 | totals whose mean lies within 0.2 to 5 times the historical mean are kept |
| PredictController.SparseForecast | backend/src/controllers/predictControllers_complex_backup.js:49-63 | the sparse path fails only when the horizon is not a valid length; step i's total is the rounded clamped growth forecast of the recent mean, and each step's column is the largest-remainder split of the clamped total, summing to the total |
| PredictController.UnrealisticFallback | backend/src/controllers/predictControllers_complex_backup.js:90-132 | the unrealistic-model fallback yields the growth forecast of the historical mean as totals, and each step's column is the largest-remainder split of that total and sums to it |
| PredictController.Predict | backend/src/controllers/predictControllers_complex_backup.js:5-254 | the handler: no rows gives 400 "Not enough data"; the totals-only path is taken exactly when some category has fewer than 6 positive months or there are fewer than 6 months; on it and on the unrealistic path the totals are the (clamped) growth forecast and each step is their largest-remainder split by the recent proportions; a thrown or missing service result gives 500; a plausible answer is passed through; the input summary is always reported |
| Allocation.Raw | backend/src/controllers/predictControllers_complex_backup.js:201 | each category's raw share is t·p |
| Allocation.Floors | backend/src/controllers/predictControllers_complex_backup.js:203 | each category's floor of its raw share |
| Allocation.Fracs | backend/src/controllers/predictControllers_complex_backup.js:206 | each category's fractional part, in [0, 1) |
| Allocation.BonusCount | backend/src/controllers/predictControllers_complex_backup.js:205 | `Math.max(0, round(t) - sumFloors)` capped by the number of categories |
| Allocation.StableTieBreak | backend/src/controllers/predictControllers_complex_backup.js:206 | the stable sort by descending fraction orders categories exactly as "larger fraction, then earlier category" |
| Allocation.OrderFacts | backend/src/controllers/predictControllers_complex_backup.js:206 | the sorted order is a permutation of the categories, in descending fraction with ties in category order |
| Allocation.AllocateStep | backend/src/controllers/predictControllers_complex_backup.js:200-217 | one step's allocation is the largest-remainder split: floor or floor+1 each, the extra units going to the largest fractions first |
| Allocation.HandOut | backend/src/controllers/predictControllers_complex_backup.js:207-212 | the `remainder--` loop gives one extra unit to each of the first k categories of the order, k being the remainder or the number of categories |
| Allocation.AllocationSum | backend/src/controllers/predictControllers_complex_backup.js:116-131 | when the proportions sum to 1, the split sums exactly to round(t) |
| Allocation.BonusCoversRemainder | backend/src/controllers/predictControllers_complex_backup.js:204-205 | when the raw shares sum to t, the floors plus the extra units make exactly round(t) |
| Allocation.FloorsBound | backend/src/controllers/predictControllers_complex_backup.js:203-204 | the sum of the floors is at most the sum of the shares and at least that sum minus the number of categories |
| Allocation.AllocationUnique | backend/src/controllers/predictControllers_complex_backup.js:200-217 | the largest-remainder split is unique |
| Allocation.Distribute | backend/src/controllers/predictControllers_complex_backup.js:199-217 | every step's column of the table is the largest-remainder split of that step's total |
| Allocation.Proportions | backend/src/controllers/predictControllers_complex_backup.js:192-196 | avg/sumAvg when the sum is positive, else 1/n each; never negative for non-negative averages |
| Allocation.ProportionsSumToOne | backend/src/controllers/predictControllers_complex_backup.js:110-113 | for at least one category with non-negative averages, the proportions sum to 1 |
| MlServiceBackup.ProfileOf | backend/src/mlServices/mlService_complex_backup.js:9-39 | each spender type has its fixed tag and scaling bounds, with lower bound below 1 and upper above |
| MlServiceBackup.CategorizeSpendingProfile | backend/src/mlServices/mlService_complex_backup.js:9-39 | totals below 3000, 6000 and 15000 are low, moderate and high spenders, anything else (NaN included) very high |
| MlServiceBackup.ProfileMonotone | backend/src/mlServices/mlService_complex_backup.js:9-39 | a larger total never gives a lower spender class |
| MlServiceBackup.WindowMean | backend/src/mlServices/mlService_complex_backup.js:42-57 | 0 for a missing or empty series; on a non-negative series non-negative, and positive exactly when the last window entries hold a positive value |
| MlServiceBackup.WindowMeanFacts | backend/src/mlServices/mlService_complex_backup.js:42-57 | on a non-negative series the mean of the chosen values (the window's positive entries, else the whole window) is non-negative, and positive exactly when the window holds a positive value |
| MlServiceBackup.WindowMeanWhole | backend/src/mlServices/mlService_complex_backup.js:44-47 | a window whose entries are all positive, or none of them, is averaged whole |
| MlServiceBackup.WindowMeanBetween | backend/src/mlServices/mlService_complex_backup.js:44-47 | a window with a positive entry has a mean between any bounds of its positive entries, so zeros in it do not pull the mean down |
| MlServiceBackup.WindowMeanSuffix | backend/src/mlServices/mlService_complex_backup.js:42-48 | entries older than the window do not affect the mean |
| MlServiceBackup.WindowMeanBounds | backend/src/mlServices/mlService_complex_backup.js:42-57 | on values in [0, hi] the window mean lies in [0, hi] |
| MlServiceBackup.SanitizeSeries | backend/src/mlServices/mlService_complex_backup.js:176-187 | [] for a non-array; otherwise exactly the finite non-negative readings (total ?? amount ?? value ?? v ?? y for objects), each as often as it occurs, in order |
| MlServiceBackup.SanitizeClean | backend/src/mlServices/mlService_complex_backup.js:176-187 | a series of non-negative numbers comes back unchanged |
| MlServiceBackup.SanitizeIdempotent | backend/src/mlServices/mlService_complex_backup.js:176-187 | sanitising a sanitised series changes nothing |
| MlServiceBackup.ObjectEntries | backend/src/mlServices/mlService_complex_backup.js:200 | `Object.entries`: an object's own entries, nothing for values without properties |
| MlServiceBackup.NoApiCategories | backend/src/mlServices/mlService_complex_backup.js:197-201 | an array becomes the single "Uncategorized" series; an object becomes its entries with each series sanitised |
| MlServiceBackup.ApiCategories | backend/src/mlServices/mlService_complex_backup.js:205-209 | an array or a value whose entry "0" is a number becomes "Uncategorized"; anything else as without the API |
| MlServiceBackup.DefaultParams | backend/src/mlServices/mlService_complex_backup.js:82-83 | growth 1.005, variability 0.3, seasonality 0.1 for utilities and 0.05 otherwise |
| MlServiceBackup.ProfileParams | backend/src/mlServices/mlService_complex_backup.js:132-148 | each profile's growth is at least 1 and its variability in (0, 0.5] |
| MlServiceBackup.StepForecast | backend/src/mlServices/mlService_complex_backup.js:85-103 | whatever the random and seasonal factors, a step lies in [round(0.5·mean), round(1.5·mean)] |
| MlServiceBackup.CategoryForecast | backend/src/mlServices/mlService_complex_backup.js:64-105 | horizon values (for a horizon an array can hold); zeros without usable values, otherwise each step clamped around the mean of the usable values |
| MlServiceBackup.FallbackTable | backend/src/mlServices/mlService_complex_backup.js:64-107 | one forecast per category, keeping its name, each of length horizon |
| MlServiceBackup.CategorySeries | backend/src/mlServices/mlService_complex_backup.js:85-103 | the loop pushing predictions computes the category's forecast |
| MlServiceBackup.StatisticalForecast | backend/src/mlServices/mlService_complex_backup.js:60-109 | the loop over categories yields the fallback table, and total[i] is the sum of the categories' step i |
| MlServiceBackup.FallbackNonNegative | backend/src/mlServices/mlService_complex_backup.js:99-106 | every fallback prediction and every total is non-negative |
| MlServiceBackup.FallbackMean | backend/src/mlServices/mlService_complex_backup.js:60-109 | a horizon above 2³² − 1 throws RangeError at the first `Array(horizon)`; otherwise the default-parameter fallback table, with its column sums as total, tagged "statistical" |
| MlServiceBackup.FallbackMeanWithProfile | backend/src/mlServices/mlService_complex_backup.js:112-173 | a horizon above 2³² − 1 throws RangeError at the first `Array(horizon)`; otherwise the fallback with the profile's parameters, tagged with the profile and carrying its confidence |
| MlServiceBackup.RailFactor | backend/src/mlServices/mlService_complex_backup.js:266-281 | the rail keeps rawMean·f within [0.2, 5]·target (at least 0.8·target for rent), changes nothing already inside, and is 1 without a target |
| MlServiceBackup.StableWeight | backend/src/mlServices/mlService_complex_backup.js:297-301 | a stable category (CV < 0.2) gets a weight in (0.62, 0.7] |
| MlServiceBackup.VolatileWeight | backend/src/mlServices/mlService_complex_backup.js:302-306 | a volatile category (CV > 0.5) gets a weight in [0.2, 0.4) |
| MlServiceBackup.WeightedFactor | backend/src/mlServices/mlService_complex_backup.js:297-306 | the factor moves the raw mean to the weighted mix of raw mean and target |
| MlServiceBackup.BlendFactor | backend/src/mlServices/mlService_complex_backup.js:295-307 | stable and volatile categories are blended with their weights; a medium CV keeps the rail factor |
| MlServiceBackup.MaxDeviation | backend/src/mlServices/mlService_complex_backup.js:310-311 | maxDev lies in [0.5, 1]: 1 without history, 0.5 from six months on |
| MlServiceBackup.ScalingFactor | backend/src/mlServices/mlService_complex_backup.js:262-313 | the final factor lies in [1 − maxDev, 1 + maxDev], hence in [0, 2] |
| MlServiceBackup.NoHistoryFactor | backend/src/mlServices/mlService_complex_backup.js:284-313 | target 0 forces CV 1, so a positive prediction ends at factor 0.8, otherwise 1 |
| MlServiceBackup.OnTargetStable | backend/src/mlServices/mlService_complex_backup.js:262-313 | a stable category predicted exactly on target is left unscaled |
| MlServiceBackup.Predicted | backend/src/mlServices/mlService_complex_backup.js:256 | `vals.map(Number)` for an array, [] otherwise |
| MlServiceBackup.ScaleValue | backend/src/mlServices/mlService_complex_backup.js:318-322 | a finite value scales to a non-negative integer; NaN stays NaN |
| MlServiceBackup.LookupSeries | backend/src/mlServices/mlService_complex_backup.js:262 | a category's history is found iff some category has that name |
| MlServiceBackup.CleanSeries | backend/src/mlServices/mlService_complex_backup.js:255-322 | one scaled value per predicted value; every finite one becomes a non-negative integer |
| MlServiceBackup.CleanTable | backend/src/mlServices/mlService_complex_backup.js:255-323 | one cleaned series per category of the response, keeping its name |
| MlServiceBackup.AddInto | backend/src/mlServices/mlService_complex_backup.js:318-322 | adding a series into the running total extends it to the longer length |
| MlServiceBackup.TotalsAreColumnSums | backend/src/mlServices/mlService_complex_backup.js:318-322 | before the backstop, recomputedTotal[i] is the sum of the cleaned series' entries i |
| MlServiceBackup.Accumulate | backend/src/mlServices/mlService_complex_backup.js:318-322 | the in-loop update of the running total adds the scaled series into it |
| MlServiceBackup.Reconcile | backend/src/mlServices/mlService_complex_backup.js:255-323 | the loop yields the cleaned table and the totals of its columns |
| MlServiceBackup.HistMeans | backend/src/mlServices/mlService_complex_backup.js:211-213 | one recent mean per category |
| MlServiceBackup.HistTotalAvgNonNegative | backend/src/mlServices/mlService_complex_backup.js:326 | the historical total average is never negative |
| MlServiceBackup.TotalVarianceNonNegative | backend/src/mlServices/mlService_complex_backup.js:331-340 | the total variance is never negative |
| MlServiceBackup.BackstopFactor | backend/src/mlServices/mlService_complex_backup.js:342-350 | above the ceiling the overall scaling lies in [0, 1), and in (0, 1) for a finite average |
| MlServiceBackup.BackstopScalesDown | backend/src/mlServices/mlService_complex_backup.js:344-355 | when the backstop fires its factor lies in [0, 1), and in (0, 1) for a finite average |
| MlServiceBackup.BackstopNeverIncreases | backend/src/mlServices/mlService_complex_backup.js:344-355 | rescaling a non-negative integer by such a factor keeps it a non-negative integer no larger than before |
| MlServiceBackup.BackstopBreaksSum | backend/src/mlServices/mlService_complex_backup.js:344-355 | an example where rescaling and rounding categories and total separately leaves the total unequal to the categories' sum |
| MlServiceBackup.Backstop | backend/src/mlServices/mlService_complex_backup.js:344-355 | without firing nothing changes; firing rescales every value and the total by the same factor |
| MlServiceBackup.CleanTotal | backend/src/mlServices/mlService_complex_backup.js:357-362 | the recomputed total when non-empty, otherwise the response's total read as numbers |
| MlServiceBackup.ModelResult | backend/src/mlServices/mlService_complex_backup.js:364-368 | the model's result is tagged "ml_model" with no confidence |
| MlServiceBackup.Forecast | backend/src/mlServices/mlService_complex_backup.js:189-374 | a horizon that is not a positive integer gives 400; no base URL, an error field and a throw give the fallback tagged statistical_no_api, statistical_ml_error and statistical_network_error, or RangeError for a horizon above 2³² − 1; a clean answer gives the reconciled model result for any horizon |
| MlService.SanitizeTimeseries | backend/src/mlServices/mlService.js:14-20 | [] for a non-array; otherwise exactly the finite non-negative numbers, as a subsequence in their original order |
| MlService.FiniteValues | backend/src/mlServices/mlService.js:6-8 | the finite numbers of the series, in order |
| MlService.FallbackMean | backend/src/mlServices/mlService.js:5-11 | horizon copies of the rounded mean of the finite numbers; RangeError for a horizon above 2³² − 1 |
| MlService.FallbackWithoutNumbers | backend/src/mlServices/mlService.js:9-10 | without finite numbers the fallback is horizon zeros |
| MlService.FallbackOfClean | backend/src/mlServices/mlService.js:5-11 | on an already clean series the fallback uses the mean of that series |
| MlService.PickValue | backend/src/mlServices/mlService.js:61 | element i when present, otherwise the last element |
| MlService.NormaliseValue | backend/src/mlServices/mlService.js:62 | the result is a non-negative integer or +Infinity; a non-numeric value becomes 0 |
| MlService.RoundedCount | backend/src/mlServices/mlService.js:62 | `Math.max(0, Math.round(x \|\| 0))` is 0 for NaN and round(x) for a finite non-negative x |
| MlService.Normalise | backend/src/mlServices/mlService.js:60-63 | exactly horizon predictions, index i the normalised raw[i] or last raw value; RangeError for a horizon above 2³² − 1 |
| MlService.NormaliseExact | backend/src/mlServices/mlService.js:60-61 | index i takes raw[i] when present |
| MlService.NormalisePads | backend/src/mlServices/mlService.js:60-61 | past the end of the answer, every index repeats the last value |
| MlService.RawPredictions | backend/src/mlServices/mlService.js:54-55 | predictions are used iff the answer holds a non-empty predictions array |
| MlService.Forecast | backend/src/mlServices/mlService.js:21-70 | a horizon that is not a positive integer gives 400; a horizon above 2³² − 1 rejects with RangeError on every path; otherwise exactly horizon entries, each a non-negative integer or +Infinity, the fallback's when it is used, otherwise the normalised answer |
| MlService.FallbackCases | backend/src/mlServices/mlService.js:32-34 | no base URL, a throw, an error field and a missing or empty predictions array all yield exactly the mean fallback of the sanitised series |
| ExpensesValidator.Canonicalise | backend/src/validators/expensesValidator.js:54-65 | an accepted category maps to one of the 13 canonical names: the legacy name's target, or the trimmed canonical name |
| ExpensesValidator.LegacyTargets | backend/src/validators/expensesValidator.js:24-29 | every legacy name maps to a canonical name |
| ExpensesValidator.CanonicalNames | backend/src/validators/expensesValidator.js:7-29 | no canonical name is a legacy name, and every canonical name is already trimmed |
| ExpensesValidator.LegacyKept | backend/src/validators/expensesValidator.js:24-37 | a legacy name is accepted and mapped to its target |
| ExpensesValidator.CanonicalKept | backend/src/validators/expensesValidator.js:31-37 | a canonical name is accepted and returned unchanged |
| ExpensesValidator.CanonicaliseIdempotent | backend/src/validators/expensesValidator.js:54-65 | the transform's output is accepted and transforms to itself |
| ExpensesValidator.ParseCreate | backend/src/validators/expensesValidator.js:3-71 | the create schema accepts iff the amount is a positive number, the category is accepted, the date coerces, and the note is at most 500 characters; the note defaults to "" |
| ExpensesValidator.ParseUpdate | backend/src/validators/expensesValidator.js:73-143 | accepted iff each given amount, category, date and note meets the create schema's constraint and the id has 24 characters; each field is present iff given, holding the given amount, the canonical category, the coerced date and the given note |
| ExpensesValidator.ParseId | backend/src/validators/expensesValidator.js:145-151 | the id schema accepts iff the id is exactly 24 characters |
| Schema.CoerceDate | backend/src/validators/expensesValidator.js:66 | `z.coerce.date()`: null is time 0, a finite number is valid within ±8.64e15 ms, a string is whatever `Date.parse` gives |
| UserValidator.ParseUserMeta | backend/src/validators/userValidator.js:4-28 | accepted iff each present field is in bounds (budget in [0, 1000000], six user types, names of 1 to 50 characters) and at least one field is present; each field is present iff given and holds the given value |
| UserValidator.OtherKeysOnly | backend/src/validators/userValidator.js:26-28 | a body with none of the four fields is rejected |
| PredictValidator.ParsePredict | backend/src/validators/predictValidator.js:3-8 | horizonDates is coerced to a number and accepted iff in [1, 12]; it defaults to 1 when missing, and a missing body defaults too |
| PredictValidator.FractionalHorizonPasses | backend/src/validators/predictValidator.js:5 | 2.5 passes: integrality is not enforced |
| UserMetaController.MetaUpdate | backend/src/controllers/userMetaController.js:10-35 | the update holds exactly the present fields among monthlyBudget and userType |
| UserMetaController.MetaReply | backend/src/controllers/userMetaController.js:41-49 | an updated user gives 200, a missing one 404, a throw 500 |
| UserMetaController.UpdateUserMeta | backend/src/controllers/userMetaController.js:5-51 | 401 before the body is examined; 400 for a NaN or negative budget, an unknown user type, or no field; an update is sent exactly when the checks pass, and it is the update of the body |
| UserMetaController.StoredMeta | backend/src/controllers/userMetaController.js:13-19 | a stored finite budget is the integer within half a unit of the number given (`Math.round`, never negative), +Infinity is kept, and the user type is the one given |
| UserMetaController.OtherFieldsIgnored | backend/src/controllers/userMetaController.js:10 | bodies that agree on monthlyBudget and userType are accepted alike and give the same update |
| UserController.EmailText | backend/src/controllers/userControllers.js:44 | the trimmed, lower-cased email text starts and ends with non-blank characters and has no capital letter |
| UserController.EmailFrom | backend/src/controllers/userControllers.js:45 | local@domain.tld with blank-free, `@`-free non-empty parts matches the email pattern |
| UserController.EmailShape | backend/src/controllers/userControllers.js:45 | a matching email has no blank, exactly one `@`, and at least five characters |
| UserController.ProfileUpdate | backend/src/controllers/userControllers.js:35-63 | the update holds exactly the present fields among name, email, monthlyBudget and userType |
| UserController.ProfileReply | backend/src/controllers/userControllers.js:68-77 | an updated user gives 200; a missing one 404; a duplicate-email error (code 11000 on email) 400; any other throw 500 |
| UserController.UpdateProfile | backend/src/controllers/userControllers.js:20-79 | 401 first, then 400 for the name, email, budget and user type in that order, then 400 for an empty update; an update is sent exactly when all checks pass |
| UserController.StoredProfile | backend/src/controllers/userControllers.js:37-57 | a stored name is "", a stored email is the trimmed, lower-cased text, and a stored budget is the number unrounded |
| UserController.BudgetRoundingDiffers | backend/src/controllers/userControllers.js:51-57 | a budget of 10.4 is stored as 10 by the user-meta handler and as 10.4 by the profile handler |
| UserController.NameCheckInverted | backend/src/controllers/userControllers.js:38 | a string with any non-blank character is rejected |
| ShowExpenses.TwoDigits | frontend/src/pages/showExpenses.jsx:16 | `padStart(2, '0')` of a number below 100: two digits with that value |
| ShowExpenses.MonthKey | frontend/src/pages/showExpenses.jsx:15-17 | "YYYY-MM": the year and the month 01..12, separated by one '-' |
| ShowExpenses.DayKey | frontend/src/pages/showExpenses.jsx:18-20 | "YYYY-MM-DD", month and day zero-padded |
| ShowExpenses.WeekKey | frontend/src/pages/showExpenses.jsx:21-28 | the ISO week-year, "-W" and the two-digit ISO week number |
| Calendar.IsoWeekOf | frontend/src/pages/showExpenses.jsx:21-28 | the week of a date is in 1..53 and is counted in the year holding that week's Thursday |
| Calendar.Jan4InWeekOne | frontend/src/pages/showExpenses.jsx:21-28 | 4 January always lies in week 1 of its own year |
| Calendar.SameIsoWeek | frontend/src/pages/showExpenses.jsx:21-28 | consecutive days share their ISO week unless the second is a Monday |
| Calendar.NextIsoWeek | frontend/src/pages/showExpenses.jsx:21-28 | the Monday after a Sunday starts the next week: week + 1, or week 1 of the next year |
| Calendar.IsoWeekday | frontend/src/pages/showExpenses.jsx:23 | `getUTCDay() \|\| 7`: 1 for Monday through 7 for Sunday |
| Calendar.DaysInMonth | frontend/src/pages/dashboard.jsx:98 | 28..31 days: 29 in February exactly in leap years, 30 in April, June, September and November |
| Calendar.MonthsMakeYear | frontend/src/pages/dashboard.jsx:98 | the twelve months add up to the year's length |
| Calendar.DayOfOrder | frontend/src/pages/showExpenses.jsx:189 | day numbers order dates chronologically and identify them |
| Calendar.PrevMonth | frontend/src/pages/dashboard.jsx:63-64 | the month before: month − 1 of the same year, or December of the previous year |
| Calendar.MonthShift | frontend/src/pages/dashboard.jsx:88 | `new Date(y, m, 1)` normalises an out-of-range month into the right year |
| Calendar.LastDayOfMonth | frontend/src/pages/dashboard.jsx:98 | day 0 of the following month is the current month's number of days |
| ShowExpenses.KeyToLabel | frontend/src/pages/showExpenses.jsx:29-40 | an empty key gives ""; a daily key is unchanged |
| ShowExpenses.MonthLabel | frontend/src/pages/showExpenses.jsx:31-35 | the label of a month key is "Mon YYYY" |
| ShowExpenses.LabelOfParts | frontend/src/pages/showExpenses.jsx:31-35 | a "Y-MM" key with month 01..12 is labelled with that month's short name and the year |
| ShowExpenses.WeekLabel | frontend/src/pages/showExpenses.jsx:36-38 | the label of a week key is "YYYY WNN": the first '-' replaced by a space |
| ShowExpenses.WeekLabelOfParts | frontend/src/pages/showExpenses.jsx:36-38 | only the first '-' of a weekly key is replaced |
| ShowExpenses.KeyOrderStrict | frontend/src/pages/showExpenses.jsx:180-190 | each aggregation's comparator is an irreflexive, transitive order |
| ShowExpenses.MonthKeyOrder | frontend/src/pages/showExpenses.jsx:181-184 | monthly keys sort by (year, month) |
| ShowExpenses.MonthKeySame | frontend/src/pages/showExpenses.jsx:15-17 | two dates share a month key iff they share year and month |
| ShowExpenses.WeekKeyOrder | frontend/src/pages/showExpenses.jsx:185-188 | weekly keys sort by (ISO year, ISO week) |
| ShowExpenses.DayKeyOrder | frontend/src/pages/showExpenses.jsx:189 | daily keys sort chronologically and are distinct for distinct days |
| ShowExpenses.FilteredList | frontend/src/pages/showExpenses.jsx:118-128 | a subsequence of the list holding exactly the items that pass the category filter and whose category, note or amount includes the lower-cased search; each as often as in the list; everything when neither is set |
| ShowExpenses.SearchIgnoresCase | frontend/src/pages/showExpenses.jsx:123 | lower-casing the search does not change what matches |
| ShowExpenses.InRange | frontend/src/pages/showExpenses.jsx:160-167 | exactly the items with a valid date in [start, end], each as often as in the list, in order, with their dates |
| ShowExpenses.Grouped | frontend/src/pages/showExpenses.jsx:159-194 | the in-range items; one point per distinct key, holding its label, its key and the sum of its items' `Number(amount) \|\| 0`; keys sorted chronologically when dates are comparable |
| ShowExpenses.SortedKeysStrict | frontend/src/pages/showExpenses.jsx:180-190 | the sorted keys are distinct and strictly increasing |
| ShowExpenses.AvgPerPeriod | frontend/src/pages/showExpenses.jsx:198-199 | round(total / max(1, periods)), never NaN |
| ShowExpenses.ChartTotal | frontend/src/pages/showExpenses.jsx:196-197 | the total in range is the sum of the in-range items' amounts |
| ShowExpenses.Categories | frontend/src/pages/showExpenses.jsx:202-205 | "All" followed by the distinct truthy categories in order of first appearance |
| Grouping.Fold | frontend/src/pages/showExpenses.jsx:169-178 | the key list and the sums map stay consistent |
| Grouping.FoldKeys | frontend/src/pages/showExpenses.jsx:180 | the map's keys are the entries' keys, de-duplicated, in order of first insertion |
| Grouping.Accumulate | frontend/src/pages/showExpenses.jsx:170-178 | the `forEach` that adds into the map computes the fold |
| Grouping.FoldSums | frontend/src/pages/showExpenses.jsx:176-177 | each key's value is the sum of that key's amounts |
| Grouping.FoldTotal | frontend/src/pages/dashboard.jsx:80-83 | the grouped sums add up to the sum of all amounts |
| Sequences.SortBy | frontend/src/pages/showExpenses.jsx:180-190 | `Array.prototype.sort` as a stable insertion sort: the same elements with the same multiplicities |
| Sequences.SortBySorted | frontend/src/pages/showExpenses.jsx:180-190 | for an irreflexive, transitive comparator the result is sorted |
| Sequences.TopNFacts | frontend/src/pages/dashboard.jsx:173-175 | sort then `slice(0, n)`: sorted, drawn from the input, and nothing left out comes before a kept element |
| Sequences.Dedup | frontend/src/pages/showExpenses.jsx:203 | `new Set(…)` in order: each element once, in order of first appearance |
| Text.Trim | backend/src/validators/expensesValidator.js:31 | `String.prototype.trim`: the text without leading or trailing JavaScript whitespace |
| Text.TrimIdempotent | backend/src/validators/expensesValidator.js:62 | trimming twice is trimming once |
| Text.Lower | frontend/src/pages/showExpenses.jsx:123 | ASCII lower-casing, letter by letter, with the same length |
| Text.NatToStringRoundTrip | frontend/src/pages/showExpenses.jsx:16 | the decimal digits of a number read back as that number |
| Text.SplitOnce | frontend/src/pages/showExpenses.jsx:32 | splitting a string with one separator yields its two sides |
| JsValues.JsRound | backend/src/mlServices/mlService.js:62 | `Math.round` keeps non-finite values and rounds finite ones half up |
| JsValues.JsMax0 | backend/src/mlServices/mlService.js:62 | `Math.max(0, x)`: NaN stays NaN, -Infinity becomes 0 |
| JsValues.NumLessStrict | frontend/src/pages/dashboard.jsx:174 | numeric `<` is irreflexive, transitive, and false whenever NaN is involved |
| PredictPage.ObjectKeys | frontend/src/pages/Predict.jsx:12 | `Object.keys`: every key once, exactly the object's keys |
| PredictPage.OrderedKeys | frontend/src/pages/Predict.jsx:14-22 | the sorted keys are a permutation of the object's keys |
| PredictPage.Normalize | frontend/src/pages/Predict.jsx:7-31 | an array is returned as is, a number n as [n], an all-numeric-keyed object as its values by sorted key, another object as its values, anything else as [] |
| PredictPage.NormalizeObjectValues | frontend/src/pages/Predict.jsx:11-25 | for an object the result holds exactly its values |
| PredictPage.OrderedByDate | frontend/src/pages/Predict.jsx:17-22 | when every key is date-parseable, the values come in ascending date order |
| PredictPage.OrderedByNumber | frontend/src/pages/Predict.jsx:17-22 | when no key is date-parseable, the values come in ascending numeric order |
| PredictPage.ChartData | frontend/src/pages/Predict.jsx:71 | one point per value, in order, named "T+1", "T+2", … |
| PredictPage.ChartLabelsDistinct | frontend/src/pages/Predict.jsx:71 | chart labels are pairwise distinct |
| PredictPage.TotalDisplay | frontend/src/pages/Predict.jsx:73-75 | the sum of `Number(x) \|\| 0` when there are values, else the raw number, else null |
| PredictPage.TotalOfFinite | frontend/src/pages/Predict.jsx:73-75 | on finite values the total is the exact sum |
| PredictPage.TotalPrediction | frontend/src/pages/Predict.jsx:60-75 | the chart is the normalised `total_prediction` charted point by point (an array's items in order) and the total is its display total; a missing or non-numeric, non-container `total_prediction` gives an empty chart and null |
| PredictPage.SingleNumberChart | frontend/src/pages/Predict.jsx:10 | a single number gives the one point "T+1" |
| PredictPage.SingleNumberTotal | frontend/src/pages/Predict.jsx:73-75 | a single number's total is that number, or 0 for NaN |
| LoginPage.CheckPassword | frontend/src/pages/Login.jsx:157-164 | each checklist flag holds exactly when its class of character occurs, and matchesBackend exactly when the regex matches |
| LoginPage.RegexMeaning | frontend/src/pages/Login.jsx:24 | the regex matches iff length ≥ 6, an uppercase letter, a digit and one of @$!%*?& occur, and every character is allowed |
| LoginPage.MatchTicksAll | frontend/src/pages/Login.jsx:157-164 | a match ticks every box of the checklist |
| LoginPage.TickedButRejected | frontend/src/pages/Login.jsx:157-164 | every box ticked but a disallowed character present: no match |
| LoginPage.IsValid | frontend/src/pages/Login.jsx:166-174 | email and password are required; sign-up also needs a name and a matching password; login applies no password rule |
| LoginPage.Submit | frontend/src/pages/Login.jsx:176-203 | something is sent iff the form is valid and both servers are awake; the form, the ML server and the backend are checked in that order |
| Dashboard.MonthExpenses | frontend/src/pages/dashboard.jsx:66-73 | a subsequence holding exactly the expenses dated in the given month, each as often as in the list |
| Dashboard.TotalOf | frontend/src/pages/dashboard.jsx:75-77 | the sum of `Number(amount) \|\| 0`, exact on finite amounts |
| Dashboard.BreakdownSumsToTotal | frontend/src/pages/dashboard.jsx:79-83 | the category breakdown adds up to the month's total |
| Dashboard.Last6Months | frontend/src/pages/dashboard.jsx:86-96 | exactly six entries, oldest first, each one month after the previous, ending at the current month, each with that month's total |
| Dashboard.TrendSteps | frontend/src/pages/dashboard.jsx:86-96 | six entries built by month offsets end at the current month and advance one month at a time |
| Dashboard.RecentExpenses | frontend/src/pages/dashboard.jsx:105 | at most six expenses, newest first, drawn from the list, and nothing left out is newer than one kept |
| Dashboard.DashboardStats | frontend/src/pages/dashboard.jsx:54-110 | this and last month's totals, the overall total, the breakdown, the trend, the daily average over the month's days and the transaction count |
| Dashboard.PercentChange | frontend/src/pages/dashboard.jsx:170 | 0 when last month is 0, else (this − last)/\|last\|·100 |
| Dashboard.IncreaseSign | frontend/src/pages/dashboard.jsx:171 | for finite totals, isIncrease holds iff last month is 0 or this month is at least last month |
| Dashboard.TopCategories | frontend/src/pages/dashboard.jsx:173-175 | at most six categories with their sums, non-increasing, and none left out has a larger sum than one shown |
| MlApi.Lag | mlModel/ml_api.py:39-41 | `ts[-k]` when the history is long enough, else `ts[-1]` |
| MlApi.Tail | mlModel/ml_api.py:43-45 | `ts[-k:]`: the last k values, or all of them |
| MlApi.CreateFeatures | mlModel/ml_api.py:36-60 | lag 1 is the last value; lags and windows fall back on a short history; trend is 0 up to three values; the change is 0 for one |
| MlApi.RollingWithinRange | mlModel/ml_api.py:43-45 | every rolling mean lies between the history's bounds |
| MlApi.ConstantHistory | mlModel/ml_api.py:36-48 | on a constant history every lag and window equals the constant, and trend and change are 0 |
| MlApi.MonthIndex | mlModel/ml_api.py:86 | the month index is always in 1..12 |
| MlApi.MonthCycle | mlModel/ml_api.py:83-86 | it starts at the current month, follows December with January and repeats every twelve steps |
| MlApi.Round2 | mlModel/ml_api.py:111 | rounding to hundredths moves a value by at most 0.005 and lands on a whole number of hundredths |
| MlApi.Steps | mlModel/ml_api.py:85-111 | after n steps there are n predictions and the history has grown by exactly n values, keeping its start; step i's appended value is the model's answer for the history before it with month index i, and its prediction is that answer back in rupees, rounded to the hundredth |
| MlApi.FedHundredths | mlModel/ml_api.py:108-111 | every prediction a run reports has at most two decimals |
| MlApi.ForecastResponse | mlModel/ml_api.py:71-116 | always horizon predictions, each a whole number of hundredths; an empty history gives horizon zeros; otherwise the error is the first exception of the step loop from the log1p history, and without one the predictions are that loop's answers, each the model's reply to the history so far converted back to rupees and rounded |
| MlApi.EmptyIgnoresModel | mlModel/ml_api.py:75-76 | an empty history never reaches the model |
| MlApi.Forecast | mlModel/ml_api.py:66-116 | the loop computes the route's response |
| MlApi.StepsFail | mlModel/ml_api.py:115-116 | once a step raises, every longer run fails with the same message |

## Left out

- HTTP and database I/O become parameters. This covers the returned expenses, the aggregation rows, `findByIdAndUpdate`'s outcome and the HTTP client's reply or throw, but not the requests themselves, their headers or their timeouts.
- The clock, `Math.random`, `Math.sin`, `Math.sqrt`, `Date.parse`, number formatting, the trained model and numpy's `log1p`/`expm1` are given functions. Only what holds for every such function is claimed.
- Floating point is not modelled: amounts are exact reals. Under IEEE doubles the allocation's sum could in principle drift.
- Express plumbing (`res`, `next`), logging, toasts, React state and rendering, and the health checks' HTTP calls are left out. Server wake-up state is an input of `LoginPage.Submit`.
- The prediction controller is modelled on its own; the service result it consumes is an input. This is because of the import mismatch described above.
- `getProfile`, the other pages and components, the routes, authentication, rate limiting and the model training scripts are not part of this model.
- Lengths of strings are counted in characters, not UTF-16 code units. Lower-casing and the whitespace set cover ASCII letters and JavaScript's whitespace characters only.
- `Object.keys` order: the model keeps an object's keys in insertion order. It does not move integer-like keys first as JavaScript does.
- `PredictPage.OrderedByDate`: the mixed comparator is characterised only when every key is date-parseable or none is. A mix of date and plain-number keys is sorted, but no order is claimed for it.
- `PredictPage.Normalize`: the `try/catch` around `Object.keys` and the sort is not modelled, because nothing in the modelled values can throw.
- `Dashboard.DashboardStats`: the month name from `toLocaleDateString` is not produced. Its trend entries carry year and month instead.
- `Dashboard.DashboardStats`: a non-array `res.data` is not modelled; the expenses are a sequence.
- `ShowExpenses.Grouped`: the start and end of the range are inputs. The preset and custom-date logic that computes them, with its `subMonths` and `setHours`, is not modelled.
- `MlApi.ForecastResponse`: a negative horizon is treated as 0, like Python's `range`. pandas' column alignment, and the model's own behaviour beyond returning a number or raising, are left out.
- `MlApi.Forecast`: the current month is a parameter rather than `datetime.now().month`.
- `MlServiceBackup.CleanSeries`: the variance and its square root are given functions. Only the bounds of the factor are claimed, not its exact value.
- `MlServiceBackup.StepForecast`: the trend, seasonal and random factors are given. Only [round(0.5·mean), round(1.5·mean)] is claimed.
- `PredictController.GrowthForecast`: `Math.pow(1.015, step)` is computed exactly, step by step, rather than by the floating-point library function. `MlServiceBackup.StepForecast` computes `mean * Math.pow(baseGrowth, i)` the same way.
- `Dashboard.RecentExpenses`: its order is claimed only for valid dates. On an invalid date the comparator `new Date(b.date) - new Date(a.date)` yields NaN, read as 0, so it is inconsistent and the sort's order is implementation-defined; the model's stable sort fixes one order. The same holds for `ShowExpenses.Grouped`'s sort of daily keys that do not parse.
- `PredictController.PredictionLength`: the `RangeError` of an impossible array length (for +Infinity, or a length above 2³² − 1) is modelled as the 500 "Prediction failed" error the handler turns it into.
- `UserController.UpdateProfile`: the database's unique index is not modelled. Its duplicate-key error is an input to `UserController.ProfileReply`.
- `ShowExpenses.WeekKey`: `Date.UTC` reads a year 0..99 as 1900 + y; the model does not. For an expense dated in years 0..99 the page keys the ISO week of 1900 + y, while the model keys the week of the date's own year. In early January of year 100, whose Thursday falls in year 99, the page measures from 1 January 1999 and gets a large negative week number; the model gives week 52 or 53 of year 99.
- `Calendar.IsoWeekOf`: the week is computed in the date's own year, without the 0..99 → 1900 + y reading of `Date.UTC` described for `ShowExpenses.WeekKey`. Its range 1..53 holds for the model, not for the page's years 0..100.
- `Calendar.MonthShift`: `new Date(y, m, 1)` reads a year 0..99 as 1900 + y; the model does not. The year is the clock's current year, so this differs only for a clock set to years 0..99.
- `Calendar.LastDayOfMonth`: `new Date(y, m + 1, 0)` reads a year 0..99 as 1900 + y; the model does not. For example February of year 0 has 29 days in the model and 28 (those of 1900) on the page.
- `UserMetaController.MetaReply`: middleware/errorHandler.js is not part of this model. The model assumes that `new errorHandler(status, message)` and `notFound(404, 'User not found')` each produce an error carrying that status and message. If `notFound` is an Express middleware instead, the call throws inside the `try` and the client gets 500.
- `UserMetaController.UpdateUserMeta`: its 401 and 400 answers rest on the same assumption about `errorHandler`.
- `UserController.ProfileReply`: rests on the same assumption about `errorHandler` and `notFound`.
- `UserController.UpdateProfile`: its 401, 400 and 500 answers rest on the same assumption about `errorHandler`.
