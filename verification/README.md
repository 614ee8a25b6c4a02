# Spending forecast decision pipeline

A Dafny model of the forecasting core of the Spendly tracking service's
`/predict` endpoint (`flask/app.py`). The endpoint takes a user's stored
`transactions` mapping, whose keys are category labels and whose values are
lists of items. It returns, for every expense category, a predicted total for
the next month. The model covers the path from the stored mapping to the
result mapping:

- **Extraction** (`Records`): income categories are skipped, whatever their
  letter case. Non-list values are skipped. Items lacking a `date` or an
  `amount` are skipped. Every remaining item becomes a (category, date,
  amount) row.
- **Date parsing** (`Pipeline.FirstUnparseable`): one date that cannot be
  parsed fails the whole request. A date is parseable when it is a real
  calendar date inside pandas' nanosecond timestamp range.
- **Same-day aggregation** (`Grouping.GroupSum`, `Series.Aggregate`): rows
  that share a category and a date are summed into one.
- **Sufficiency score** (`Sufficiency.Score`): for one category's daily
  series this is 0.5·n/30 + 0.3·span/365 + 0.2/(1 + sample variance). The
  score is undefined (NaN) when the series has fewer than two points.
- **Routing** (`Forecast.ForecastCategory`): a score strictly above 0.5 takes
  the seasonal forecaster, and the prediction is the sum of the last 30
  forecast values. Any other score, including an undefined one, takes the
  fallback: the mean of the category's calendar-month totals
  (`Fallback.MonthlyMean`).
- **Result assembly** (`Pipeline.Assemble`, `Pipeline.Predict`): one entry per
  category. A failed seasonal fit aborts the whole request.

The seasonal forecaster (Prophet) is a parameter of type
`seq<Point> -> Option<seq<real>>`. It receives the category's daily series and
returns the `yhat` column, or `None` when fitting raises. The model proves
facts about its own control flow for every such function. It proves nothing
about what Prophet computes.

Three behaviours of the code are easy to misread:

- A category with a single day of spending: `df['y'].var()` is NaN, not 0, for
  one value. The score is therefore NaN, the comparison with 0.5 is false, and
  the category falls back to its monthly mean. The model computes no score
  for such a series (`Score` returns `None`).
- A mapping with no eligible expense: the empty frame has no `ds` column, so
  line 115 raises and the request fails with status 500. It does not return
  an empty mapping. The model returns `Failure(NoExpenses)`.
- An item without a `date` key or an `amount` key is skipped silently
  (line 104). It is not an error. A category whose items all lack a field
  therefore has no entry in the result.

Records are `Item(date: Option<Date>, amount: Option<real>)`, where `None`
stands for a missing key. The stored mapping is a sequence of
(label, `Stored`) pairs in the dictionary's iteration order. Dates are
`Date(year, month, day)` triples. Amounts and scores are mathematical reals.

## Model

| member | source | states |
|---|---|---|
| Records.ExtractSpec | flask/app.py:99-109 | no extracted row has an income label; every row comes from a complete item of a list stored under its own label; every complete item of a non-income list is extracted |
| Records.KeptSpec | flask/app.py:102-109 | within one list, one row is kept per item carrying both a date and an amount, so duplicates stay; the kept rows are exactly those items, labelled with the category |
| Pipeline.ExtractEmptyIff | flask/app.py:99-115 | extraction yields nothing exactly when no complete item sits under a non-income label |
| Pipeline.FirstUnparseable | flask/app.py:115 | returns nothing exactly when every extracted date parses; otherwise returns an unparseable date that some extracted row carries |
| Pipeline.UnparseableDateFails | flask/app.py:114-118 | the request fails with a date error exactly when some stored expense item has a date the parser rejects |
| Grouping.AddInto | flask/app.py:118 | adding an amount under a key changes only that key's sum, adds the key if it is new, and grows the table by at most one row |
| Grouping.GroupSum | flask/app.py:118 | the grouped table has each key once, exactly the keys of the input, the input's per-key sums and the input's total |
| Grouping.GroupSumRows | flask/app.py:118 | every row of the grouped table carries the sum of all input amounts with its key |
| Grouping.DistinctKeysCount | flask/app.py:66 | a table with distinct keys has as many rows as keys |
| Series.AggregateSpec | flask/app.py:118 | after same-day aggregation each (category, date) pair appears once, carries the sum of that day's rows, and appears exactly when some row has it |
| Series.CategorySeriesSpec | flask/app.py:124-126 | a category's series has one point per distinct date the category has a row on and no other points, each carrying that day's sum; its amounts add up to the category's total |
| Series.SeriesOf | flask/app.py:126 | a category's series is non-empty exactly when the table has a row of that category |
| Series.Categories | flask/app.py:124 | lists each category of the table exactly once and nothing else |
| Pipeline.ExtractSumOn | flask/app.py:99-118 | the extracted rows for a category on a day add up to everything stored under that label on that day |
| Pipeline.CategorySeriesRecorded | flask/app.py:99-126 | a category's series has exactly one point for each day on which a complete item is stored under that label, and no other points; each point carries the total the stored mapping records for that category on that day |
| Pipeline.InTableIffExpense | flask/app.py:99-124 | a category appears in the aggregated table exactly when its label holds a complete item and is not income |
| Dates.DayNumberMonotone | flask/app.py:29 | for valid dates the day ordinal strictly grows with the calendar order |
| Dates.DayNumberNext | flask/app.py:29 | the day after a valid date is a valid later date whose ordinal is exactly one more, so ordinal differences count elapsed days as `.days` does |
| Dates.DayNumberInjective | flask/app.py:29 | distinct valid dates have distinct day ordinals |
| Sufficiency.SampleVariance | flask/app.py:30 | the sample variance is defined exactly for two or more values and is never negative |
| Sufficiency.ConstantVarianceIsZero | flask/app.py:30 | equal values have sample variance zero |
| Sufficiency.FirstDay | flask/app.py:29 | the earliest day ordinal is no later than any point's day and is some point's day |
| Sufficiency.LastDay | flask/app.py:29 | the latest day ordinal is no earlier than any point's day and is some point's day |
| Sufficiency.Score | flask/app.py:21-39 | the score is defined exactly for two or more points; the volume and span terms are positive, and the stability term adds more than 0 and at most 0.2 |
| Sufficiency.FormulaMonotone | flask/app.py:33-37 | the score never decreases with more points or a longer span, and never increases with a larger variance |
| Sufficiency.ConstantSeriesScore | flask/app.py:33-37 | a series whose daily totals never change gets the whole 0.2 stability weight |
| Sufficiency.ThirtyPointsExceedHalf | flask/app.py:34 | thirty or more distinct days alone score above 0.5 |
| Fallback.MonthlyTotalsSpec | flask/app.py:63-66 | the monthly table has one row per calendar month of the series, no month twice, each carrying that month's sum; the rows add up to the series total |
| Fallback.MonthlyMeanTimesMonths | flask/app.py:58-71 | the fallback estimate times the number of months present equals the series total |
| Fallback.MonthlyMeanBetween | flask/app.py:69 | the fallback estimate lies between the smallest and the largest monthly total |
| Fallback.SingleMonthMean | flask/app.py:58-71 | a series confined to one calendar month is estimated at that month's total |
| Forecast.SinglePointFallsBack | flask/app.py:129-148 | a one-day series has no defined score and is predicted at its own amount |
| Forecast.LowScoreIgnoresForecaster | flask/app.py:133-148 | a score at or below 0.5, or an undefined score, gives the monthly mean whatever the forecaster would return |
| Forecast.HighScoreUsesForecaster | flask/app.py:133-145 | a score strictly above 0.5 takes the seasonal path: the prediction fails exactly when the fit fails, and is otherwise the sum of the forecast's last 30 values |
| Forecast.SeasonalNeedsTwoPoints | flask/app.py:129-133 | the seasonal path is taken only for two or more distinct days |
| Forecast.ThirtyDaysGoSeasonal | flask/app.py:133-145 | thirty or more distinct days always take the seasonal path, and the prediction fails exactly when the fit fails |
| Forecast.SeasonalSumsHorizonOnly | flask/app.py:141-145 | when the forecast covers the history and then the 30-day horizon, the prediction is the sum of exactly the horizon's values, i.e. the whole forecast minus the history's fitted values |
| Forecast.ThresholdIsStrict | flask/app.py:133 | a series scoring exactly 0.5 (days of 10, 10 and 11 a year apart) takes the fallback |
| Forecast.TwoMonthFallback | flask/app.py:58-71 | days of 100 and 50 in January and 30 in February fall back to a prediction of 90 |
| Pipeline.AssembleFailure | flask/app.py:123-152 | the loop fails exactly when some category's fit fails, and then with a fit error and no partial map |
| Pipeline.AssembleSuccess | flask/app.py:123-152 | a successful loop maps exactly the listed categories, each to the decision for its own series |
| Pipeline.PredictSpec | flask/app.py:99-152 | the request fails for want of expenses exactly when there are none; a successful result maps exactly the labels holding an expense, never an income label, each to the decision for its own daily series |
| Pipeline.FitFailureAborts | flask/app.py:133-152 | one seasonal-routed category whose fit fails makes the whole request fail with a fit error |
| Pipeline.ReliableForecasterSucceeds | flask/app.py:99-157 | with an expense present, every date parseable and a forecaster that never fails, the request succeeds |
| Pipeline.PredictFailsIff | flask/app.py:124-152 | when there is an expense and every date parses, the request fails exactly when some expense category takes the seasonal path and its fit fails; such a failure is always a fit error |

## Left out

- Request handling is not modelled: the HTTP layer, the `user_id` check (400), the document lookup (404), JSON encoding and the 500 error body. The model starts from the stored `transactions` mapping. A missing mapping behaves as an empty one.
- Firestore access is not modelled. It is I/O; the stored mapping is the model's input.
- Prophet's fitting and forecasting (lines 41-56, 138-142) are opaque. The forecaster is a parameter, and its failure is `None`.
- Date strings are not parsed. A stored date is already a `Date` triple, and `Parseable` stands for what `pd.to_datetime(..., format='ISO8601')` accepts. Time-of-day components and time zones are left out. With them, one calendar day could carry several timestamps, which the model cannot express.
- Blank dates are not modelled. A `date` key holding null or an empty string is not rejected at line 115: `pd.to_datetime` turns it into NaT, and `groupby` at line 118 drops rows whose key is NaT. Such an item vanishes silently. A label whose dates are all blank is missing from the result, and a mapping whose dates are all blank yields an empty result instead of failing. In the model every present `date` is either a `Date` or a parse failure, so it cannot express this case.
- Amounts and scores are mathematical reals, not IEEE doubles. Rounding, overflow and non-numeric amounts are not modelled.
- The row order of the grouped frame and of `unique()` is not modelled. The result is a map, so the order of its keys is irrelevant. The model does not follow the forecaster's own internal sorting.
- Item values that are not dictionaries are not modelled. For example, `'date' in item` on a string tests for a substring. Every item is a record with optional `date` and `amount` fields.
- Logging is left out.
- Income detection compares an ASCII lower-casing with `income`. For this comparison it agrees with Python's `str.lower`. No non-ASCII character lowers to one of the letters of `income`.
- Sufficiency.SampleVariance: only one direction is proved, that equal values give zero variance (`ConstantVarianceIsZero`). The converse, that zero variance forces equal values, is not proved.
- Sufficiency.Score: the contract bounds the score by the volume and span terms, plus at most 0.2. It does not restate the weighted formula, which is the function's body. `ConstantSeriesScore` and `ThresholdIsStrict` pin the formula on concrete cases.
- Fallback.MonthlyMean: it requires a non-empty series. pandas' NaN mean of an empty frame is never reached, because every category in the loop has at least one row.
