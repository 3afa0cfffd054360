# Revenue forecasting platform: preprocessing, backtest and forecast frames

This project models the sequential logic of a retail revenue forecasting
platform in Dafny and proves properties about it. The platform has three parts
around its statistical models: a preprocessing job that turns invoice lines
into a daily revenue series, a training script that backtests an ARIMA(5,1,5)
model over rolling blocks, and two front ends (a web API and a dashboard) that
turn a fitted model into a frame of dated forecasts.

- `common.dfy` (`Common`): optional values, results with the exceptions the
  code can raise, timestamps, sums and means, order-preserving filters.
- `load_data.dfy` (`LoadData`): the preprocessing block. It drops cancelled
  invoices ("C" prefix), rows with an unreadable date, and rows with a missing
  or non-positive quantity or price. It prices each line, sums the lines of
  each calendar day, fills the days in between with 0, and makes a copy divided
  by 10000.
- `model_handle.dfy` (`ModelHandle`): a fitted model seen as a capability
  (`get_forecast`, `conf_int`, `forecast`), and the interval path that both
  forecast helpers share.
- `train_arima.dfy` (`TrainArima`): the rolling backtest over blocks 1 to 11,
  written as a method with a loop. It covers the metrics record over blocks 8
  to 11 and the refit on the whole series.
- `frames.dfy` (`Frames`): forecast frames (a daily index, a forecast column,
  bound columns that are absent or hold numbers or NaN), and daily date ranges.
- `api_utils.dfy` (`ApiUtils`): the API helper. It anchors at today, scales
  inside the helper, and its fallback has no bound columns.
- `forecast_router.dfy` (`ForecastRouter`): the two API endpoints that serve
  that helper's frame.
- `forecast_dashboard.dfy` (`Dashboard`): the dashboard helper. It anchors at
  the last data date, leaves values unscaled, and its fallback has NaN bounds.
  The module also covers the Forecast tab, which scales each frame and collects
  them by model name, the Backtest tab's train/test split, and the Data tab's
  display series.
- `copies.dfy` (`Copies`): how the two helper copies relate.

Modelling choices:
- Dates are integer day ordinals.
- Money is `real`.
- Each exception is an `Err` value:
  - `ModelRaised` for the statistical library;
  - `ShapeError` for pandas or scikit-learn refusing arrays of the wrong length;
  - `NaTDate` for a date range started at "not a time".
- Parameters stand in for things outside the model:
  - the date parser of `pd.to_datetime`;
  - ARIMA fitting;
  - `r2_score` and `np.sqrt`;
  - the clock reading behind `pd.Timestamp.today()`.

Three facts about the code that the model keeps as they are:
- The warm-up of 7 blocks is a literal in the loop, not a setting.
- R² is whatever `r2_score` returns; no NaN value stands in for it.
- The API's fallback frame has no bound columns at all, while the dashboard's
  fallback keeps them filled with NaN.

## Model

| member | source | states |
|---|---|---|
| LoadData.Preprocess | services/load_data.py:53-68 | the raw table is contiguous and empty exactly when no line is kept; the scaled table has the same dates, and each of its values times 10000 is the raw value |
| LoadData.NotCancelled | services/load_data.py:54 | no kept row has an InvoiceNo starting with "C", and the result is never longer than its input (which rows remain: Common.FilterMembers) |
| Common.FilterMembers | services/load_data.py:54 | a row filter keeps each passing row exactly as many times as it occurs in the input and removes every other row |
| Common.FilterCons | services/load_data.py:54 | a row filter keeps the input's order: filtering a list is judging its first row, then filtering the rest |
| LoadData.CoerceDates | services/load_data.py:55 | every row is kept in place with its other cells unchanged, and its InvoiceDate replaced by the parser's result (NaT when it does not parse) |
| LoadData.Complete | services/load_data.py:56 | a row becomes a sale exactly when its InvoiceDate, Quantity and UnitPrice are all present, and then carries those values |
| LoadData.DropMissing | services/load_data.py:56 | the result is never longer than its input (which rows remain: Common.FilterMapMember) |
| Common.FilterMapMember | services/load_data.py:56 | a sale is kept exactly when it is the complete form of some input row |
| LoadData.KeepPositive | services/load_data.py:57 | every kept row has Quantity > 0 and UnitPrice > 0, and the result is never longer than its input |
| LoadData.AddRevenue | services/load_data.py:58 | every row is kept, in place, and gains Revenue = Quantity × UnitPrice |
| LoadData.Cleaned | services/load_data.py:54-58 | the result is never longer than the raw input, and every line that reaches the group-by has positive Quantity and UnitPrice and Revenue = Quantity × UnitPrice |
| LoadData.SingleRowKept | services/load_data.py:54-58 | a row survives every filter exactly when its InvoiceNo does not start with "C", its date parses, and Quantity and UnitPrice are present and positive; it then becomes one line with Revenue = Quantity × UnitPrice |
| LoadData.DroppedRowContributesNothing | services/load_data.py:54-68 | inserting a dropped row (cancelled, bad date, missing or non-positive cell) anywhere in the input leaves both daily tables unchanged |
| LoadData.KeptLineFacts | services/load_data.py:54-58 | every line reaching the group-by is not cancelled, has Quantity > 0 and UnitPrice > 0, and has Revenue = Quantity × UnitPrice > 0 |
| LoadData.CleanedLinesFromRows | services/load_data.py:54-58 | every kept line is what the row-wise cleaning makes of some input row |
| LoadData.CleanedConcat | services/load_data.py:54-58 | with one date parser applied to each cell, cleaning a concatenation concatenates the cleanings |
| LoadData.CleanedSingle | services/load_data.py:54-58 | on a one-row table the four stages agree with the row-wise reference definition |
| LoadData.CoerceDatesConcat | services/load_data.py:55 | with one date parser applied to each cell, coercing a concatenation concatenates the coercions |
| LoadData.AddRevenueConcat | services/load_data.py:58 | the Revenue column is computed row by row |
| LoadData.Accumulate | services/load_data.py:60 | adding a line's revenue to a date-sorted series keeps it sorted and non-empty, with the smaller of the new day and the old first day first |
| LoadData.AccumulateSpec | services/load_data.py:60 | after adding revenue v on day d, the series holds its old days plus d; day d's value grows by v and every other day is unchanged |
| LoadData.GroupByDay | services/load_data.py:60 | the grouped series is strictly increasing by date, and is empty exactly when no line is kept |
| LoadData.GroupByDaySpec | services/load_data.py:60 | the grouped series holds exactly the days on which kept lines fall, each with the sum of those lines' revenue |
| LoadData.GroupByDaySameDays | services/load_data.py:60 | grouping depends only on each line's calendar day and revenue |
| LoadData.CleanedSameDays | services/load_data.py:55-58 | two date parsers that agree on every row's calendar day give lines that agree on days and revenues |
| LoadData.TimeOfDayIgnored | services/load_data.py:55-62 | the time of day of an InvoiceDate never changes either table |
| LoadData.AsFreqDaily | services/load_data.py:62 | gap filling yields an empty table exactly for an empty series; otherwise one row per day, without gaps, from the series' first date to its last |
| LoadData.DailyTableSpan | services/load_data.py:60-62 | the raw table is contiguous (one row per day, no gaps); it is empty exactly when no line is kept, and it runs from the earliest to the latest day of a kept line |
| LoadData.DailyTableValues | services/load_data.py:57-62 | each day's sales equal the revenue of the kept lines on that day and are never negative; a day on which no kept line falls has 0 |
| LoadData.DayTotalAbsent | services/load_data.py:62 | the total of a day on which no line falls is 0, the fill value |
| LoadData.DayTotalNonNegative | services/load_data.py:57-60 | a day's total of positively priced lines is not negative |
| LoadData.DailyTableTotal | services/load_data.py:57-62 | the raw table's sales add up to the total revenue of the kept lines |
| LoadData.SpanTotalCoversAll | services/load_data.py:60-62 | summing day totals over a span that covers every line's day gives the total revenue |
| LoadData.TableTotal | services/load_data.py:62 | a table whose rows carry the day totals of consecutive days sums to the total over that span |
| LoadData.ScaledTable | services/load_data.py:64-68 | the scaled table has the raw table's dates in the same order, and each value times 10000 is the raw value |
| ModelHandle.TryIntervalPath | api/utils.py:30-39 | the interval path succeeds exactly when `get_forecast(steps)` and `conf_int(alpha)` succeed, the interval has two columns, and mean and both columns hold `steps` values; it then yields the mean, column 0 and column 1 |
| TrainArima.PySlice | services/train_arima.py:35 | a Python slice with non-negative bounds has their clamped difference as its length |
| TrainArima.TrainWindow | services/train_arima.py:35 | the training window of block i is the prefix of the series of length min(30·i, len) |
| TrainArima.TestWindow | services/train_arima.py:42 | the test window of block i is the slice from min(30·i, len) to min(30·(i+1), len), at most 30 values |
| TrainArima.Section | services/train_arima.py:35-47 | a block completes exactly when the fit and the 30-step forecast succeed and the test window is non-empty and as long as the forecast; otherwise it raises the fit's, the forecast's, or scikit-learn's shape error, in that order |
| TrainArima.WindowsTile | services/train_arima.py:35-42 | block i trains on the prefix of length 30·i; its test window starts where training ends; the two together are the prefix of length 30·(i+1); the test window is full exactly when the series reaches 30·(i+1) |
| TrainArima.MeanAbsoluteError | services/train_arima.py:45 | MAE is defined exactly for equal non-empty lengths, and raises otherwise |
| TrainArima.MeanSquaredError | services/train_arima.py:46 | MSE is defined exactly for equal non-empty lengths, and raises otherwise |
| TrainArima.MaeZeroIffExact | services/train_arima.py:45 | MAE is at least 0, and is 0 exactly when the forecast equals the truth |
| TrainArima.MseZeroIffExact | services/train_arima.py:46 | MSE is at least 0, and is 0 exactly when the forecast equals the truth |
| TrainArima.SquareZero | services/train_arima.py:46 | a zero squared error means a zero difference |
| TrainArima.ExactForecastScoresZero | services/train_arima.py:35-47 | a block whose forecast equals its non-empty test window completes with RMSE 0 and MAE 0 |
| TrainArima.SectionErrorsNonNegative | services/train_arima.py:45-46 | a completed block's RMSE and MAE are not negative |
| TrainArima.AveragedErrorsNonNegative | services/train_arima.py:61-63 | the averaged RMSE and MAE over the collected blocks are not negative |
| TrainArima.Sections | services/train_arima.py:34-49 | the printed sections are, in order, the scores of blocks 1 to n−1 |
| TrainArima.ScoreBlock | services/train_arima.py:35-47 | one loop pass, run as statements, yields exactly the block's `Section`: its scores, or the exception of fit, forecast or scoring |
| TrainArima.RunBlocks | services/train_arima.py:32-54 | the loop completes exactly when blocks 1 to 11 all complete, with sections from blocks 1 to 11 in order and lists holding exactly the scores of blocks 8 to 11; otherwise it raises the first failing block's exception |
| TrainArima.AllBlocksScored | services/train_arima.py:51-54 | after block 11 the loop's state is the whole schedule, with exactly 4 collected entries |
| TrainArima.RollingBacktest | services/train_arima.py:32-72 | a run succeeds exactly when all 11 blocks and the full refit succeed; the metrics record has the single key "ARIMA(5,1,5)" with the means of the 4 collected scores; the final model is the fit of the whole series; a failure is the first failing block's or the refit's |
| TrainArima.BlockNeedsFullTestWindow | services/train_arima.py:38-45 | with a full 30-step forecast, block i completes only if the series holds at least 30·(i+1) values |
| TrainArima.RunNeedsFullHistory | services/train_arima.py:34-45 | with full forecasts, a run that completes all blocks had at least 360 values |
| TrainArima.FullHistoryScoresEveryBlock | services/train_arima.py:34-47 | on 360 values or more, a block whose fit and full forecast succeed is scored |
| ApiUtils.GetForecastDf | api/utils.py:27-45 | on success the frame has `steps` rows dated on consecutive days from tomorrow; it has bound columns exactly when the interval path succeeded; it fails exactly when the interval path and then the point forecast fail (a raised forecast propagates, a wrong length is a shape error) |
| ApiUtils.IntervalPathScaledOnce | api/utils.py:30-39 | on the interval path the forecast, ci_lower and ci_upper are `predicted_mean`, column 0 and column 1 of `conf_int(alpha)` times 10000; dividing once by 10000 gives the model's values back |
| ApiUtils.FallbackOmitsBounds | api/utils.py:41-45 | when the interval path raises, the frame is the point forecast times 10000 with both bound columns absent |
| ApiUtils.Today | api/utils.py:33 | today is the calendar day of the clock reading, with the time of day dropped |
| ApiUtils.TimeOfDayIgnored | api/utils.py:33 | the result depends only on today's calendar day |
| Frames.DateRange | api/utils.py:33 | `pd.date_range(start, periods=n, freq="D")` holds n dates, the k-th being start + k days |
| ForecastRouter.Endpoint | api/routers/forecast.py:20-33 | a horizon outside 1..120 is rejected; for a missing model the handler returns the "model not available" body; a served response has `steps` forecasts and dates from tomorrow, and both bound lists or neither; the handler raises exactly when the horizon is accepted, the model present and the helper raises, and then with the helper's exception |
| ForecastRouter.ForecastArima | api/routers/forecast.py:20-33 | `GET /arima`: a request without `steps` is never rejected and is served 30 days; otherwise as the endpoint, under the name "ARIMA" |
| ForecastRouter.ForecastSarima | api/routers/forecast.py:35-48 | `GET /sarima`: the same, for the SARIMA model under the name "SARIMA" |
| ForecastRouter.DeliverAsWritten | api/routers/forecast.py:20-23 | as written, the client gets a 500 both when the helper raised and when the model is missing, and a 200 with the body exactly when the handler served one |
| ForecastRouter.MissingModelIsServerErrorAsWritten | api/routers/forecast.py:20-23 | as written, `GET /arima` with no ARIMA model ends in a 500, although the handler built a "not available" message |
| ForecastRouter.Deliver | api/routers/forecast.py:20-23 | corrected, a 500 means exactly that the helper raised, and a missing model is a 503 carrying the handler's message |
| ForecastRouter.MissingModelReported | api/routers/forecast.py:20-23 | corrected, either route answers a missing model with a 503 and its "not available" message, for every accepted horizon |
| ForecastRouter.BoundsListsFromIntervalPath | api/routers/forecast.py:30-31 | the bound lists are present exactly when the interval path succeeded, and then they are the frame's columns |
| Dashboard.GetForecastDf | services/forecast_dashboard.py:77-99 | on success there is a last date, the frame has `steps` rows dated on consecutive days after it, and it always has both bound columns; it fails exactly when both paths fail, with the forecast's exception, NaT, or a shape error |
| Dashboard.IntervalPathUnscaled | services/forecast_dashboard.py:79-88 | on the interval path the frame holds `predicted_mean` and columns 0 and 1 of `conf_int(alpha)`, unscaled |
| Dashboard.FallbackNaNBounds | services/forecast_dashboard.py:89-97 | when the interval path raises, the forecast is the plain `forecast` and every bound cell is NaN |
| Dashboard.ScaleCells | services/forecast_dashboard.py:141 | scaling keeps NaN cells NaN and multiplies every number |
| Dashboard.ScaleFrame | services/forecast_dashboard.py:141 | scaling a frame keeps its index and rows, multiplies its forecast, and scales both bound columns cell by cell without adding or removing them |
| Dashboard.MaxDate | services/forecast_dashboard.py:136 | the latest date is absent exactly for an empty table; otherwise it is a date of the table and no row is later |
| Dashboard.MaxDateOfContiguous | services/forecast_dashboard.py:136 | on a contiguous table the latest date is the last row's |
| Dashboard.ForecastTab | services/forecast_dashboard.py:136-147 | "ARIMA" is collected exactly when it is selected and loaded, and likewise "SARIMA"; each entry is that model's frame from the last date, scaled once; the tab fails exactly when a selected model's helper fails, with ARIMA's exception when ARIMA's helper fails |
| Dashboard.BacktestSplit | services/forecast_dashboard.py:166-167 | train followed by test is the whole table, and test holds the last min(N, rows) rows |
| Dashboard.BacktestPrediction | services/forecast_dashboard.py:172-180 | without the model there is no prediction; with it, the prediction is the helper's N forecasts from the last training date times 10000, or the helper's exception |
| Dashboard.BacktestTab | services/forecast_dashboard.py:164-180 | without models nothing is shown; the tab raises exactly when a loaded model's helper raises, ARIMA's exception first; a shown backtest has train + test = the table with exactly N test rows and, for each loaded model, the helper's N forecasts from the last training date times 10000 |
| Dashboard.ShortHistoryRaises | services/forecast_dashboard.py:164-178 | with no more than N rows of history, a backtest with any model raises |
| Dashboard.BacktestDatesAlign | services/forecast_dashboard.py:166-178 | on a contiguous table longer than N, the backtest forecast is dated exactly at the test rows' dates |
| Dashboard.PipelineBacktestAligned | services/forecast_dashboard.py:166-178 | on the scaled table the preprocessing writes, the backtest forecast is dated exactly at the test rows' dates |
| Dashboard.DatesSeq | services/forecast_dashboard.py:169-170 | the dates of a table in row order |
| Dashboard.DisplaySeries | services/forecast_dashboard.py:131 | the display series keeps the dates and multiplies each value by 10000 |
| Dashboard.DisplayUndoesScaling | services/forecast_dashboard.py:131 | displaying the scaled table gives back the raw daily table |
| Copies.CopiesAgree | api/utils.py:27-45 | the dashboard's helper anchored at today, then scaled as its callers scale, gives the API's result, except that NaN-filled bound columns stand where the API leaves them out |

## Left out

- Statistical internals are parameters. This covers ARIMA fitting, `get_forecast`, `conf_int` and `forecast`. Nothing is assumed about them, not even that lower ≤ mean ≤ upper.
- `r2_score` and `np.sqrt` are parameters. The zero facts about RMSE assume `sqrt(0) = 0`, and the non-negativity facts assume `sqrt` is non-negative.
- Floating point is not modelled. Money is `real`, so there is no rounding. NaN appears only as a bound-cell value, never in arithmetic.
- I/O is out of scope: CSV reading, the database (`read_sql`, `to_sql`, the table probing in `load_sales_table`), joblib and JSON files, environment settings, logging, `exit(1)` and the read-back check after writing.
- The loaders `load_models`, `load_model_safe` and `load_metrics` are left out. The model receives each loaded model as an optional value.
- The UI is left out: Streamlit layout, caching, the plotting and the Model Card tab.
- Date formatting is left out, both `strftime` in the endpoints and dates as calendar objects. Dates are day ordinals.
- The fitted model the API serves is aligned by position. `pd.DataFrame` would align a pandas Series returned by `forecast` by its own index; the model does not capture that.
- In-place updates are modelled as new values. This covers column assignment, index replacement, `set_index(inplace=True)` and `fc *= SCALE`. One name is never shared between two frames, so no aliasing is lost.
- Only the outcome of the web framework's response validation is modelled (see Findings), not the error document it sends.
- The widgets' initial values (30 days, "Compare both", a 30-day backtest) are not modelled; the tabs take any value the widgets allow.
- LoadData.CoerceDatesConcat, LoadData.CleanedConcat and LoadData.DroppedRowContributesNothing: the date parser is one function applied to each cell. `pd.to_datetime` infers a format from the whole column, so adding or removing a row could change how the other rows parse. These lemmas do not capture that. For rows removed by the cancellation filter, which runs before parsing, they hold regardless.
- Of the data flow between files, only the path from the preprocessing's scaled table to the dashboard's Backtest tab is modelled (Dashboard.PipelineBacktestAligned). That training reads the raw `daily_revenue` table, and that the saved and loaded model paths differ, is not modelled.
- TrainArima.MeanAbsoluteError: scikit-learn's other input checks (non-finite values, multi-output arrays) are not modelled.

## Findings

| source | as written | input that shows it | evidently intended | confidence | as-written member | corrected member |
|---|---|---|---|---|---|---|
| api/routers/forecast.py:20-23 | a route declared with `response_model=ForecastResponse` returns `{"error": "ARIMA model not available"}`, which lacks the model's required fields, so response validation fails and the client gets a bare 500 | `GET /arima` while the ARIMA model file is missing (`models["arima"] is None`) | the client learns that the model is not available, e.g. a 503 whose detail is that message | not executed | ForecastRouter.MissingModelIsServerErrorAsWritten | ForecastRouter.MissingModelReported |
