/** The dashboard's forecast logic: its own copy of the forecast-frame helper
    (anchored at the last data date, unscaled, NaN bounds on the fallback), the
    Forecast tab that scales each frame and collects it under the model's name,
    the Backtest tab's split of the history into train and test with a forecast
    anchored at the end of train, and the Data tab's display series. */
module Dashboard {
  import opened Common
  import opened ModelHandle
  import opened Frames
  import opened LoadData

  const SCALE: real := 10000.0
  const DEFAULT_ALPHA: real := 0.05
  /** The "Days to forecast" slider. */
  const MIN_DAYS: nat := 1
  const MAX_DAYS: nat := 120
  /** The "Backtest horizon (days)" input. */
  const MIN_BACKTEST: nat := 7
  const MAX_BACKTEST: nat := 90

  /** `get_forecast_df(model, last_date, steps, alpha)`. `lastDate` is `None`
      when it is "not a time", which `pd.date_range` refuses on either path. */
  function GetForecastDf(model: Handle, lastDate: Option<int>, steps: nat, alpha: real): (r: Result<Frame>)
    ensures r.Ok? ==> lastDate.Some? && DailyRows(r.value, lastDate.value + 1, steps) && r.value.bounds.Columns?
    ensures r.Err? <==>
      && (TryIntervalPath(model, steps, alpha).Err? || lastDate.None?)
      && (model.forecast(steps).Err? || lastDate.None? || |model.forecast(steps).value| != steps)
    ensures r.Err? ==>
      if model.forecast(steps).Err? then r == Err(model.forecast(steps).error)
      else if lastDate.None? then r == Err(NaTDate)
      else r == Err(ShapeError)
  {
    var interval := TryIntervalPath(model, steps, alpha);
    if interval.Ok? && lastDate.Some? then
      Ok(Frame(DateRange(lastDate.value + 1, steps), interval.value.mean,
               Columns(Cells(interval.value.lower), Cells(interval.value.upper))))
    else
      match model.forecast(steps)
      case Err(e) => Err(e)
      case Ok(mean) =>
        if lastDate.None? then Err(NaTDate)
        else if |mean| != steps then Err(ShapeError)
        else Ok(Frame(DateRange(lastDate.value + 1, steps), mean, Columns(NaNs(steps), NaNs(steps))))
  }

  /** On the interval path the frame holds the model's values as they are:
      forecast from `predicted_mean`, the bounds from columns 0 and 1 of
      `conf_int(alpha)`. */
  lemma IntervalPathUnscaled(model: Handle, lastDate: int, steps: nat, alpha: real)
    requires TryIntervalPath(model, steps, alpha).Ok?
    ensures
      var r := GetForecastDf(model, Some(lastDate), steps, alpha);
      var res := model.getForecast(steps).value;
      var ci := res.confInt(alpha).value;
      && r.Ok?
      && r.value.forecast == res.predictedMean
      && r.value.bounds == Columns(Cells(ci.columns[0]), Cells(ci.columns[1]))
  {
  }

  /** When the interval path raises, the frame keeps both bound columns but
      every cell of them is NaN, and the forecast is the plain `forecast`. */
  lemma FallbackNaNBounds(model: Handle, lastDate: int, steps: nat, alpha: real)
    requires TryIntervalPath(model, steps, alpha).Err?
    requires model.forecast(steps).Ok? && |model.forecast(steps).value| == steps
    ensures
      var r := GetForecastDf(model, Some(lastDate), steps, alpha);
      && r.Ok?
      && r.value.forecast == model.forecast(steps).value
      && r.value.bounds.Columns?
      && (forall k :: 0 <= k < steps ==> r.value.bounds.lower[k] == NaN && r.value.bounds.upper[k] == NaN)
  {
  }

  function ScaleCell(c: Cell, k: real): Cell
  {
    match c
    case NaN => NaN
    case Num(x) => Num(x * k)
  }

  function ScaleCells(s: seq<Cell>, k: real): (r: seq<Cell>)
    ensures |r| == |s|
    ensures forall i :: 0 <= i < |s| ==> (r[i].NaN? <==> s[i].NaN?)
    ensures forall i :: 0 <= i < |s| ==> s[i].Num? ==> r[i] == Num(s[i].x * k)
  {
    seq(|s|, i requires 0 <= i < |s| => ScaleCell(s[i], k))
  }

  /** `fc *= SCALE` on a whole frame: every number is multiplied, NaN stays NaN,
      and the index is untouched. */
  function ScaleFrame(f: Frame, k: real): (r: Frame)
    ensures r.index == f.index
    ensures r.forecast == ScaleValues(f.forecast, k)
    ensures r.bounds.Columns? <==> f.bounds.Columns?
    ensures f.bounds.Columns? ==>
      r.bounds == Columns(ScaleCells(f.bounds.lower, k), ScaleCells(f.bounds.upper, k))
    ensures forall first, steps :: DailyRows(f, first, steps) ==> DailyRows(r, first, steps)
  {
    match f.bounds
    case Omitted => Frame(f.index, ScaleValues(f.forecast, k), Omitted)
    case Columns(lower, upper) => Frame(f.index, ScaleValues(f.forecast, k), Columns(ScaleCells(lower, k), ScaleCells(upper, k)))
  }

  /** `df.index.max()`: `None` ("not a time") on an empty table. */
  function MaxDate(df: seq<DayRow>): (r: Option<int>)
    ensures r.None? <==> df == []
    ensures r.Some? ==> (exists k :: 0 <= k < |df| && df[k].date == r.value)
    ensures r.Some? ==> forall k :: 0 <= k < |df| ==> df[k].date <= r.value
  {
    if df == [] then None
    else match MaxDate(df[1..])
      case None => Some(df[0].date)
      case Some(m) => Some(if df[0].date < m then m else df[0].date)
  }

  /** On a contiguous daily table the latest date is the last row's. */
  lemma MaxDateOfContiguous(df: seq<DayRow>)
    requires Contiguous(df) && df != []
    ensures MaxDate(df) == Some(df[|df| - 1].date)
  {
    var m := MaxDate(df).value;
    var k :| 0 <= k < |df| && df[k].date == m;
    assert df[k].date <= df[|df| - 1].date;
  }

  /** The "Model" select box. */
  datatype ModelChoice = ChooseArima | ChooseSarima | CompareBoth

  predicate SelectsArima(c: ModelChoice)
  {
    c == ChooseArima || c == CompareBoth
  }

  predicate SelectsSarima(c: ModelChoice)
  {
    c == ChooseSarima || c == CompareBoth
  }

  /** The Forecast tab: build, scale and collect a frame for each selected and
      loaded model. An exception from the helper ends the tab. */
  method ForecastTab(
    df: seq<DayRow>, choice: ModelChoice, arima: Option<Handle>, sarima: Option<Handle>, days: nat)
    returns (forecasts: Result<map<string, Frame>>)
    requires MIN_DAYS <= days <= MAX_DAYS
    ensures forecasts.Ok? ==> forecasts.value.Keys <= {"ARIMA", "SARIMA"}
    ensures forecasts.Ok? ==> ("ARIMA" in forecasts.value <==> SelectsArima(choice) && arima.Some?)
    ensures forecasts.Ok? ==> ("SARIMA" in forecasts.value <==> SelectsSarima(choice) && sarima.Some?)
    ensures forecasts.Ok? && "ARIMA" in forecasts.value ==>
      && GetForecastDf(arima.value, MaxDate(df), days, DEFAULT_ALPHA).Ok?
      && forecasts.value["ARIMA"] == ScaleFrame(GetForecastDf(arima.value, MaxDate(df), days, DEFAULT_ALPHA).value, SCALE)
    ensures forecasts.Ok? && "SARIMA" in forecasts.value ==>
      && GetForecastDf(sarima.value, MaxDate(df), days, DEFAULT_ALPHA).Ok?
      && forecasts.value["SARIMA"] == ScaleFrame(GetForecastDf(sarima.value, MaxDate(df), days, DEFAULT_ALPHA).value, SCALE)
    ensures forecasts.Ok? ==> forall name :: name in forecasts.value ==>
      df != [] && DailyRows(forecasts.value[name], MaxDate(df).value + 1, days)
    ensures forecasts.Err? <==>
      || (SelectsArima(choice) && arima.Some? && GetForecastDf(arima.value, MaxDate(df), days, DEFAULT_ALPHA).Err?)
      || (SelectsSarima(choice) && sarima.Some? && GetForecastDf(sarima.value, MaxDate(df), days, DEFAULT_ALPHA).Err?)
    ensures forecasts.Err? ==>
      if SelectsArima(choice) && arima.Some? && GetForecastDf(arima.value, MaxDate(df), days, DEFAULT_ALPHA).Err?
      then forecasts.error == GetForecastDf(arima.value, MaxDate(df), days, DEFAULT_ALPHA).error
      else forecasts.error == GetForecastDf(sarima.value, MaxDate(df), days, DEFAULT_ALPHA).error
  {
    var lastDate := MaxDate(df);
    var collected: map<string, Frame> := map[];
    if SelectsArima(choice) && arima.Some? {
      var fc := GetForecastDf(arima.value, lastDate, days, DEFAULT_ALPHA);
      if fc.Err? {
        return Err(fc.error);
      }
      collected := collected["ARIMA" := ScaleFrame(fc.value, SCALE)];
    }
    if SelectsSarima(choice) && sarima.Some? {
      var fc := GetForecastDf(sarima.value, lastDate, days, DEFAULT_ALPHA);
      if fc.Err? {
        return Err(fc.error);
      }
      collected := collected["SARIMA" := ScaleFrame(fc.value, SCALE)];
    }
    forecasts := Ok(collected);
  }

  /** `df.iloc[:-n]` and `df.iloc[-n:]`. For `n == 0` Python reads `-0` as `0`:
      train is empty and test is everything. */
  function BacktestSplit(df: seq<DayRow>, n: nat): (r: (seq<DayRow>, seq<DayRow>))
    ensures r.0 + r.1 == df
    ensures n == 0 ==> r.0 == []
    ensures n > 0 ==> |r.1| == if n < |df| then n else |df|
  {
    if n == 0 || n >= |df| then ([], df) else (df[..|df| - n], df[|df| - n..])
  }

  /** What the Backtest tab shows: nothing without models, an exception from
      the helper, or the two halves and each present model's scaled forecast. */
  datatype BacktestView =
    | NoModels
    | Raised(error: Failure)
    | Shown(train: seq<DayRow>, test: seq<DayRow>, arimaPred: Option<seq<real>>, sarimaPred: Option<seq<real>>)

  /** The forecast of one model over the test horizon, anchored at the last
      training date and multiplied by SCALE. */
  function BacktestPrediction(model: Option<Handle>, train: seq<DayRow>, n: nat): (r: Result<Option<seq<real>>>)
    ensures model.None? ==> r == Ok(None)
    ensures model.Some? ==>
      var fc := GetForecastDf(model.value, MaxDate(train), n, DEFAULT_ALPHA);
      && (r.Err? <==> fc.Err?)
      && (r.Err? ==> r.error == fc.error)
      && (r.Ok? ==> r.value.Some? && |r.value.value| == n)
      && (r.Ok? ==> forall k :: 0 <= k < n ==> r.value.value[k] == fc.value.forecast[k] * SCALE)
  {
    match model
    case None => Ok(None)
    case Some(m) =>
      match GetForecastDf(m, MaxDate(train), n, DEFAULT_ALPHA)
      case Err(e) => Err(e)
      case Ok(fc) => Ok(Some(ScaleValues(fc.forecast, SCALE)))
  }

  /** The Backtest tab: with at least one model loaded, split the history and
      forecast the test horizon with each present model, ARIMA first; an
      exception from the helper ends the tab. */
  function BacktestTab(df: seq<DayRow>, n: nat, arima: Option<Handle>, sarima: Option<Handle>): (r: BacktestView)
    requires MIN_BACKTEST <= n <= MAX_BACKTEST
    ensures r.NoModels? <==> arima.None? && sarima.None?
    ensures r.Shown? ==> r.train + r.test == df && |r.test| == n
    ensures r.Shown? ==> (r.arimaPred.Some? <==> arima.Some?) && (r.sarimaPred.Some? <==> sarima.Some?)
    ensures r.Shown? && r.arimaPred.Some? ==> |r.arimaPred.value| == n
    ensures r.Shown? && r.sarimaPred.Some? ==> |r.sarimaPred.value| == n
    ensures r.Shown? && arima.Some? ==>
      var fc := GetForecastDf(arima.value, MaxDate(r.train), n, DEFAULT_ALPHA);
      fc.Ok? && r.arimaPred.value == ScaleValues(fc.value.forecast, SCALE)
    ensures r.Shown? && sarima.Some? ==>
      var fc := GetForecastDf(sarima.value, MaxDate(r.train), n, DEFAULT_ALPHA);
      fc.Ok? && r.sarimaPred.value == ScaleValues(fc.value.forecast, SCALE)
    ensures
      var lastDate := MaxDate(BacktestSplit(df, n).0);
      var arimaFails := arima.Some? && GetForecastDf(arima.value, lastDate, n, DEFAULT_ALPHA).Err?;
      var sarimaFails := sarima.Some? && GetForecastDf(sarima.value, lastDate, n, DEFAULT_ALPHA).Err?;
      && (r.Raised? <==> arimaFails || sarimaFails)
      && (r.Raised? && arimaFails ==> r.error == GetForecastDf(arima.value, lastDate, n, DEFAULT_ALPHA).error)
      && (r.Raised? && !arimaFails ==> r.error == GetForecastDf(sarima.value, lastDate, n, DEFAULT_ALPHA).error)
  {
    if arima.None? && sarima.None? then NoModels
    else
      var (train, test) := BacktestSplit(df, n);
      match BacktestPrediction(arima, train, n)
      case Err(e) => Raised(e)
      case Ok(arimaPred) =>
        match BacktestPrediction(sarima, train, n)
        case Err(e) => Raised(e)
        case Ok(sarimaPred) => Shown(train, test, arimaPred, sarimaPred)
  }

  /** With at most `n` rows of history the training half is empty, its latest
      date is "not a time", and every model's backtest forecast raises. */
  lemma ShortHistoryRaises(df: seq<DayRow>, n: nat, arima: Option<Handle>, sarima: Option<Handle>)
    requires MIN_BACKTEST <= n <= MAX_BACKTEST
    requires |df| <= n
    requires arima.Some? || sarima.Some?
    ensures BacktestTab(df, n, arima, sarima).Raised?
  {
    assert BacktestSplit(df, n).0 == [];
  }

  /** On a contiguous daily history longer than `n`, the backtest forecast is
      dated exactly at the test rows' dates. */
  lemma BacktestDatesAlign(df: seq<DayRow>, n: nat, model: Handle)
    requires MIN_BACKTEST <= n <= MAX_BACKTEST
    requires Contiguous(df) && n < |df|
    ensures
      var (train, test) := BacktestSplit(df, n);
      var fc := GetForecastDf(model, MaxDate(train), n, DEFAULT_ALPHA);
      fc.Ok? ==> fc.value.index == DatesSeq(test)
  {
    var (train, test) := BacktestSplit(df, n);
    assert Contiguous(train) by {
      forall k | 0 <= k < |train| ensures train[k].date == train[0].date + k {
        assert train[k] == df[k];
      }
    }
    MaxDateOfContiguous(train);
    var fc := GetForecastDf(model, MaxDate(train), n, DEFAULT_ALPHA);
    if fc.Ok? {
      forall k | 0 <= k < n ensures fc.value.index[k] == DatesSeq(test)[k] {
        assert test[k] == df[|df| - n + k];
      }
    }
  }

  /** The dates of a table, in row order. */
  function DatesSeq(t: seq<DayRow>): (r: seq<int>)
    ensures |r| == |t|
    ensures forall k :: 0 <= k < |t| ==> r[k] == t[k].date
  {
    seq(|t|, k requires 0 <= k < |t| => t[k].date)
  }

  /** The Data tab's `df["sales"] * SCALE`. */
  function DisplaySeries(df: seq<DayRow>): (r: seq<DayRow>)
    ensures |r| == |df|
    ensures forall k :: 0 <= k < |df| ==> r[k].date == df[k].date && r[k].sales == df[k].sales * SCALE
  {
    seq(|df|, k requires 0 <= k < |df| => DayRow(df[k].date, df[k].sales * SCALE))
  }

  /** Displaying the scaled table undoes the preprocessing's division: the Data
      tab shows the raw daily revenue. */
  lemma DisplayUndoesScaling(t: seq<DayRow>)
    ensures DisplaySeries(ScaledTable(t)) == t
  {
    var d := DisplaySeries(ScaledTable(t));
    forall k | 0 <= k < |t| ensures d[k] == t[k] {
      assert ScaledTable(t)[k].sales * SCALE_DIVISOR == t[k].sales;
    }
  }

  /** From raw rows to the Backtest tab: the scaled table the preprocessing
      writes is a contiguous daily series, so the backtest forecast lines up
      with the test rows. */
  lemma PipelineBacktestAligned(
    raw: seq<RawRow>, toDatetime: string -> Option<Timestamp>, n: nat, model: Handle)
    requires MIN_BACKTEST <= n <= MAX_BACKTEST
    requires n < |Preprocess(raw, toDatetime).revenueScaled|
    ensures
      var df := Preprocess(raw, toDatetime).revenueScaled;
      var (train, test) := BacktestSplit(df, n);
      var fc := GetForecastDf(model, MaxDate(train), n, DEFAULT_ALPHA);
      fc.Ok? ==> fc.value.index == DatesSeq(test)
  {
    var tables := Preprocess(raw, toDatetime);
    DailyTableSpan(raw, toDatetime);
    assert Contiguous(tables.revenueScaled) by {
      forall k | 0 <= k < |tables.revenueScaled|
        ensures tables.revenueScaled[k].date == tables.revenueScaled[0].date + k
      {
        assert tables.revenueScaled[k].date == tables.revenueRaw[k].date;
      }
    }
    BacktestDatesAlign(tables.revenueScaled, n, model);
  }
}
