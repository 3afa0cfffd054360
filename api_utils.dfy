/** The web API's forecast helper: a frame of `steps` daily rows starting the
    day after today, with the model's values multiplied by SCALE. The interval
    path fills the two bound columns; if anything on it raises, the point
    forecast is used instead and the bound columns are left out. */
module ApiUtils {
  import opened Common
  import opened ModelHandle
  import opened Frames

  const SCALE: real := 10000.0
  const DEFAULT_ALPHA: real := 0.05

  /** `pd.Timestamp.today().normalize()`: the calendar day of the clock
      reading, its time of day dropped. */
  function Today(now: Timestamp): (r: int)
    ensures r == now.day
  {
    now.day
  }

  /** `get_forecast_df(model, steps, alpha)`, with the clock reading `now`
      passed in. */
  function GetForecastDf(model: Handle, now: Timestamp, steps: nat, alpha: real): (r: Result<Frame>)
    ensures r.Ok? ==> DailyRows(r.value, Today(now) + 1, steps)
    ensures (r.Ok? && r.value.bounds.Columns?) <==> TryIntervalPath(model, steps, alpha).Ok?
    ensures r.Err? <==>
      && TryIntervalPath(model, steps, alpha).Err?
      && (model.forecast(steps).Err? || |model.forecast(steps).value| != steps)
    ensures r.Err? ==> if model.forecast(steps).Err? then r == Err(model.forecast(steps).error) else r == Err(ShapeError)
  {
    var dates := DateRange(Today(now) + 1, steps);
    match TryIntervalPath(model, steps, alpha)
    case Ok(iv) =>
      Ok(Frame(dates, ScaleValues(iv.mean, SCALE),
               Columns(Cells(ScaleValues(iv.lower, SCALE)), Cells(ScaleValues(iv.upper, SCALE)))))
    case Err(_) =>
      match model.forecast(steps)
      case Err(e) => Err(e)
      case Ok(mean) =>
        if |mean| != steps then Err(ShapeError)
        else Ok(Frame(dates, ScaleValues(mean, SCALE), Omitted))
  }

  /** On the interval path every value of the frame is the model's value times
      SCALE: forecast from `predicted_mean`, ci_lower from column 0 and ci_upper
      from column 1 of `conf_int(alpha)`. Dividing by SCALE once gives the model's
      values back, so the multiplier is applied exactly once. */
  lemma IntervalPathScaledOnce(model: Handle, now: Timestamp, steps: nat, alpha: real)
    requires TryIntervalPath(model, steps, alpha).Ok?
    ensures
      var r := GetForecastDf(model, now, steps, alpha);
      var res := model.getForecast(steps).value;
      var ci := res.confInt(alpha).value;
      && r.Ok? && r.value.bounds.Columns?
      && forall k :: 0 <= k < steps ==>
           && r.value.forecast[k] == res.predictedMean[k] * SCALE
           && r.value.forecast[k] / SCALE == res.predictedMean[k]
           && r.value.bounds.lower[k] == Num(ci.columns[0][k] * SCALE)
           && r.value.bounds.upper[k] == Num(ci.columns[1][k] * SCALE)
  {
    var r := GetForecastDf(model, now, steps, alpha);
    var res := model.getForecast(steps).value;
    forall k | 0 <= k < steps
      ensures r.value.forecast[k] / SCALE == res.predictedMean[k]
    {
      UnscaleScaled(res.predictedMean[k]);
    }
  }

  /** When the interval path raises and the plain forecast succeeds, the frame
      holds that forecast times SCALE and has no bound columns at all. */
  lemma FallbackOmitsBounds(model: Handle, now: Timestamp, steps: nat, alpha: real)
    requires TryIntervalPath(model, steps, alpha).Err?
    requires model.forecast(steps).Ok? && |model.forecast(steps).value| == steps
    ensures
      var r := GetForecastDf(model, now, steps, alpha);
      var mean := model.forecast(steps).value;
      && r.Ok? && r.value.bounds == Omitted
      && forall k :: 0 <= k < steps ==>
           && r.value.forecast[k] == mean[k] * SCALE
           && r.value.forecast[k] / SCALE == mean[k]
  {
    var r := GetForecastDf(model, now, steps, alpha);
    var mean := model.forecast(steps).value;
    forall k | 0 <= k < steps
      ensures r.value.forecast[k] / SCALE == mean[k]
    {
      UnscaleScaled(mean[k]);
    }
  }

  lemma UnscaleScaled(x: real)
    ensures x * SCALE / SCALE == x
  {
  }

  /** Only the calendar day of the clock reading matters. */
  lemma TimeOfDayIgnored(model: Handle, now: Timestamp, later: Timestamp, steps: nat, alpha: real)
    requires now.day == later.day
    ensures GetForecastDf(model, now, steps, alpha) == GetForecastDf(model, later, steps, alpha)
  {
  }
}
