/** The fitted statistical model, seen from outside as a capability: the
    library's fitting and forecasting are not modelled, only the shapes of the
    calls the repository makes on a fitted model and the exceptions they may
    raise. */
module ModelHandle {
  import opened Common

  /** The (p, d, q) order of an ARIMA model. */
  datatype Order = Order(p: nat, d: nat, q: nat)

  /** What `conf_int(alpha)` hands back: a table given column by column. */
  datatype ConfInt = ConfInt(columns: seq<seq<real>>)

  /** What `get_forecast(steps)` hands back: the point means and a way to ask
      for a confidence interval at a given `alpha`. */
  datatype PredictionResults = PredictionResults(predictedMean: seq<real>, confInt: real -> Result<ConfInt>)

  /** A fitted model. Each operation may raise; nothing is assumed about the
      values it returns (not even their count, nor that lower <= mean <= upper). */
  datatype Handle = Handle(
    getForecast: nat -> Result<PredictionResults>,
    forecast: nat -> Result<seq<real>>)

  /** The three columns the interval path puts into a forecast frame. */
  datatype Interval = Interval(mean: seq<real>, lower: seq<real>, upper: seq<real>)

  /** The interval path shared by both `get_forecast_df` copies: `get_forecast`,
      its `predicted_mean`, `conf_int(alpha)` with `iloc[:, 0]` and `iloc[:, 1]`,
      and the frame constructor's demand that every column hold `steps` values.
      Any exception along the way is returned as `Err`. */
  function TryIntervalPath(model: Handle, steps: nat, alpha: real): (r: Result<Interval>)
    ensures r.Ok? ==> |r.value.mean| == steps && |r.value.lower| == steps && |r.value.upper| == steps
    ensures r.Ok? <==>
      && model.getForecast(steps).Ok?
      && model.getForecast(steps).value.confInt(alpha).Ok?
      && |model.getForecast(steps).value.confInt(alpha).value.columns| >= 2
      && |model.getForecast(steps).value.predictedMean| == steps
      && |model.getForecast(steps).value.confInt(alpha).value.columns[0]| == steps
      && |model.getForecast(steps).value.confInt(alpha).value.columns[1]| == steps
    ensures r.Ok? ==>
      var res := model.getForecast(steps).value;
      var ci := res.confInt(alpha).value;
      r.value == Interval(res.predictedMean, ci.columns[0], ci.columns[1])
  {
    match model.getForecast(steps)
    case Err(e) => Err(e)
    case Ok(res) =>
      match res.confInt(alpha)
      case Err(e) => Err(e)
      case Ok(ci) =>
        if |ci.columns| < 2 then Err(ShapeError)
        else if |res.predictedMean| != steps || |ci.columns[0]| != steps || |ci.columns[1]| != steps then Err(ShapeError)
        else Ok(Interval(res.predictedMean, ci.columns[0], ci.columns[1]))
  }
}
