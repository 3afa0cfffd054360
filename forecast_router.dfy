/** The two forecast endpoints of the web API: validate the horizon, report a
    model that was not loaded, and otherwise turn the helper's frame into the
    response body. */
module ForecastRouter {
  import opened Common
  import opened ModelHandle
  import opened Frames
  import ApiUtils

  /** `Query(30, ge=1, le=120)`: the horizon when the query leaves it out, and its bounds. */
  const DEFAULT_STEPS: int := 30
  const MIN_STEPS: int := 1
  const MAX_STEPS: int := 120

  /** The models loaded at start-up; a missing file or a failed load leaves `None`. */
  datatype Models = Models(arima: Option<Handle>, sarima: Option<Handle>)

  /** The response body; the bound lists are `None` when the frame has no such columns. */
  datatype Response = Response(
    model: string,
    steps: nat,
    forecast: seq<real>,
    ciLower: Option<seq<Cell>>,
    ciUpper: Option<seq<Cell>>,
    dates: seq<int>)

  /** What the handler ends with: the query validation's rejection, the
      `{"error": ...}` body, a response, or an exception the helper let through. */
  datatype Reply =
    | Rejected
    | Unavailable(message: string)
    | Served(response: Response)
    | Raised(error: Failure)

  function LowerList(b: Bounds): Option<seq<Cell>>
  {
    if b.Columns? then Some(b.lower) else None
  }

  function UpperList(b: Bounds): Option<seq<Cell>>
  {
    if b.Columns? then Some(b.upper) else None
  }

  /** One endpoint, for the model called `name`. */
  function Endpoint(name: string, model: Option<Handle>, steps: int, now: Timestamp): (r: Reply)
    ensures r.Rejected? <==> !(MIN_STEPS <= steps <= MAX_STEPS)
    ensures r.Unavailable? <==> MIN_STEPS <= steps <= MAX_STEPS && model.None?
    ensures r.Unavailable? ==> r.message == name + " model not available"
    ensures r.Raised? <==>
      MIN_STEPS <= steps <= MAX_STEPS && model.Some?
      && ApiUtils.GetForecastDf(model.value, now, steps as nat, ApiUtils.DEFAULT_ALPHA).Err?
    ensures r.Raised? ==> r.error == ApiUtils.GetForecastDf(model.value, now, steps as nat, ApiUtils.DEFAULT_ALPHA).error
    ensures r.Served? ==>
      && r.response.model == name
      && r.response.steps == steps
      && |r.response.forecast| == steps
      && |r.response.dates| == steps
      && (forall k :: 0 <= k < steps ==> r.response.dates[k] == ApiUtils.Today(now) + 1 + k)
      && (r.response.ciLower.Some? <==> r.response.ciUpper.Some?)
  {
    if !(MIN_STEPS <= steps <= MAX_STEPS) then Rejected
    else match model
      case None => Unavailable(name + " model not available")
      case Some(m) =>
        match ApiUtils.GetForecastDf(m, now, steps as nat, ApiUtils.DEFAULT_ALPHA)
        case Err(e) => Raised(e)
        case Ok(df) =>
          Served(Response(name, steps as nat, df.forecast, LowerList(df.bounds), UpperList(df.bounds), df.index))
  }

  /** The `steps` query parameter, `None` when the request leaves it out. */
  function StepsOrDefault(steps: Option<int>): int
  {
    if steps.Some? then steps.value else DEFAULT_STEPS
  }

  /** `GET /arima`. A request without `steps` is never rejected and, when
      served, gets 30 days. */
  function ForecastArima(models: Models, steps: Option<int>, now: Timestamp): (r: Reply)
    ensures r.Rejected? <==> steps.Some? && !(MIN_STEPS <= steps.value <= MAX_STEPS)
    ensures r.Unavailable? <==> !r.Rejected? && models.arima.None?
    ensures r.Unavailable? ==> r.message == "ARIMA model not available"
    ensures r.Served? ==> r.response.model == "ARIMA" && r.response.steps == StepsOrDefault(steps)
    ensures r.Served? && steps.None? ==> |r.response.dates| == DEFAULT_STEPS
  {
    Endpoint("ARIMA", models.arima, StepsOrDefault(steps), now)
  }

  /** `GET /sarima`, the same handler for the other model. */
  function ForecastSarima(models: Models, steps: Option<int>, now: Timestamp): (r: Reply)
    ensures r.Rejected? <==> steps.Some? && !(MIN_STEPS <= steps.value <= MAX_STEPS)
    ensures r.Unavailable? <==> !r.Rejected? && models.sarima.None?
    ensures r.Unavailable? ==> r.message == "SARIMA model not available"
    ensures r.Served? ==> r.response.model == "SARIMA" && r.response.steps == StepsOrDefault(steps)
    ensures r.Served? && steps.None? ==> |r.response.dates| == DEFAULT_STEPS
  {
    Endpoint("SARIMA", models.sarima, StepsOrDefault(steps), now)
  }

  /** A served response carries both bound lists exactly when the interval path
      succeeded, and then they are the helper's scaled bound columns. */
  lemma BoundsListsFromIntervalPath(models: Models, steps: int, now: Timestamp)
    requires ForecastArima(models, Some(steps), now).Served?
    ensures
      var m := models.arima.value;
      var resp := ForecastArima(models, Some(steps), now).response;
      && (resp.ciLower.Some? <==> TryIntervalPath(m, steps as nat, ApiUtils.DEFAULT_ALPHA).Ok?)
      && (resp.ciLower.Some? ==>
            && ApiUtils.GetForecastDf(m, now, steps as nat, ApiUtils.DEFAULT_ALPHA).value.bounds
                 == Columns(resp.ciLower.value, resp.ciUpper.value))
  {
  }

  // ---------------------------------------------------------------------
  // What reaches the client
  // ---------------------------------------------------------------------

  /** The HTTP outcome once the web framework has validated the query and the
      handler's return value: 422 for a rejected query, 200 with the body, 500,
      or 503 with a detail message. */
  datatype HttpReply =
    | Unprocessable
    | Success(body: Response)
    | ServerError
    | ServiceUnavailable(detail: string)

  /** Both routes declare `response_model=ForecastResponse`, whose fields
      `model`, `steps`, `forecast` and `dates` are required. A returned
      `{"error": ...}` dictionary has none of them, so the framework's
      validation of the return value fails and the client gets a bare 500:
      the "not available" message never leaves the server. */
  function DeliverAsWritten(reply: Reply): (h: HttpReply)
    ensures h.ServerError? <==> reply.Raised? || reply.Unavailable?
    ensures h.Success? <==> reply.Served?
    ensures h.Success? ==> h.body == reply.response
    ensures h.Unprocessable? <==> reply.Rejected?
  {
    match reply
    case Rejected => Unprocessable
    case Unavailable(_) => ServerError
    case Served(resp) => Success(resp)
    case Raised(_) => ServerError
  }

  /** With the missing model reported as a 503 whose detail is the handler's
      message (`HTTPException(503, detail=...)`), a 500 means exactly that the
      helper raised, and the message reaches the client. */
  function Deliver(reply: Reply): (h: HttpReply)
    ensures h.ServerError? <==> reply.Raised?
    ensures h.ServiceUnavailable? <==> reply.Unavailable?
    ensures h.ServiceUnavailable? ==> h.detail == reply.message
    ensures h.Success? <==> reply.Served?
    ensures h.Success? ==> h.body == reply.response
    ensures h.Unprocessable? <==> reply.Rejected?
  {
    match reply
    case Rejected => Unprocessable
    case Unavailable(message) => ServiceUnavailable(message)
    case Served(resp) => Success(resp)
    case Raised(_) => ServerError
  }

  /** As written, a request for a model that was not loaded ends in a server
      error, indistinguishable from a model that raised; for instance `GET
      /arima` with no `steps` while the ARIMA file is missing. */
  lemma MissingModelIsServerErrorAsWritten(models: Models, now: Timestamp)
    requires models.arima.None?
    ensures ForecastArima(models, None, now) == Unavailable("ARIMA model not available")
    ensures DeliverAsWritten(ForecastArima(models, None, now)) == ServerError
  {
  }

  /** Corrected, the same request is answered with 503 and the handler's
      message, on either route and for every accepted horizon. */
  lemma MissingModelReported(models: Models, steps: Option<int>, now: Timestamp)
    requires steps.None? || MIN_STEPS <= steps.value <= MAX_STEPS
    ensures models.arima.None? ==>
      Deliver(ForecastArima(models, steps, now)) == ServiceUnavailable("ARIMA model not available")
    ensures models.sarima.None? ==>
      Deliver(ForecastSarima(models, steps, now)) == ServiceUnavailable("SARIMA model not available")
  {
  }
}
