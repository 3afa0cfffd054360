/** The web API and the dashboard each carry their own forecast-frame helper.
    Given the same model, the same horizon and the same anchor day, they differ
    only where the multiplier is applied and in how a point-only fallback shows
    its missing bounds. */
module Copies {
  import opened Common
  import opened ModelHandle
  import opened Frames
  import ApiUtils
  import Dashboard

  /** Anchoring the dashboard's copy at today's date and scaling its frame the
      way its callers do yields the API's frame: the same success or the same
      exception, the same dates and forecast values, the same bound columns on
      the interval path, and NaN-filled columns exactly where the API leaves
      them out. */
  lemma CopiesAgree(model: Handle, now: Common.Timestamp, steps: nat, alpha: real)
    ensures
      var api := ApiUtils.GetForecastDf(model, now, steps, alpha);
      var dash := Dashboard.GetForecastDf(model, Some(ApiUtils.Today(now)), steps, alpha);
      && (api.Ok? <==> dash.Ok?)
      && (api.Err? ==> api.error == dash.error)
      && (api.Ok? ==>
            var scaled := Dashboard.ScaleFrame(dash.value, Dashboard.SCALE);
            && api.value.index == scaled.index
            && api.value.forecast == scaled.forecast
            && (api.value.bounds.Columns? ==> api.value.bounds == scaled.bounds)
            && (api.value.bounds.Omitted? ==> scaled.bounds == Columns(NaNs(steps), NaNs(steps))))
  {
    var api := ApiUtils.GetForecastDf(model, now, steps, alpha);
    var dash := Dashboard.GetForecastDf(model, Some(ApiUtils.Today(now)), steps, alpha);
    var interval := TryIntervalPath(model, steps, alpha);
    if interval.Ok? {
      var iv := interval.value;
      ScaledCellsCommute(iv.lower);
      ScaledCellsCommute(iv.upper);
    } else if dash.Ok? {
      var scaled := Dashboard.ScaleFrame(dash.value, Dashboard.SCALE);
      assert scaled.bounds.lower == NaNs(steps);
      assert scaled.bounds.upper == NaNs(steps);
    }
  }

  /** Scaling numbers and then wrapping them as cells is wrapping and then scaling. */
  lemma ScaledCellsCommute(s: seq<real>)
    ensures Cells(ScaleValues(s, ApiUtils.SCALE)) == Dashboard.ScaleCells(Cells(s), Dashboard.SCALE)
  {
  }
}
