/** The rolling backtest of the ARIMA(5,1,5) training script: eleven blocks,
    block i fitted on the first 30 * i days and scored on the next 30; the
    scores of blocks 8 to 11 are averaged into the metrics record, and the
    deployable model is fitted on the whole series. Fitting, forecasting, R²
    and the square root are the libraries' and are parameters here. */
module TrainArima {
  import opened Common
  import opened ModelHandle

  const BLOCK_SIZE: nat := 30
  const N_FORECAST: nat := 30
  /** `range(1, 12)`: blocks 1 to 11. */
  const END_BLOCK: nat := 12
  /** Scores are collected only for blocks past this one. */
  const WARMUP: nat := 7
  const ORDER: Order := Order(5, 1, 5)
  const LABEL: string := "ARIMA(5,1,5)"

  /** The three scores of one block, and the layout of the metrics record. */
  datatype Scores = Scores(r2: real, rmse: real, mae: real)

  /** What a training run produces: the scores every block prints, the three
      collected lists, the metrics record and the model refitted on all data. */
  datatype Training = Training(
    sections: seq<Scores>,
    r2Averages: seq<real>,
    rmseAverages: seq<real>,
    maeAverages: seq<real>,
    metrics: map<string, Scores>,
    finalModel: Handle)

  function Min(a: nat, b: nat): nat
  {
    if a <= b then a else b
  }

  /** Python's `y[lo:hi]` for non-negative bounds: both are clamped to `len(y)`. */
  function PySlice(y: seq<real>, lo: nat, hi: nat): (r: seq<real>)
    ensures |r| == if Min(hi, |y|) < Min(lo, |y|) then 0 else Min(hi, |y|) - Min(lo, |y|)
  {
    var a, b := Min(lo, |y|), Min(hi, |y|);
    if a <= b then y[a..b] else []
  }

  function Abs(x: real): real
  {
    if x < 0.0 then -x else x
  }

  function AbsErrors(yTrue: seq<real>, yPred: seq<real>): (r: seq<real>)
    requires |yTrue| == |yPred|
    ensures |r| == |yTrue|
  {
    seq(|yTrue|, k requires 0 <= k < |yTrue| => Abs(yTrue[k] - yPred[k]))
  }

  function Square(x: real): real
  {
    x * x
  }

  function SquaredErrors(yTrue: seq<real>, yPred: seq<real>): (r: seq<real>)
    requires |yTrue| == |yPred|
    ensures |r| == |yTrue|
  {
    seq(|yTrue|, k requires 0 <= k < |yTrue| => Square(yTrue[k] - yPred[k]))
  }

  /** scikit-learn's `mean_absolute_error`, which raises on arrays of different
      lengths or on empty arrays. */
  function MeanAbsoluteError(yTrue: seq<real>, yPred: seq<real>): (r: Result<real>)
    ensures r.Ok? <==> |yTrue| == |yPred| && |yTrue| > 0
  {
    if |yTrue| != |yPred| || |yTrue| == 0 then Err(ShapeError) else Ok(Mean(AbsErrors(yTrue, yPred)))
  }

  /** scikit-learn's `mean_squared_error`, with the same checks. */
  function MeanSquaredError(yTrue: seq<real>, yPred: seq<real>): (r: Result<real>)
    ensures r.Ok? <==> |yTrue| == |yPred| && |yTrue| > 0
  {
    if |yTrue| != |yPred| || |yTrue| == 0 then Err(ShapeError) else Ok(Mean(SquaredErrors(yTrue, yPred)))
  }

  /** The training window of block `i`: `y[:30*i]`. */
  function TrainWindow(y: seq<real>, i: nat): (r: seq<real>)
    ensures |r| == Min(BLOCK_SIZE * i, |y|)
    ensures r == y[..|r|]
  {
    PySlice(y, 0, BLOCK_SIZE * i)
  }

  /** The test window of block `i`: `y[30*i:30*(i+1)]`. */
  function TestWindow(y: seq<real>, i: nat): (r: seq<real>)
    ensures |r| <= BLOCK_SIZE
    ensures r == y[Min(BLOCK_SIZE * i, |y|)..Min(BLOCK_SIZE * (i + 1), |y|)]
  {
    PySlice(y, BLOCK_SIZE * i, BLOCK_SIZE * (i + 1))
  }

  /** What block `i` prints, or the exception that ends the run there. */
  function Section(
    y: seq<real>, i: nat,
    fit: (seq<real>, Order) -> Result<Handle>,
    r2: (seq<real>, seq<real>) -> real,
    sqrt: real -> real): (r: Result<Scores>)
    ensures
      var fitted := fit(TrainWindow(y, i), ORDER);
      r.Ok? <==>
        && fitted.Ok?
        && fitted.value.getForecast(N_FORECAST).Ok?
        && |TestWindow(y, i)| == |fitted.value.getForecast(N_FORECAST).value.predictedMean| > 0
    ensures
      var fitted := fit(TrainWindow(y, i), ORDER);
      r.Err? ==>
        if fitted.Err? then r.error == fitted.error
        else if fitted.value.getForecast(N_FORECAST).Err? then r.error == fitted.value.getForecast(N_FORECAST).error
        else r.error == ShapeError
  {
    match fit(TrainWindow(y, i), ORDER)
    case Err(e) => Err(e)
    case Ok(model) =>
      match model.getForecast(N_FORECAST)
      case Err(e) => Err(e)
      case Ok(res) =>
        var yTrue, yPred := TestWindow(y, i), res.predictedMean;
        match MeanAbsoluteError(yTrue, yPred)
        case Err(e) => Err(e)
        case Ok(mae) =>
          // The same length checks have just passed, so this cannot raise.
          var mse := MeanSquaredError(yTrue, yPred).value;
          Ok(Scores(r2(yTrue, yPred), sqrt(mse), mae))
  }

  /** Blocks 1 .. n - 1 all complete. */
  predicate SucceedsBefore(
    y: seq<real>, n: nat,
    fit: (seq<real>, Order) -> Result<Handle>,
    r2: (seq<real>, seq<real>) -> real,
    sqrt: real -> real)
  {
    forall j :: 1 <= j < n ==> Section(y, j, fit, r2, sqrt).Ok?
  }

  /** The scores of blocks 1 .. n - 1, in block order. */
  function Sections(
    y: seq<real>, n: nat,
    fit: (seq<real>, Order) -> Result<Handle>,
    r2: (seq<real>, seq<real>) -> real,
    sqrt: real -> real): (r: seq<Scores>)
    requires n >= 1 && SucceedsBefore(y, n, fit, r2, sqrt)
    ensures |r| == n - 1
  {
    seq(n - 1, k requires 0 <= k < n - 1 => Section(y, k + 1, fit, r2, sqrt).value)
  }

  /** One pass of the loop body, written as the statements the loop runs:
      fit on the training window, forecast 30 steps, and score the forecast
      against the test window. It computes exactly `Section`, the value the
      lemmas below reason about. */
  method ScoreBlock(
    y: seq<real>, i: nat,
    fit: (seq<real>, Order) -> Result<Handle>,
    r2: (seq<real>, seq<real>) -> real,
    sqrt: real -> real) returns (res: Result<Scores>)
    ensures res == Section(y, i, fit, r2, sqrt)
  {
    var fitted := fit(TrainWindow(y, i), ORDER);
    if fitted.Err? {
      return Err(fitted.error);
    }
    var forecastRes := fitted.value.getForecast(N_FORECAST);
    if forecastRes.Err? {
      return Err(forecastRes.error);
    }
    var yTrue, yPred := TestWindow(y, i), forecastRes.value.predictedMean;
    var mae := MeanAbsoluteError(yTrue, yPred);
    if mae.Err? {
      return Err(mae.error);
    }
    var mse := MeanSquaredError(yTrue, yPred).value;
    res := Ok(Scores(r2(yTrue, yPred), sqrt(mse), mae.value));
  }

  /** The scores each block prints, and the three lists collected past the
      warm-up. */
  datatype Blocks = Blocks(
    sections: seq<Scores>,
    r2Averages: seq<real>,
    rmseAverages: seq<real>,
    maeAverages: seq<real>)

  /** The run ends with exception `e` at some block whose predecessors all
      completed. */
  predicate FailsAtBlock(
    y: seq<real>, e: Failure,
    fit: (seq<real>, Order) -> Result<Handle>,
    r2: (seq<real>, seq<real>) -> real,
    sqrt: real -> real)
  {
    exists i :: 1 <= i < END_BLOCK && SucceedsBefore(y, i, fit, r2, sqrt)
                && Section(y, i, fit, r2, sqrt) == Err(e)
  }

  /** The k-th entries of the three collected lists, as one record. */
  function Collected(b: Blocks, k: nat): Scores
    requires k < |b.r2Averages| && k < |b.rmseAverages| && k < |b.maeAverages|
  {
    Scores(b.r2Averages[k], b.rmseAverages[k], b.maeAverages[k])
  }

  /** The three collected lists hold, in block order, the scores of blocks 8,
      9, 10 and 11, and nothing else. */
  predicate CollectsBlocksEightToEleven(
    b: Blocks, y: seq<real>,
    fit: (seq<real>, Order) -> Result<Handle>,
    r2: (seq<real>, seq<real>) -> real,
    sqrt: real -> real)
  {
    && |b.r2Averages| == 4 && |b.rmseAverages| == 4 && |b.maeAverages| == 4
    && forall k :: 0 <= k < 4 ==> Section(y, WARMUP + 1 + k, fit, r2, sqrt) == Ok(Collected(b, k))
  }

  /** The loop of the training script over blocks 1 to 11. */
  method RunBlocks(
    y: seq<real>,
    fit: (seq<real>, Order) -> Result<Handle>,
    r2: (seq<real>, seq<real>) -> real,
    sqrt: real -> real) returns (res: Result<Blocks>)
    ensures res.Ok? <==> SucceedsBefore(y, END_BLOCK, fit, r2, sqrt)
    ensures res.Ok? ==>
      && res.value.sections == Sections(y, END_BLOCK, fit, r2, sqrt)
      && CollectsBlocksEightToEleven(res.value, y, fit, r2, sqrt)
    ensures res.Err? ==> FailsAtBlock(y, res.error, fit, r2, sqrt)
  {
    var sections: seq<Scores> := [];
    var r2Averages, rmseAverages, maeAverages: seq<real> := [], [], [];
    var i: nat := 1;
    while i < END_BLOCK
      invariant 1 <= i <= END_BLOCK
      invariant SucceedsBefore(y, i, fit, r2, sqrt)
      invariant |sections| == i - 1
      invariant forall k :: 0 <= k < i - 1 ==> sections[k] == Section(y, k + 1, fit, r2, sqrt).value
      invariant |r2Averages| == |rmseAverages| == |maeAverages| == if i - 1 <= WARMUP then 0 else i - 1 - WARMUP
      invariant forall k :: 0 <= k < |r2Averages| ==>
        && r2Averages[k] == sections[WARMUP + k].r2
        && rmseAverages[k] == sections[WARMUP + k].rmse
        && maeAverages[k] == sections[WARMUP + k].mae
    {
      var scores := ScoreBlock(y, i, fit, r2, sqrt);
      if scores.Err? {
        return Err(scores.error);
      }
      sections := sections + [scores.value];
      if i > WARMUP {
        r2Averages := r2Averages + [scores.value.r2];
        rmseAverages := rmseAverages + [scores.value.rmse];
        maeAverages := maeAverages + [scores.value.mae];
      }
      i := i + 1;
    }
    res := Ok(Blocks(sections, r2Averages, rmseAverages, maeAverages));
    AllBlocksScored(res.value, y, fit, r2, sqrt);
  }

  /** When the loop has run through block 11, what it holds is the schedule's. */
  lemma AllBlocksScored(
    b: Blocks, y: seq<real>,
    fit: (seq<real>, Order) -> Result<Handle>,
    r2: (seq<real>, seq<real>) -> real,
    sqrt: real -> real)
    requires SucceedsBefore(y, END_BLOCK, fit, r2, sqrt)
    requires |b.sections| == END_BLOCK - 1
    requires forall k :: 0 <= k < END_BLOCK - 1 ==> b.sections[k] == Section(y, k + 1, fit, r2, sqrt).value
    requires |b.r2Averages| == |b.rmseAverages| == |b.maeAverages| == END_BLOCK - 1 - WARMUP
    requires forall k :: 0 <= k < |b.r2Averages| ==>
      && b.r2Averages[k] == b.sections[WARMUP + k].r2
      && b.rmseAverages[k] == b.sections[WARMUP + k].rmse
      && b.maeAverages[k] == b.sections[WARMUP + k].mae
    ensures b.sections == Sections(y, END_BLOCK, fit, r2, sqrt)
    ensures CollectsBlocksEightToEleven(b, y, fit, r2, sqrt)
  {
  }

  /** The training script: the rolling backtest over blocks 1 to 11, the
      metrics record, and the refit on the whole series. Any exception ends
      the run. */
  method RollingBacktest(
    y: seq<real>,
    fit: (seq<real>, Order) -> Result<Handle>,
    r2: (seq<real>, seq<real>) -> real,
    sqrt: real -> real) returns (out: Result<Training>)
    ensures out.Ok? <==> SucceedsBefore(y, END_BLOCK, fit, r2, sqrt) && fit(y, ORDER).Ok?
    ensures out.Ok? ==>
      var b := Blocks(out.value.sections, out.value.r2Averages, out.value.rmseAverages, out.value.maeAverages);
      && b.sections == Sections(y, END_BLOCK, fit, r2, sqrt)
      && CollectsBlocksEightToEleven(b, y, fit, r2, sqrt)
      && out.value.metrics == map[LABEL := Scores(Mean(b.r2Averages), Mean(b.rmseAverages), Mean(b.maeAverages))]
      && out.value.finalModel == fit(y, ORDER).value
    ensures out.Err? ==>
      || FailsAtBlock(y, out.error, fit, r2, sqrt)
      || (SucceedsBefore(y, END_BLOCK, fit, r2, sqrt) && fit(y, ORDER) == Err(out.error))
  {
    var blocks := RunBlocks(y, fit, r2, sqrt);
    if blocks.Err? {
      return Err(blocks.error);
    }
    var b := blocks.value;
    var metrics := map[LABEL := Scores(Mean(b.r2Averages), Mean(b.rmseAverages), Mean(b.maeAverages))];
    var finalModel := fit(y, ORDER);
    if finalModel.Err? {
      return Err(finalModel.error);
    }
    out := Ok(Training(b.sections, b.r2Averages, b.rmseAverages, b.maeAverages, metrics, finalModel.value));
  }

  // ---------------------------------------------------------------------
  // Properties of the schedule and of the scores
  // ---------------------------------------------------------------------

  /** Block i's training window is the prefix of length 30·i (or all of a
      shorter series), and its test window starts exactly where training ends:
      together they are the prefix of length 30·(i+1), without overlap. The
      test window holds 30 values exactly when the series reaches 30·(i+1). */
  lemma WindowsTile(y: seq<real>, i: nat)
    ensures TrainWindow(y, i) == y[..Min(BLOCK_SIZE * i, |y|)]
    ensures TestWindow(y, i) == y[Min(BLOCK_SIZE * i, |y|)..Min(BLOCK_SIZE * (i + 1), |y|)]
    ensures TrainWindow(y, i) + TestWindow(y, i) == y[..Min(BLOCK_SIZE * (i + 1), |y|)]
    ensures |TestWindow(y, i)| == BLOCK_SIZE <==> |y| >= BLOCK_SIZE * (i + 1)
  {
    var a, b := Min(BLOCK_SIZE * i, |y|), Min(BLOCK_SIZE * (i + 1), |y|);
    assert y[..a] + y[a..b] == y[..b];
  }

  /** A fitted model that forecasts the 30 values asked of it. */
  predicate ForecastsInFull(y: seq<real>, i: nat, fit: (seq<real>, Order) -> Result<Handle>)
  {
    fit(TrainWindow(y, i), ORDER).Ok? && fit(TrainWindow(y, i), ORDER).value.getForecast(N_FORECAST).Ok? ==>
      |fit(TrainWindow(y, i), ORDER).value.getForecast(N_FORECAST).value.predictedMean| == N_FORECAST
  }

  /** With models that forecast in full, block i completes only when the series
      holds 30·(i+1) values; so the whole run needs at least 360. */
  lemma BlockNeedsFullTestWindow(
    y: seq<real>, i: nat,
    fit: (seq<real>, Order) -> Result<Handle>,
    r2: (seq<real>, seq<real>) -> real,
    sqrt: real -> real)
    requires ForecastsInFull(y, i, fit)
    requires Section(y, i, fit, r2, sqrt).Ok?
    ensures |y| >= BLOCK_SIZE * (i + 1)
  {
    WindowsTile(y, i);
  }

  lemma RunNeedsFullHistory(
    y: seq<real>,
    fit: (seq<real>, Order) -> Result<Handle>,
    r2: (seq<real>, seq<real>) -> real,
    sqrt: real -> real)
    requires ForecastsInFull(y, END_BLOCK - 1, fit)
    requires SucceedsBefore(y, END_BLOCK, fit, r2, sqrt)
    ensures |y| >= 360
  {
    BlockNeedsFullTestWindow(y, END_BLOCK - 1, fit, r2, sqrt);
  }

  /** Conversely, on a series of 360 values or more, a block whose fit and
      forecast succeed in full is scored. */
  lemma FullHistoryScoresEveryBlock(
    y: seq<real>, i: nat,
    fit: (seq<real>, Order) -> Result<Handle>,
    r2: (seq<real>, seq<real>) -> real,
    sqrt: real -> real)
    requires 1 <= i < END_BLOCK && |y| >= 360
    requires fit(TrainWindow(y, i), ORDER).Ok?
    requires fit(TrainWindow(y, i), ORDER).value.getForecast(N_FORECAST).Ok?
    requires ForecastsInFull(y, i, fit)
    ensures Section(y, i, fit, r2, sqrt).Ok?
  {
    WindowsTile(y, i);
  }

  lemma AbsErrorsNonNegative(yTrue: seq<real>, yPred: seq<real>)
    requires |yTrue| == |yPred|
    ensures forall k :: 0 <= k < |yTrue| ==> AbsErrors(yTrue, yPred)[k] >= 0.0
    ensures forall k :: 0 <= k < |yTrue| ==> SquaredErrors(yTrue, yPred)[k] >= 0.0
  {
    forall k | 0 <= k < |yTrue| ensures SquaredErrors(yTrue, yPred)[k] >= 0.0 {
      var d := yTrue[k] - yPred[k];
      assert Square(d) >= 0.0;
    }
  }

  /** MAE is never negative, and is zero exactly when the forecast equals the truth. */
  lemma MaeZeroIffExact(yTrue: seq<real>, yPred: seq<real>)
    requires |yTrue| == |yPred| && |yTrue| > 0
    ensures MeanAbsoluteError(yTrue, yPred).value >= 0.0
    ensures MeanAbsoluteError(yTrue, yPred).value == 0.0 <==> yTrue == yPred
  {
    var ae := AbsErrors(yTrue, yPred);
    AbsErrorsNonNegative(yTrue, yPred);
    MeanNonNegative(ae);
    MeanZeroIff(ae);
    if forall k :: 0 <= k < |ae| ==> ae[k] == 0.0 {
      forall k | 0 <= k < |yTrue| ensures yTrue[k] == yPred[k] {
        assert ae[k] == 0.0;
      }
    }
  }

  /** MSE is never negative, and is zero exactly when the forecast equals the truth. */
  lemma MseZeroIffExact(yTrue: seq<real>, yPred: seq<real>)
    requires |yTrue| == |yPred| && |yTrue| > 0
    ensures MeanSquaredError(yTrue, yPred).value >= 0.0
    ensures MeanSquaredError(yTrue, yPred).value == 0.0 <==> yTrue == yPred
  {
    var se := SquaredErrors(yTrue, yPred);
    AbsErrorsNonNegative(yTrue, yPred);
    MeanNonNegative(se);
    MeanZeroIff(se);
    if forall k :: 0 <= k < |se| ==> se[k] == 0.0 {
      forall k | 0 <= k < |yTrue| ensures yTrue[k] == yPred[k] {
        SquareZero(yTrue[k] - yPred[k], se[k]);
      }
    }
  }

  /** Only zero squares to zero. */
  lemma SquareZero(d: real, s: real)
    requires s == Square(d)
    ensures s == 0.0 ==> d == 0.0
  {
    if d != 0.0 {
      assert s / d == d;
    }
  }

  /** A block whose forecast equals its test window scores RMSE 0 and MAE 0. */
  lemma ExactForecastScoresZero(
    y: seq<real>, i: nat,
    fit: (seq<real>, Order) -> Result<Handle>,
    r2: (seq<real>, seq<real>) -> real,
    sqrt: real -> real)
    requires sqrt(0.0) == 0.0
    requires fit(TrainWindow(y, i), ORDER).Ok?
    requires fit(TrainWindow(y, i), ORDER).value.getForecast(N_FORECAST).Ok?
    requires fit(TrainWindow(y, i), ORDER).value.getForecast(N_FORECAST).value.predictedMean == TestWindow(y, i)
    requires TestWindow(y, i) != []
    ensures Section(y, i, fit, r2, sqrt).Ok?
    ensures Section(y, i, fit, r2, sqrt).value.rmse == 0.0
    ensures Section(y, i, fit, r2, sqrt).value.mae == 0.0
  {
    MaeZeroIffExact(TestWindow(y, i), TestWindow(y, i));
    MseZeroIffExact(TestWindow(y, i), TestWindow(y, i));
  }

  /** With a square root that is non-negative on non-negative reals, every
      completed block scores RMSE >= 0 and MAE >= 0. */
  lemma SectionErrorsNonNegative(
    y: seq<real>, i: nat,
    fit: (seq<real>, Order) -> Result<Handle>,
    r2: (seq<real>, seq<real>) -> real,
    sqrt: real -> real)
    requires forall x :: x >= 0.0 ==> sqrt(x) >= 0.0
    requires Section(y, i, fit, r2, sqrt).Ok?
    ensures Section(y, i, fit, r2, sqrt).value.rmse >= 0.0
    ensures Section(y, i, fit, r2, sqrt).value.mae >= 0.0
  {
    var model := fit(TrainWindow(y, i), ORDER).value;
    var yPred := model.getForecast(N_FORECAST).value.predictedMean;
    MaeZeroIffExact(TestWindow(y, i), yPred);
    MseZeroIffExact(TestWindow(y, i), yPred);
  }

  /** With a square root that is non-negative on non-negative reals, the
      averaged RMSE and MAE of a completed run are never negative. */
  lemma AveragedErrorsNonNegative(
    b: Blocks, y: seq<real>,
    fit: (seq<real>, Order) -> Result<Handle>,
    r2: (seq<real>, seq<real>) -> real,
    sqrt: real -> real)
    requires forall x :: x >= 0.0 ==> sqrt(x) >= 0.0
    requires CollectsBlocksEightToEleven(b, y, fit, r2, sqrt)
    ensures Mean(b.rmseAverages) >= 0.0
    ensures Mean(b.maeAverages) >= 0.0
  {
    forall k | 0 <= k < 4 ensures b.rmseAverages[k] >= 0.0 && b.maeAverages[k] >= 0.0 {
      assert Section(y, WARMUP + 1 + k, fit, r2, sqrt) == Ok(Collected(b, k));
      SectionErrorsNonNegative(y, WARMUP + 1 + k, fit, r2, sqrt);
    }
    MeanNonNegative(b.rmseAverages);
    MeanNonNegative(b.maeAverages);
  }
}
