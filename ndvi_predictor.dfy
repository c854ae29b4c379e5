/**
 * The NDVI predictor: a region's series on a 16-day grid, the 80/20
 * train/test split, the linear-trend and seasonal-naive forecasts (the
 * fits, the interpolation and the error metrics are library calls, passed
 * in as functions), and the forecast of every region with one method.
 */
module NdviPrediction {
  import opened Wrappers
  import opened Seqs
  import opened Strings
  import opened Sorting
  import opened Calendar
  import opened ProcessedData

  /** A point of the prepared series: a date of the grid and its interpolated NDVI. */
  datatype Point = Point(date: int, value: real)

  /** The coefficients `np.polyfit(x, y, 1)` returns. */
  datatype LinearFit = LinearFit(slope: real, intercept: real)

  /** `calculate_forecast_metrics`: computed by numpy, opaque here. */
  datatype ForecastMetrics = ForecastMetrics(mae: real, mse: real, rmse: real, mape: real)

  /** The future dates of a forecast, the predicted values and the in-sample metrics. */
  datatype Forecast = Forecast(dates: seq<int>, predicted: seq<real>, metrics: ForecastMetrics)

  /** A row of the combined predictions frame. */
  datatype PredictionRow = PredictionRow(date: int, predictedNdvi: real, region: string)

  /** The predictions of every region and the metrics per region. */
  datatype AllPredictions = AllPredictions(predictions: seq<PredictionRow>, metrics: map<string, ForecastMetrics>)

  /**
   * `NotLoaded`: the data is `None`. `ReadFailed`: `read_csv` raised.
   * `EmptySeries`: a region without rows (no grid to build, no last date).
   * `DuplicateDates`: a region with two rows on one date, which `reindex`
   * refuses (`ValueError`, duplicate labels).
   * `EmptyFit`: `np.polyfit` of no points. `MissingMonth`: the seasonal
   * pattern has no entry for a month (`KeyError`). `UnsupportedMethod` and
   * `NothingToConcatenate` (`pd.concat([])`) are `ValueError`s.
   */
  datatype PredictError =
    NotLoaded | ReadFailed | EmptySeries | DuplicateDates | EmptyFit | MissingMonth(month: int)
    | UnsupportedMethod | NothingToConcatenate

  /** The library calls the forecasts make. */
  datatype Oracles = Oracles(
    interpolate: (seq<Observation>, int) -> real,
    polyfit: (seq<int>, seq<real>) -> LinearFit,
    mean: seq<real> -> real,
    metrics: (seq<real>, seq<real>) -> ForecastMetrics)

  /** The grid spacing, `freq='16D'`. */
  const Step := 16

  /** `pd.date_range(start, end, freq='16D')`: from `start` in steps of 16 days, up to `end`. */
  function DateGrid(start: int, end: int): (ds: seq<int>)
    requires start <= end
    ensures |ds| > 0 && ds[0] == start
    ensures forall i :: 0 <= i < |ds| - 1 ==> ds[i + 1] == ds[i] + Step
    ensures ds[|ds| - 1] <= end < ds[|ds| - 1] + Step
  {
    var n := (end - start) / Step + 1;
    assert Step * (n - 1) <= end - start < Step * n;
    seq(n, i requires 0 <= i < n => start + Step * i)
  }

  /** Two of the rows fall on the same date. */
  predicate RepeatsDate(rows: seq<Observation>)
  {
    exists i, j :: 0 <= i < j < |rows| && rows[i].date == rows[j].date
  }

  /**
   * `prepare_time_series_data`: the region's rows reindexed on the grid from
   * their first to their last date, each grid date carrying the
   * interpolated value. A region without rows has no grid; a region with a
   * repeated date cannot be reindexed.
   */
  function PrepareTimeSeries(data: seq<Observation>, region: string, interpolate: (seq<Observation>, int) -> real)
    : (ts: Result<seq<Point>, PredictError>)
    ensures ts == Err(EmptySeries) <==> |SortedRegionRows(data, region)| == 0
    ensures ts == Err(DuplicateDates) <==> |SortedRegionRows(data, region)| > 0 && RepeatsDate(SortedRegionRows(data, region))
    ensures ts.Err? ==> ts == Err(EmptySeries) || ts == Err(DuplicateDates)
    ensures ts.Ok? ==> |ts.value| > 0
    ensures ts.Ok? ==> ts.value[0].date == SortedRegionRows(data, region)[0].date
    ensures ts.Ok? ==> forall i :: 0 <= i < |ts.value| - 1 ==> ts.value[i + 1].date == ts.value[i].date + Step
  {
    var rows := SortedRegionRows(data, region);
    if rows == [] then Err(EmptySeries)
    else if RepeatsDate(rows) then Err(DuplicateDates)
    else
      SortedRegionRowsOrdered(data, region);
      var grid := DateGrid(rows[0].date, rows[|rows| - 1].date);
      Ok(seq(|grid|, i requires 0 <= i < |grid| => Point(grid[i], interpolate(rows, grid[i]))))
  }

  /** `int(n * 0.8)`: the largest `t` with `5t <= 4n`. */
  function TrainSize(n: nat): (t: nat)
    ensures 5 * t <= 4 * n < 5 * t + 5
    ensures t <= n
    ensures t == 0 <==> n < 2
  {
    (4 * n) / 5
  }

  datatype Split = Split(train: seq<Point>, test: seq<Point>)

  /** The first `int(n * 0.8)` points train, the rest test. */
  function TrainTestSplit(series: seq<Point>): (s: Split)
    ensures s.train + s.test == series
    ensures |s.train| == TrainSize(|series|)
  {
    var t := TrainSize(|series|);
    assert series[..t] + series[t..] == series;
    Split(series[..t], series[t..])
  }

  /** `pd.date_range(last + 16 days, periods=periods, freq='16D')`. */
  function FutureDates(last: int, periods: nat): (ds: seq<int>)
    ensures |ds| == periods
    ensures periods > 0 ==> ds[0] == last + Step
    ensures forall i :: 0 <= i < periods - 1 ==> ds[i + 1] == ds[i] + Step
  {
    seq(periods, i requires 0 <= i < periods => last + Step * (i + 1))
  }

  /** `np.arange(len(train), len(train) + periods)`. */
  function FutureIndices(trainLen: nat, periods: nat): (xs: seq<int>)
    ensures |xs| == periods
    ensures periods > 0 ==> xs[0] == trainLen
    ensures forall i :: 0 <= i < periods - 1 ==> xs[i + 1] == xs[i] + 1
  {
    seq(periods, i requires 0 <= i < periods => trainLen + i)
  }

  function Values(ps: seq<Point>): (vs: seq<real>)
    ensures |vs| == |ps|
  {
    seq(|ps|, i requires 0 <= i < |ps| => ps[i].value)
  }

  function Dates(ps: seq<Point>): (ds: seq<int>)
    ensures |ds| == |ps|
  {
    seq(|ps|, i requires 0 <= i < |ps| => ps[i].date)
  }

  /** `np.poly1d(coeffs)(x)`. */
  function Eval(fit: LinearFit, x: int): real
  {
    fit.slope * (x as real) + fit.intercept
  }

  /**
   * `simple_linear_trend_prediction` on a prepared series: a line fitted to
   * the training points at x = 0, 1, ..., evaluated at the future indices;
   * the metrics compare the training values with the line.
   */
  function LinearTrend(series: seq<Point>, periods: nat, o: Oracles): (r: Result<Forecast, PredictError>)
    ensures r.Err? <==> |series| < 2
    ensures r.Ok? ==> |r.value.predicted| == periods
    ensures r.Ok? ==> r.value.dates == FutureDates(series[|series| - 1].date, periods)
    ensures r.Ok? ==>
      var t := TrainSize(|series|);
      var ys := Values(series[..t]);
      var fit := o.polyfit(seq(t, j requires 0 <= j < t => j), ys);
      r.value.metrics == o.metrics(ys, seq(t, j requires 0 <= j < t => Eval(fit, j)))
  {
    var s := TrainTestSplit(series);
    var t := |s.train|;
    if t == 0 then Err(EmptyFit)
    else
      var xs := seq(t, i requires 0 <= i < t => i);
      var ys := Values(s.train);
      var fit := o.polyfit(xs, ys);
      var fitted := seq(t, i requires 0 <= i < t => Eval(fit, i));
      var futureX := FutureIndices(t, periods);
      Ok(Forecast(
        FutureDates(series[|series| - 1].date, periods),
        seq(periods, i requires 0 <= i < periods => Eval(fit, futureX[i])),
        o.metrics(ys, fitted)))
  }

  /**
   * The test points are never read: two series of the same length that
   * agree on their training points and on their last date give the same
   * linear forecast and metrics.
   */
  lemma LinearTrendIgnoresTest(a: seq<Point>, b: seq<Point>, periods: nat, o: Oracles)
    requires |a| == |b| > 0
    requires a[..TrainSize(|a|)] == b[..TrainSize(|b|)]
    requires a[|a| - 1].date == b[|b| - 1].date
    ensures LinearTrend(a, periods, o) == LinearTrend(b, periods, o)
  {
    assert TrainTestSplit(a).train == TrainTestSplit(b).train;
  }

  /**
   * The future values continue the training abscissae: the i-th future
   * value is the line at `len(train) + i`, not at `len(series) + i`.
   */
  lemma LinearTrendContinuesTraining(series: seq<Point>, periods: nat, o: Oracles, i: int)
    requires |series| >= 2 && 0 <= i < periods
    ensures var t := TrainSize(|series|);
      var fit := o.polyfit(seq(t, j requires 0 <= j < t => j), Values(series[..t]));
      LinearTrend(series, periods, o).value.predicted[i] == Eval(fit, t + i)
  {
  }

  /** The training values that fall in `month`. */
  function MonthValues(train: seq<Point>, month: int): seq<real>
  {
    if train == [] then []
    else
      var last := train[|train| - 1];
      MonthValues(train[..|train| - 1], month) + (if MonthOf(last.date) == month then [last.value] else [])
  }

  /** `train_df.groupby('Month')['NDVI'].mean()`: one entry per month present in training. */
  function SeasonalPattern(train: seq<Point>, mean: seq<real> -> real): (p: map<int, real>)
    ensures forall i :: 0 <= i < |train| ==> MonthOf(train[i].date) in p
    ensures forall m :: m in p ==> exists i :: 0 <= i < |train| && MonthOf(train[i].date) == m
    ensures forall m :: m in p ==> p[m] == mean(MonthValues(train, m))
  {
    map i | 0 <= i < |train| :: MonthOf(train[i].date) := mean(MonthValues(train, MonthOf(train[i].date)))
  }

  /** `dates[i]` is the first date whose month has no entry in the pattern. */
  predicate FirstMissing(pattern: map<int, real>, dates: seq<int>, i: int)
  {
    0 <= i < |dates| && MonthOf(dates[i]) !in pattern && forall j :: 0 <= j < i ==> MonthOf(dates[j]) in pattern
  }

  /**
   * `seasonal_pattern[date.month]` for each date in order: the values when
   * every month is present, else the `KeyError` of the first missing one.
   */
  function LookupMonths(pattern: map<int, real>, dates: seq<int>): (r: Result<seq<real>, PredictError>)
    ensures r.Ok? <==> forall i :: 0 <= i < |dates| ==> MonthOf(dates[i]) in pattern
    ensures r.Ok? ==> |r.value| == |dates|
    ensures r.Ok? ==> forall i :: 0 <= i < |dates| ==> r.value[i] == pattern[MonthOf(dates[i])]
  {
    if dates == [] then Ok([])
    else
      var init := dates[..|dates| - 1];
      var m := MonthOf(dates[|dates| - 1]);
      assert forall i :: 0 <= i < |init| ==> init[i] == dates[i];
      match LookupMonths(pattern, init)
      case Err(e) => Err(e)
      case Ok(vs) => if m in pattern then Ok(vs + [pattern[m]]) else Err(MissingMonth(m))
  }

  /** A failed lookup reports the month of the first date whose month is missing. */
  lemma {:induction false} LookupMonthsError(pattern: map<int, real>, dates: seq<int>)
    requires LookupMonths(pattern, dates).Err?
    ensures exists i :: FirstMissing(pattern, dates, i) && LookupMonths(pattern, dates).error == MissingMonth(MonthOf(dates[i]))
  {
    var init := dates[..|dates| - 1];
    assert forall i :: 0 <= i < |init| ==> init[i] == dates[i];
    if LookupMonths(pattern, init).Err? {
      LookupMonthsError(pattern, init);
      var i :| FirstMissing(pattern, init, i) && LookupMonths(pattern, init).error == MissingMonth(MonthOf(init[i]));
      assert FirstMissing(pattern, dates, i);
    } else {
      assert FirstMissing(pattern, dates, |dates| - 1);
    }
  }

  /** The loops of `seasonal_naive_prediction` that look up each date's month. */
  method SeasonalLookup(pattern: map<int, real>, dates: seq<int>) returns (r: Result<seq<real>, PredictError>)
    ensures r == LookupMonths(pattern, dates)
  {
    var values: seq<real> := [];
    for i := 0 to |dates|
      invariant LookupMonths(pattern, dates[..i]) == Ok(values)
    {
      var month := MonthOf(dates[i]);
      assert dates[..i + 1][..i] == dates[..i];
      if month !in pattern {
        LookupErrorStops(pattern, dates, i + 1, MissingMonth(month));
        return Err(MissingMonth(month));
      }
      values := values + [pattern[month]];
    }
    assert dates[..|dates|] == dates;
    r := Ok(values);
  }

  /** A missing month ends the lookup. */
  lemma {:induction false} LookupErrorStops(pattern: map<int, real>, dates: seq<int>, n: nat, e: PredictError)
    requires n <= |dates|
    requires LookupMonths(pattern, dates[..n]) == Err(e)
    ensures LookupMonths(pattern, dates) == Err(e)
    decreases |dates| - n
  {
    if n < |dates| {
      var next := dates[..n + 1];
      assert next[..|next| - 1] == dates[..n];
      assert LookupMonths(pattern, next) == Err(e);
      LookupErrorStops(pattern, dates, n + 1, e);
    } else {
      assert dates[..n] == dates;
    }
  }

  /** Dates `i` and `j` of `dates` fall in the same month. */
  predicate SameMonth(dates: seq<int>, i: int, j: int)
  {
    0 <= i < |dates| && 0 <= j < |dates| && MonthOf(dates[i]) == MonthOf(dates[j])
  }

  /**
   * `seasonal_naive_prediction` on a prepared series: each date is given
   * the training mean of its month; the metrics compare the training
   * values with their in-sample seasonal values.
   */
  function SeasonalNaive(series: seq<Point>, periods: nat, o: Oracles): (r: Result<Forecast, PredictError>)
    ensures r.Ok? ==> |series| > 0 && r.value.dates == FutureDates(series[|series| - 1].date, periods)
    ensures r.Ok? ==> |r.value.predicted| == periods
    ensures r.Ok? ==> forall i, j :: SameMonth(r.value.dates, i, j) ==> r.value.predicted[i] == r.value.predicted[j]
    ensures r.Ok? ==> var pattern := SeasonalPattern(TrainTestSplit(series).train, o.mean);
      forall i :: 0 <= i < periods ==>
        MonthOf(r.value.dates[i]) in pattern && r.value.predicted[i] == pattern[MonthOf(r.value.dates[i])]
    ensures r.Ok? ==> var train := TrainTestSplit(series).train;
      r.value.metrics == o.metrics(Values(train), InSampleFit(train, SeasonalPattern(train, o.mean)))
  {
    var s := TrainTestSplit(series);
    var pattern := SeasonalPattern(s.train, o.mean);
    match LookupMonths(pattern, Dates(s.train))
    case Err(e) => Err(e)
    case Ok(fitted) =>
      InSampleLookup(s.train, pattern, fitted);
      if |series| == 0 then Err(EmptySeries)
      else
        var future := FutureDates(series[|series| - 1].date, periods);
        match LookupMonths(pattern, future)
        case Err(e) => Err(e)
        case Ok(predicted) => Ok(Forecast(future, predicted, o.metrics(Values(s.train), fitted)))
  }

  /** The in-sample seasonal values: each training point's month looked up in the pattern. */
  function InSampleFit(train: seq<Point>, pattern: map<int, real>): (fitted: seq<real>)
    requires forall i :: 0 <= i < |train| ==> MonthOf(train[i].date) in pattern
    ensures |fitted| == |train|
    ensures forall i :: 0 <= i < |train| ==> fitted[i] == pattern[MonthOf(train[i].date)]
  {
    seq(|train|, i requires 0 <= i < |train| => pattern[MonthOf(train[i].date)])
  }

  /** A successful lookup of the training dates gives the in-sample seasonal values. */
  lemma InSampleLookup(train: seq<Point>, pattern: map<int, real>, fitted: seq<real>)
    requires LookupMonths(pattern, Dates(train)) == Ok(fitted)
    ensures forall i :: 0 <= i < |train| ==> MonthOf(train[i].date) in pattern
    ensures fitted == InSampleFit(train, pattern)
  {
    assert forall i :: 0 <= i < |train| ==> Dates(train)[i] == train[i].date;
  }

  /**
   * The test points are never read: two series of the same length that
   * agree on their training points and on their last date give the same
   * seasonal forecast and metrics.
   */
  lemma SeasonalNaiveIgnoresTest(a: seq<Point>, b: seq<Point>, periods: nat, o: Oracles)
    requires |a| == |b| > 0
    requires a[..TrainSize(|a|)] == b[..TrainSize(|b|)]
    requires a[|a| - 1].date == b[|b| - 1].date
    ensures SeasonalNaive(a, periods, o) == SeasonalNaive(b, periods, o)
  {
    assert TrainTestSplit(a).train == TrainTestSplit(b).train;
  }

  /** The in-sample lookup never fails: every training month is in the pattern. */
  lemma TrainingMonthsPresent(series: seq<Point>, mean: seq<real> -> real)
    ensures var train := TrainTestSplit(series).train;
      LookupMonths(SeasonalPattern(train, mean), Dates(train)).Ok?
  {
    var train := TrainTestSplit(series).train;
    var p := SeasonalPattern(train, mean);
    forall i | 0 <= i < |Dates(train)|
      ensures MonthOf(Dates(train)[i]) in p
    {
      assert Dates(train)[i] == train[i].date;
    }
  }

  /**
   * A non-empty seasonal forecast fails exactly when a future month has no
   * training point, with the `KeyError` of the first such date.
   */
  lemma SeasonalNaiveFailsOnMissingMonth(series: seq<Point>, periods: nat, o: Oracles)
    requires |series| > 0
    ensures var s := TrainTestSplit(series);
      var future := FutureDates(series[|series| - 1].date, periods);
      var pattern := SeasonalPattern(s.train, o.mean);
      SeasonalNaive(series, periods, o).Err? <==> exists i :: 0 <= i < periods && MonthOf(future[i]) !in pattern
  {
    TrainingMonthsPresent(series, o.mean);
  }

  /** `method` selects the forecast of a region; any other name raises before the series is built. */
  function RegionForecast(data: seq<Observation>, region: string, methodName: string, periods: nat, o: Oracles)
    : (r: Result<Forecast, PredictError>)
    ensures methodName != "linear" && methodName != "seasonal" ==> r == Err(UnsupportedMethod)
    ensures methodName == "linear" ==>
      r == (match PrepareTimeSeries(data, region, o.interpolate)
            case Err(e) => Err(e)
            case Ok(ts) => LinearTrend(ts, periods, o))
    ensures methodName == "seasonal" ==>
      r == (match PrepareTimeSeries(data, region, o.interpolate)
            case Err(e) => Err(e)
            case Ok(ts) => SeasonalNaive(ts, periods, o))
    ensures r.Ok? ==> |r.value.dates| == periods && |r.value.predicted| == periods
  {
    if methodName != "linear" && methodName != "seasonal" then Err(UnsupportedMethod)
    else
      match PrepareTimeSeries(data, region, o.interpolate)
      case Err(e) => Err(e)
      case Ok(ts) => if methodName == "linear" then LinearTrend(ts, periods, o) else SeasonalNaive(ts, periods, o)
  }

  /** The rows a forecast adds to the combined frame, one per future date. */
  function ForecastRows(region: string, f: Forecast): (rows: seq<PredictionRow>)
    ensures |rows| <= |f.dates| && |rows| <= |f.predicted|
    ensures |f.dates| == |f.predicted| ==> |rows| == |f.dates|
    ensures forall i :: 0 <= i < |rows| ==> rows[i] == PredictionRow(f.dates[i], f.predicted[i], region)
  {
    var n := if |f.dates| <= |f.predicted| then |f.dates| else |f.predicted|;
    seq(n, i requires 0 <= i < n => PredictionRow(f.dates[i], f.predicted[i], region))
  }

  /** The forecast `predict_all_regions` makes for each region. */
  function ForecastFn(data: seq<Observation>, methodName: string, periods: nat, o: Oracles)
    : string -> Result<Forecast, PredictError>
  {
    region => RegionForecast(data, region, methodName, periods, o)
  }

  /** The loop of `predict_all_regions` over `regions`: an error ends it. */
  function CollectForecasts(forecast: string -> Result<Forecast, PredictError>, regions: seq<string>)
    : (r: Result<AllPredictions, PredictError>)
    ensures r.Err? <==> exists i :: 0 <= i < |regions| && forecast(regions[i]).Err?
    ensures r.Err? ==>
      exists i :: 0 <= i < |regions| && forecast(regions[i]) == Err(r.error) && forall j :: 0 <= j < i ==> forecast(regions[j]).Ok?
  {
    if regions == [] then Ok(AllPredictions([], map[]))
    else
      var region := regions[|regions| - 1];
      assert forall i :: 0 <= i < |regions| - 1 ==> regions[..|regions| - 1][i] == regions[i];
      match CollectForecasts(forecast, regions[..|regions| - 1])
      case Err(e) => Err(e)
      case Ok(acc) =>
        match forecast(region)
        case Err(e) => Err(e)
        case Ok(f) => Ok(AllPredictions(acc.predictions + ForecastRows(region, f), acc.metrics[region := f.metrics]))
  }

  /** `predict_all_regions`: the loop over the regions, then `pd.concat`, which needs one frame at least. */
  function PredictAll(data: seq<Observation>, methodName: string, periods: nat, o: Oracles)
    : (r: Result<AllPredictions, PredictError>)
    ensures r.Ok? <==> (Regions(data) != [] &&
      forall i :: 0 <= i < |Regions(data)| ==> RegionForecast(data, Regions(data)[i], methodName, periods, o).Ok?)
    ensures Regions(data) == [] ==> r == Err(NothingToConcatenate)
  {
    var regions := Regions(data);
    match CollectForecasts(ForecastFn(data, methodName, periods, o), regions)
    case Err(e) => Err(e)
    case Ok(a) => if regions == [] then Err(NothingToConcatenate) else Ok(a)
  }

  /** An error at the first region ends the loop with that error. */
  lemma {:induction false} FirstErrorStops(forecast: string -> Result<Forecast, PredictError>, regions: seq<string>)
    requires |regions| > 0 && forecast(regions[0]).Err?
    ensures CollectForecasts(forecast, regions) == Err(forecast(regions[0]).error)
  {
    if |regions| > 1 {
      FirstErrorStops(forecast, regions[..|regions| - 1]);
    }
  }

  /** An error ends the loop over the regions. */
  lemma {:induction false} CollectErrorStops(
    forecast: string -> Result<Forecast, PredictError>, regions: seq<string>, n: nat, e: PredictError)
    requires n <= |regions|
    requires CollectForecasts(forecast, regions[..n]) == Err(e)
    ensures CollectForecasts(forecast, regions) == Err(e)
    decreases |regions| - n
  {
    if n < |regions| {
      assert regions[..n + 1][..n] == regions[..n];
      CollectErrorStops(forecast, regions, n + 1, e);
    } else {
      assert regions[..n] == regions;
    }
  }

  /** A region whose forecast succeeds adds its rows and its metrics. */
  lemma CollectForecastsStep(
    forecast: string -> Result<Forecast, PredictError>, regions: seq<string>, i: nat, acc: AllPredictions)
    requires i < |regions|
    requires CollectForecasts(forecast, regions[..i]) == Ok(acc)
    requires forecast(regions[i]).Ok?
    ensures CollectForecasts(forecast, regions[..i + 1]) == Ok(AllPredictions(
      acc.predictions + ForecastRows(regions[i], forecast(regions[i]).value),
      acc.metrics[regions[i] := forecast(regions[i]).value.metrics]))
  {
    assert regions[..i + 1][..i] == regions[..i];
  }

  /** A region whose forecast fails ends the loop with that error. */
  lemma CollectForecastsFails(
    forecast: string -> Result<Forecast, PredictError>, regions: seq<string>, i: nat, acc: AllPredictions)
    requires i < |regions|
    requires CollectForecasts(forecast, regions[..i]) == Ok(acc)
    requires forecast(regions[i]).Err?
    ensures CollectForecasts(forecast, regions) == Err(forecast(regions[i]).error)
  {
    assert regions[..i + 1][..i] == regions[..i];
    CollectErrorStops(forecast, regions, i + 1, forecast(regions[i]).error);
  }

  /** Only `'linear'` and `'seasonal'` can succeed; any other method raises `ValueError`. */
  lemma PredictAllNeedsKnownMethod(data: seq<Observation>, methodName: string, periods: nat, o: Oracles)
    requires methodName != "linear" && methodName != "seasonal"
    ensures PredictAll(data, methodName, periods, o) == Err(if Regions(data) == [] then NothingToConcatenate else UnsupportedMethod)
  {
    if Regions(data) != [] {
      FirstErrorStops(ForecastFn(data, methodName, periods, o), Regions(data));
    }
  }

  /** A successful loop has one metrics entry per region, from that region's forecast. */
  lemma {:induction false} CollectForecastsMetrics(forecast: string -> Result<Forecast, PredictError>, regions: seq<string>)
    requires Unique(regions)
    requires CollectForecasts(forecast, regions).Ok?
    ensures forall region :: region in CollectForecasts(forecast, regions).value.metrics <==> region in regions
    ensures forall i :: 0 <= i < |regions| ==> forecast(regions[i]).Ok?
    ensures forall i :: 0 <= i < |regions| ==>
      CollectForecasts(forecast, regions).value.metrics[regions[i]] == forecast(regions[i]).value.metrics
  {
    if regions != [] {
      var init := regions[..|regions| - 1];
      var last := regions[|regions| - 1];
      assert forall i :: 0 <= i < |init| ==> init[i] == regions[i];
      assert Unique(init);
      CollectForecastsMetrics(forecast, init);
      assert forall i :: 0 <= i < |init| ==> init[i] != last;
      assert regions == init + [last];
    }
  }

  /** A successful loop has `periods` rows per region, every row of a listed region. */
  lemma {:induction false} CollectForecastsRows(
    forecast: string -> Result<Forecast, PredictError>, regions: seq<string>, periods: nat)
    requires forall i :: 0 <= i < |regions| && forecast(regions[i]).Ok? ==>
      |forecast(regions[i]).value.dates| == periods && |forecast(regions[i]).value.predicted| == periods
    requires CollectForecasts(forecast, regions).Ok?
    ensures |CollectForecasts(forecast, regions).value.predictions| == |regions| * periods
    ensures forall k :: 0 <= k < |CollectForecasts(forecast, regions).value.predictions| ==>
      CollectForecasts(forecast, regions).value.predictions[k].region in regions
  {
    if regions != [] {
      var init := regions[..|regions| - 1];
      var last := regions[|regions| - 1];
      assert forall i :: 0 <= i < |init| ==> init[i] == regions[i];
      CollectForecastsRows(forecast, init, periods);
      var acc := CollectForecasts(forecast, init).value;
      var rows := ForecastRows(last, forecast(last).value);
      assert CollectForecasts(forecast, regions).value.predictions == acc.predictions + rows;
      assert |regions| * periods == |init| * periods + periods;
      forall k | 0 <= k < |acc.predictions| + |rows|
        ensures (acc.predictions + rows)[k].region in regions
      {
        if k < |acc.predictions| {
          assert acc.predictions[k].region in init;
        }
      }
    }
  }

  /** The region column of a predictions frame. */
  function RowRegions(rows: seq<PredictionRow>): (names: seq<string>)
    ensures |names| == |rows|
    ensures forall k :: 0 <= k < |rows| ==> names[k] == rows[k].region
  {
    seq(|rows|, k requires 0 <= k < |rows| => rows[k].region)
  }

  /** With at least one period, every region of the loop has a row. */
  lemma {:induction false} CollectForecastsCovers(
    forecast: string -> Result<Forecast, PredictError>, regions: seq<string>, periods: nat)
    requires periods > 0
    requires forall i :: 0 <= i < |regions| && forecast(regions[i]).Ok? ==>
      |forecast(regions[i]).value.dates| == periods && |forecast(regions[i]).value.predicted| == periods
    requires CollectForecasts(forecast, regions).Ok?
    ensures forall i :: 0 <= i < |regions| ==> regions[i] in RowRegions(CollectForecasts(forecast, regions).value.predictions)
  {
    if regions != [] {
      var init := regions[..|regions| - 1];
      var last := regions[|regions| - 1];
      assert forall i :: 0 <= i < |init| ==> init[i] == regions[i];
      CollectForecastsCovers(forecast, init, periods);
      var acc := CollectForecasts(forecast, init).value;
      var rows := ForecastRows(last, forecast(last).value);
      var all := acc.predictions + rows;
      assert CollectForecasts(forecast, regions).value.predictions == all;
      assert RowRegions(all) == RowRegions(acc.predictions) + RowRegions(rows);
      assert RowRegions(rows)[0] == last;
    }
  }

  /**
   * `predict_all_regions` on loaded data: one metrics entry per region of
   * the data, from that region's forecast, and `periods` rows per region.
   */
  lemma PredictAllShape(data: seq<Observation>, methodName: string, periods: nat, o: Oracles)
    requires PredictAll(data, methodName, periods, o).Ok?
    ensures var a := PredictAll(data, methodName, periods, o).value;
      (forall region :: region in a.metrics <==> region in Regions(data))
      && (forall region :: region in a.metrics ==>
            RegionForecast(data, region, methodName, periods, o).Ok?
            && a.metrics[region] == RegionForecast(data, region, methodName, periods, o).value.metrics)
      && |a.predictions| == |Regions(data)| * periods
      && forall k :: 0 <= k < |a.predictions| ==> a.predictions[k].region in Regions(data)
    ensures periods > 0 ==> forall region :: region in Regions(data) ==>
      region in RowRegions(PredictAll(data, methodName, periods, o).value.predictions)
  {
    var regions := Regions(data);
    var forecast := ForecastFn(data, methodName, periods, o);
    CollectForecastsMetrics(forecast, regions);
    CollectForecastsRows(forecast, regions, periods);
    if periods > 0 {
      CollectForecastsCovers(forecast, regions, periods);
    }
  }

  /** `sort_values(['Region', 'Date'])`: by region name, then by date. */
  predicate RegionDateLe(x: Observation, y: Observation)
  {
    if x.region != y.region then LexLe(x.region, y.region) else x.date <= y.date
  }

  lemma RegionDateLeTotalPreorder()
    ensures TotalPreorder(RegionDateLe)
  {
    forall x: Observation, y: Observation
      ensures RegionDateLe(x, y) || RegionDateLe(y, x)
    {
      LexLeTotal(x.region, y.region);
    }
    forall x: Observation, y: Observation, z: Observation | RegionDateLe(x, y) && RegionDateLe(y, z)
      ensures RegionDateLe(x, z)
    {
      if x.region != y.region && y.region != z.region {
        LexLeTransitive(x.region, y.region, z.region);
        if x.region == z.region {
          LexLeAntisymmetric(x.region, y.region);
        }
      }
    }
  }

  class NdviPredictor {
    var dataFile: string
    var data: Option<seq<Observation>>

    constructor(dataFile: string)
      ensures this.dataFile == dataFile && data == None
    {
      this.dataFile := dataFile;
      data := None;
    }

    /** `load_data`: the rows read from the file, sorted by region and date; a failed read is re-raised. */
    method LoadData(read: Option<seq<Observation>>) returns (r: Result<seq<Observation>, PredictError>)
      modifies this
      ensures read.None? ==> r == Err(ReadFailed) && data == old(data)
      ensures read.Some? ==> r == Ok(Sort(read.value, RegionDateLe)) && data == Some(r.value)
      ensures r.Ok? ==> Sorted(r.value, RegionDateLe) && multiset(r.value) == multiset(read.value)
      ensures dataFile == old(dataFile)
    {
      if read.None? {
        return Err(ReadFailed);
      }
      RegionDateLeTotalPreorder();
      SortSorted(read.value, RegionDateLe);
      var sorted := Sort(read.value, RegionDateLe);
      data := Some(sorted);
      r := Ok(sorted);
    }

    /**
     * The trends part of `analyze_temporal_patterns`: `ValueError` before
     * the data is loaded, else one trend per region (`corr` is the
     * correlation of the date-sorted NDVI with time).
     */
    method AnalyzeTemporalPatterns(corr: seq<Observation> -> real) returns (r: Result<map<string, real>, PredictError>)
      ensures data.None? ==> r == Err(NotLoaded)
      ensures data.Some? ==> r.Ok? && forall region :: region in r.value <==> region in Regions(data.value)
      ensures data.Some? ==> forall region :: region in r.value ==>
        r.value[region] == corr(SortedRegionRows(data.value, region))
    {
      if data.None? {
        return Err(NotLoaded);
      }
      var rows := data.value;
      var regions := Regions(rows);
      var trends: map<string, real> := map[];
      for i := 0 to |regions|
        invariant forall region :: region in trends <==> region in regions[..i]
        invariant forall region :: region in trends ==> trends[region] == corr(SortedRegionRows(rows, region))
      {
        var region := regions[i];
        assert regions[..i + 1] == regions[..i] + [region];
        trends := trends[region := corr(SortedRegionRows(rows, region))];
      }
      assert regions[..|regions|] == regions;
      r := Ok(trends);
    }

    /** `seasonal_naive_prediction`, with its two lookup loops. */
    method SeasonalNaivePrediction(series: seq<Point>, periods: nat, o: Oracles) returns (r: Result<Forecast, PredictError>)
      ensures r == SeasonalNaive(series, periods, o)
    {
      var s := TrainTestSplit(series);
      var pattern := SeasonalPattern(s.train, o.mean);
      var fitted := SeasonalLookup(pattern, Dates(s.train));
      if fitted.Err? {
        return Err(fitted.error);
      }
      if |series| == 0 {
        return Err(EmptySeries);
      }
      var future := FutureDates(series[|series| - 1].date, periods);
      var predicted := SeasonalLookup(pattern, future);
      if predicted.Err? {
        return Err(predicted.error);
      }
      r := Ok(Forecast(future, predicted.value, o.metrics(Values(s.train), fitted.value)));
    }

    /** The body of the loop of `predict_all_regions` for one region. */
    method ForecastRegion(region: string, methodName: string, periods: nat, o: Oracles)
      returns (r: Result<Forecast, PredictError>)
      requires data.Some?
      ensures r == RegionForecast(data.value, region, methodName, periods, o)
    {
      if methodName != "linear" && methodName != "seasonal" {
        return Err(UnsupportedMethod);
      }
      var ts := PrepareTimeSeries(data.value, region, o.interpolate);
      if ts.Err? {
        return Err(ts.error);
      }
      if methodName == "linear" {
        r := LinearTrend(ts.value, periods, o);
      } else {
        r := SeasonalNaivePrediction(ts.value, periods, o);
      }
    }

    /** `predict_all_regions`: every region in order of appearance, then the concatenation. */
    method PredictAllRegions(methodName: string, periods: nat, o: Oracles) returns (r: Result<AllPredictions, PredictError>)
      ensures data.None? ==> r == Err(NotLoaded)
      ensures data.Some? ==> r == PredictAll(data.value, methodName, periods, o)
    {
      if data.None? {
        return Err(NotLoaded);
      }
      var regions := Regions(data.value);
      ghost var forecast := ForecastFn(data.value, methodName, periods, o);
      var all := AllPredictions([], map[]);
      for i := 0 to |regions|
        invariant CollectForecasts(forecast, regions[..i]) == Ok(all)
      {
        var f := ForecastRegion(regions[i], methodName, periods, o);
        assert f == forecast(regions[i]);
        if f.Err? {
          CollectForecastsFails(forecast, regions, i, all);
          return Err(f.error);
        }
        CollectForecastsStep(forecast, regions, i, all);
        all := AllPredictions(all.predictions + ForecastRows(regions[i], f.value), all.metrics[regions[i] := f.value.metrics]);
      }
      assert regions[..|regions|] == regions;
      if regions == [] {
        return Err(NothingToConcatenate);
      }
      r := Ok(all);
    }
  }
}
