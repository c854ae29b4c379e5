/**
 * The ARIMA predictor: differencing until the stationarity test passes (at
 * most three times), the grid search of the order with the least AIC, the
 * order adjustment, and the forecast of every region whose fit succeeds.
 * The stationarity test, the ARIMA fit and its forecast are statsmodels
 * calls, passed in as functions.
 */
module ArimaPrediction {
  import opened Wrappers
  import opened Strings
  import opened Sorting
  import opened ProcessedData
  import opened NdviPrediction

  /** An ARIMA order `(p, d, q)`. */
  datatype Order = Order(p: nat, d: nat, q: nat)

  /** What a successful `ARIMA(ts, order).fit()` reports. */
  datatype FittedModel = FittedModel(aic: real, bic: real)

  /**
   * `stationary`: the ADF p-value is below 0.05. `fit`: `None` when the fit
   * raises. `forecast(ts, order, i)`: the `i`-th step of
   * `fitted_model.forecast`. `errors(actual, predicted)`: MAE, MSE, RMSE, MAPE.
   */
  datatype ArimaOracles = ArimaOracles(
    interpolate: (seq<Observation>, int) -> real,
    stationary: seq<real> -> bool,
    fit: (seq<real>, Order) -> Option<FittedModel>,
    forecast: (seq<real>, Order, nat) -> real,
    errors: (seq<real>, seq<real>) -> ForecastMetrics)

  /**
   * `NotLoaded`: the data is `None`. `ReadFailed`: `read_csv` raised.
   * `EmptySeries`: `pd.date_range` between the dates of a region without
   * rows. `DuplicateDates`: `reindex` of a region with a repeated date.
   * `FitFailed`: the final fit of `predict_future`, which nothing catches.
   */
  datatype ArimaError = NotLoaded | ReadFailed | EmptySeries | DuplicateDates | FitFailed

  /** The defaults of `find_best_arima_params`. */
  const MaxP := 3
  const MaxD := 2
  const MaxQ := 3
  /** `make_stationary` differences at most this many times. */
  const MaxDiff := 3

  /** `ts.diff().dropna()`: the differences of consecutive values, one fewer than the values. */
  function Diff(ts: seq<real>): (r: seq<real>)
    ensures |r| == if |ts| == 0 then 0 else |ts| - 1
    ensures forall i :: 0 <= i < |r| ==> r[i] == ts[i + 1] - ts[i]
  {
    if |ts| == 0 then [] else seq(|ts| - 1, i requires 0 <= i < |ts| - 1 => ts[i + 1] - ts[i])
  }

  /** The series differenced `k` times; each time drops one leading value. */
  function DiffN(ts: seq<real>, k: nat): (r: seq<real>)
    ensures |r| == if |ts| >= k then |ts| - k else 0
  {
    if k == 0 then ts else Diff(DiffN(ts, k - 1))
  }

  /** The number of differences `make_stationary` applies, counting on from `k`. */
  function DiffCount(ts: seq<real>, stationary: seq<real> -> bool, k: nat): (n: nat)
    requires k <= MaxDiff
    ensures k <= n <= MaxDiff
    ensures n < MaxDiff ==> stationary(DiffN(ts, n))
    ensures forall j :: k <= j < n ==> !stationary(DiffN(ts, j))
    decreases MaxDiff - k
  {
    if k == MaxDiff || stationary(DiffN(ts, k)) then k else DiffCount(ts, stationary, k + 1)
  }

  /** The two directions of `DiffCount`: the first passing test stops the loop, three failures end it. */
  lemma DiffCountFirstPass(ts: seq<real>, stationary: seq<real> -> bool, n: nat)
    requires n <= MaxDiff
    requires n < MaxDiff ==> stationary(DiffN(ts, n))
    requires forall j :: 0 <= j < n ==> !stationary(DiffN(ts, j))
    ensures DiffCount(ts, stationary, 0) == n
  {
  }

  /** `(p, d, q)` for `q` below `n`. */
  function QRow(p: nat, d: nat, n: nat): (row: seq<Order>)
    ensures |row| == n
  {
    seq(n, q requires 0 <= q < n => Order(p, d, q))
  }

  /** The orders with `p` fixed and `d` below `m`, in loop order. */
  function DBlock(p: nat, m: nat, qs: nat): seq<Order>
  {
    if m == 0 then [] else DBlock(p, m - 1, qs) + QRow(p, m - 1, qs)
  }

  /** The orders of the triple loop over `p < n`, `d < ds`, `q < qs`, in loop order. */
  function Grid(n: nat, ds: nat, qs: nat): seq<Order>
  {
    if n == 0 then [] else Grid(n - 1, ds, qs) + DBlock(n - 1, ds, qs)
  }

  /** `a` comes before `b` in the loop: lexicographic, `p` outermost. */
  predicate OrderLt(a: Order, b: Order)
  {
    a.p < b.p || (a.p == b.p && (a.d < b.d || (a.d == b.d && a.q < b.q)))
  }

  predicate Ascending(s: seq<Order>)
  {
    forall i, j :: 0 <= i < j < |s| ==> OrderLt(s[i], s[j])
  }

  lemma QRowMembers(p: nat, d: nat, n: nat, o: Order)
    ensures o in QRow(p, d, n) <==> o.p == p && o.d == d && o.q < n
  {
    if o.p == p && o.d == d && o.q < n {
      assert QRow(p, d, n)[o.q] == o;
    }
  }

  lemma {:induction false} DBlockMembers(p: nat, m: nat, qs: nat, o: Order)
    ensures o in DBlock(p, m, qs) <==> o.p == p && o.d < m && o.q < qs
  {
    if m > 0 {
      DBlockMembers(p, m - 1, qs, o);
      QRowMembers(p, m - 1, qs, o);
    }
  }

  /** The grid holds exactly the orders within the bounds. */
  lemma {:induction false} GridMembers(n: nat, ds: nat, qs: nat, o: Order)
    ensures o in Grid(n, ds, qs) <==> o.p < n && o.d < ds && o.q < qs
  {
    if n > 0 {
      var g, b := Grid(n - 1, ds, qs), DBlock(n - 1, ds, qs);
      assert Grid(n, ds, qs) == g + b;
      assert o in g + b <==> o in g || o in b;
      GridMembers(n - 1, ds, qs, o);
      DBlockMembers(n - 1, ds, qs, o);
    }
  }

  lemma AscendingConcat(a: seq<Order>, b: seq<Order>)
    requires Ascending(a) && Ascending(b)
    requires forall x, y :: x in a && y in b ==> OrderLt(x, y)
    ensures Ascending(a + b)
  {
    forall i, j | 0 <= i < j < |a + b|
      ensures OrderLt((a + b)[i], (a + b)[j])
    {
      if i < |a| && j >= |a| {
        assert (a + b)[i] == a[i] && (a + b)[j] == b[j - |a|];
      }
    }
  }

  lemma {:induction false} DBlockAscending(p: nat, m: nat, qs: nat)
    ensures Ascending(DBlock(p, m, qs))
  {
    if m > 0 {
      DBlockAscending(p, m - 1, qs);
      forall x, y | x in DBlock(p, m - 1, qs) && y in QRow(p, m - 1, qs)
        ensures OrderLt(x, y)
      {
        DBlockMembers(p, m - 1, qs, x);
        QRowMembers(p, m - 1, qs, y);
      }
      AscendingConcat(DBlock(p, m - 1, qs), QRow(p, m - 1, qs));
    }
  }

  lemma GridBeforeBlock(n: nat, ds: nat, qs: nat)
    ensures forall x, y :: x in Grid(n, ds, qs) && y in DBlock(n, ds, qs) ==> OrderLt(x, y)
  {
    forall x, y | x in Grid(n, ds, qs) && y in DBlock(n, ds, qs)
      ensures OrderLt(x, y)
    {
      GridMembers(n, ds, qs, x);
      DBlockMembers(n, ds, qs, y);
    }
  }

  /** The loops visit every order once, in lexicographic order. */
  lemma {:induction false} GridAscending(n: nat, ds: nat, qs: nat)
    ensures Ascending(Grid(n, ds, qs))
  {
    if n > 0 {
      GridAscending(n - 1, ds, qs);
      DBlockAscending(n - 1, ds, qs);
      GridBeforeBlock(n - 1, ds, qs);
      AscendingConcat(Grid(n - 1, ds, qs), DBlock(n - 1, ds, qs));
      assert Grid(n, ds, qs) == Grid(n - 1, ds, qs) + DBlock(n - 1, ds, qs);
    }
  }

  /** The best order so far and its AIC; `None` stands for `float('inf')`. */
  datatype Pick = Pick(order: Order, aic: Option<real>)

  /** The AIC of a fit of `ts`, or `None` when the fit raises (the `except: continue`). */
  function SearchAic(fit: (seq<real>, Order) -> Option<FittedModel>, ts: seq<real>): Order -> Option<real>
  {
    (o: Order) => if fit(ts, o).Some? then Some(fit(ts, o).value.aic) else None
  }

  /** The grid search over `orders` in turn: a strictly smaller AIC replaces the best. */
  function Search(orders: seq<Order>, aic: Order -> Option<real>): Pick
  {
    if orders == [] then Pick(Order(0, 0, 0), None)
    else
      var b := Search(orders[..|orders| - 1], aic);
      var o := orders[|orders| - 1];
      match aic(o)
      case None => b
      case Some(a) => if b.aic.None? || a < b.aic.value then Pick(o, Some(a)) else b
  }

  /** One step of the search: the next order's AIC against the best so far. */
  lemma SearchStep(visited: seq<Order>, o: Order, aic: Order -> Option<real>)
    ensures var b := Search(visited, aic);
      Search(visited + [o], aic) == if aic(o).Some? && (b.aic.None? || aic(o).value < b.aic.value) then Pick(o, aic(o)) else b
  {
    assert (visited + [o])[..|visited|] == visited;
  }

  /** `orders[i]` has the least AIC of the successful fits, and every earlier one a larger AIC. */
  predicate IsFirstBest(orders: seq<Order>, aic: Order -> Option<real>, i: int)
  {
    && 0 <= i < |orders| && aic(orders[i]).Some?
    && (forall j :: 0 <= j < |orders| && aic(orders[j]).Some? ==> aic(orders[i]).value <= aic(orders[j]).value)
    && (forall j :: 0 <= j < i && aic(orders[j]).Some? ==> aic(orders[i]).value < aic(orders[j]).value)
  }

  /** The search result is `orders[i]`, the first best order. */
  predicate PicksAt(orders: seq<Order>, aic: Order -> Option<real>, i: int)
  {
    IsFirstBest(orders, aic, i) && orders[i] == Search(orders, aic).order && aic(orders[i]) == Search(orders, aic).aic
  }

  /**
   * With no successful fit the search gives `(0, 0, 0)`; otherwise it gives
   * the first order with the least AIC.
   */
  lemma {:induction false} SearchSpec(orders: seq<Order>, aic: Order -> Option<real>)
    ensures Search(orders, aic).aic.None? <==> forall i :: 0 <= i < |orders| ==> aic(orders[i]).None?
    ensures Search(orders, aic).aic.None? ==> Search(orders, aic).order == Order(0, 0, 0)
    ensures Search(orders, aic).aic.Some? ==> exists i :: PicksAt(orders, aic, i)
  {
    if orders != [] {
      var init := orders[..|orders| - 1];
      var last := |orders| - 1;
      SearchSpec(init, aic);
      assert forall j :: 0 <= j < |init| ==> init[j] == orders[j];
      var b := Search(init, aic);
      var a := aic(orders[last]);
      if a.Some? && (b.aic.None? || a.value < b.aic.value) {
        if b.aic.Some? {
          var i :| PicksAt(init, aic, i);
        }
        assert PicksAt(orders, aic, last);
      } else if b.aic.Some? {
        var i :| PicksAt(init, aic, i);
        assert PicksAt(orders, aic, i);
      }
    }
  }

  /** `find_best_arima_params` gives an order of the grid, or the default `(0, 0, 0)`. */
  lemma SearchInGrid(n: nat, ds: nat, qs: nat, aic: Order -> Option<real>)
    ensures var o := Search(Grid(n, ds, qs), aic).order;
      o == Order(0, 0, 0) || (o.p < n && o.d < ds && o.q < qs)
  {
    var g := Grid(n, ds, qs);
    SearchSpec(g, aic);
    var o := Search(g, aic).order;
    if Search(g, aic).aic.Some? {
      GridMembers(n, ds, qs, o);
    }
  }

  /**
   * The order `fit_arima_model` fits to `values`: the searched order of the
   * differenced series with `d` raised by the differences applied, or
   * `(1, 1, 1)` without automatic parameters.
   */
  function SelectOrder(values: seq<real>, autoParams: bool, o: ArimaOracles): (ord: Order)
    ensures !autoParams ==> ord == Order(1, 1, 1)
    ensures autoParams ==> ord.p <= MaxP && ord.d <= MaxD + MaxDiff && ord.q <= MaxQ
    ensures autoParams ==> ord.d >= DiffCount(values, o.stationary, 0)
    ensures autoParams ==>
      var k := DiffCount(values, o.stationary, 0);
      var s := Search(Grid(MaxP + 1, MaxD + 1, MaxQ + 1), SearchAic(o.fit, DiffN(values, k))).order;
      ord == Order(s.p, s.d + k, s.q)
  {
    if !autoParams then Order(1, 1, 1)
    else
      var k := DiffCount(values, o.stationary, 0);
      var aic := SearchAic(o.fit, DiffN(values, k));
      var s := Search(Grid(MaxP + 1, MaxD + 1, MaxQ + 1), aic).order;
      SearchInGrid(MaxP + 1, MaxD + 1, MaxQ + 1, aic);
      Order(s.p, s.d + k, s.q)
  }

  /**
   * In automatic mode the fitted order is the first order of least AIC on
   * the differenced series, with `d` raised by the differences applied;
   * when no order of the grid fits, it is `(0, diff_count, 0)`.
   */
  lemma SelectOrderFirstBest(values: seq<real>, o: ArimaOracles)
    ensures var k := DiffCount(values, o.stationary, 0);
      var g := Grid(MaxP + 1, MaxD + 1, MaxQ + 1);
      var aic := SearchAic(o.fit, DiffN(values, k));
      var ord := SelectOrder(values, true, o);
      && (NoOrderFits(g, aic) ==> ord == Order(0, k, 0))
      && (!NoOrderFits(g, aic) ==> exists i :: IsFirstBest(g, aic, i) && ord == Order(g[i].p, g[i].d + k, g[i].q))
  {
    var k := DiffCount(values, o.stationary, 0);
    SearchShifted(Grid(MaxP + 1, MaxD + 1, MaxQ + 1), SearchAic(o.fit, DiffN(values, k)), k);
  }

  /** Every fit of the grid raises. */
  predicate NoOrderFits(g: seq<Order>, aic: Order -> Option<real>)
  {
    forall i :: 0 <= i < |g| ==> aic(g[i]).None?
  }

  /** The search result with `d` raised by `k`: `(0, k, 0)` when nothing fits, else the first best order. */
  lemma SearchShifted(g: seq<Order>, aic: Order -> Option<real>, k: nat)
    ensures var s := Search(g, aic).order;
      var ord := Order(s.p, s.d + k, s.q);
      && (NoOrderFits(g, aic) ==> ord == Order(0, k, 0))
      && (!NoOrderFits(g, aic) ==> exists i :: IsFirstBest(g, aic, i) && ord == Order(g[i].p, g[i].d + k, g[i].q))
  {
    SearchSpec(g, aic);
    if Search(g, aic).aic.Some? {
      var i :| PicksAt(g, aic, i);
    }
  }

  /** The error metrics of the test split, then the AIC and BIC of the fit. */
  datatype ArimaMetrics = ArimaMetrics(errors: ForecastMetrics, aic: real, bic: real)

  /** The result `fit_arima_model` returns: metrics, order, the split and the test forecast. */
  datatype ArimaFit = ArimaFit(metrics: ArimaMetrics, order: Order, train: seq<real>, test: seq<real>, predictions: seq<real>)

  /** The first `steps` forecast values of the fit of `values` with `order`. */
  function ForecastSteps(values: seq<real>, order: Order, steps: nat, o: ArimaOracles): (r: seq<real>)
    ensures |r| == steps
    ensures forall i :: 0 <= i < steps ==> r[i] == o.forecast(values, order, i)
  {
    seq(steps, i requires 0 <= i < steps => o.forecast(values, order, i))
  }

  /**
   * `fit_arima_model` on a prepared series: the order is chosen on the
   * training values, the model is fitted to them and forecasts the test
   * split; a fit that raises gives `None`.
   */
  function FitSeries(series: seq<Point>, autoParams: bool, o: ArimaOracles): (r: Option<ArimaFit>)
    ensures var train := Values(TrainTestSplit(series).train);
      r.Some? <==> o.fit(train, SelectOrder(train, autoParams, o)).Some?
    ensures r.Some? ==> r.value.train + r.value.test == Values(series)
    ensures r.Some? ==> r.value.train == Values(TrainTestSplit(series).train)
    ensures r.Some? ==> r.value.test == Values(TrainTestSplit(series).test)
    ensures r.Some? ==> |r.value.predictions| == |r.value.test|
    ensures r.Some? ==> forall i :: 0 <= i < |r.value.predictions| ==>
      r.value.predictions[i] == o.forecast(r.value.train, r.value.order, i)
    ensures r.Some? ==> o.fit(r.value.train, r.value.order) == Some(FittedModel(r.value.metrics.aic, r.value.metrics.bic))
    ensures r.Some? ==> r.value.order == SelectOrder(r.value.train, autoParams, o)
    ensures r.Some? ==> r.value.metrics.errors == o.errors(r.value.test, r.value.predictions)
  {
    var split := TrainTestSplit(series);
    var train := Values(split.train);
    var test := Values(split.test);
    assert train + test == Values(series);
    var order := SelectOrder(train, autoParams, o);
    match o.fit(train, order)
    case None => None
    case Some(m) =>
      var predictions := ForecastSteps(train, order, |test|, o);
      Some(ArimaFit(ArimaMetrics(o.errors(test, predictions), m.aic, m.bic), order, train, test, predictions))
  }

  /** The error a failed `prepare_time_series` raises out of the ARIMA calls. */
  function SeriesError(e: PredictError): (r: ArimaError)
    ensures r == ArimaError.EmptySeries <==> e == PredictError.EmptySeries
    ensures r == ArimaError.DuplicateDates <==> e != PredictError.EmptySeries
  {
    if e == PredictError.EmptySeries then ArimaError.EmptySeries else ArimaError.DuplicateDates
  }

  /** `fit_arima_model(region)`: the prepared series of the region, then its fit. */
  function FitRegion(data: seq<Observation>, region: string, autoParams: bool, o: ArimaOracles)
    : (r: Result<Option<ArimaFit>, ArimaError>)
    ensures r == Err(ArimaError.EmptySeries) <==> PrepareTimeSeries(data, region, o.interpolate) == Err(PredictError.EmptySeries)
    ensures r == Err(ArimaError.DuplicateDates) <==> PrepareTimeSeries(data, region, o.interpolate) == Err(PredictError.DuplicateDates)
    ensures r.Ok? <==> PrepareTimeSeries(data, region, o.interpolate).Ok?
  {
    match PrepareTimeSeries(data, region, o.interpolate)
    case Err(e) => Err(SeriesError(e))
    case Ok(ts) => Ok(FitSeries(ts, autoParams, o))
  }

  /** `f"ARIMA({p},{d},{q})"`. */
  function ParamsLabel(order: Order): (s: string)
    ensures IsPrefix("ARIMA(", s) && s[|s| - 1] == ')'
  {
    "ARIMA(" + DecimalString(order.p) + "," + DecimalString(order.d) + "," + DecimalString(order.q) + ")"
  }

  /** Between "ARIMA(" and ")" the label holds the three numbers and two commas. */
  lemma ParamsLabelMiddle(order: Order)
    ensures var l := ParamsLabel(order);
      l[6..|l| - 1] == DecimalString(order.p) + [','] + (DecimalString(order.d) + [','] + DecimalString(order.q))
  {
    var p, d, q := DecimalString(order.p), DecimalString(order.d), DecimalString(order.q);
    var mid := p + [','] + (d + [','] + q);
    assert ParamsLabel(order) == "ARIMA(" + mid + ")";
  }

  /** Distinct orders get distinct labels, so the `Params` column names the order. */
  lemma ParamsLabelInjective(a: Order, b: Order)
    requires ParamsLabel(a) == ParamsLabel(b)
    ensures a == b
  {
    var pa, da, qa := DecimalString(a.p), DecimalString(a.d), DecimalString(a.q);
    var pb, db, qb := DecimalString(b.p), DecimalString(b.d), DecimalString(b.q);
    ParamsLabelMiddle(a);
    ParamsLabelMiddle(b);
    assert pa + [','] + (da + [','] + qa) == pb + [','] + (db + [','] + qb);
    assert ',' !in pa && ',' !in pb && ',' !in da && ',' !in db;
    SplitAtSeparator(pa, da + [','] + qa, pb, db + [','] + qb, ',');
    SplitAtSeparator(da, qa, db, qb, ',');
    DecimalStringInjective(a.p, b.p);
    DecimalStringInjective(a.d, b.d);
    DecimalStringInjective(a.q, b.q);
  }

  /** A row of the frame `predict_future` returns. */
  datatype ArimaRow = ArimaRow(date: int, predictedNdvi: real, region: string, model: string, params: string)

  /**
   * `predict_future` on a prepared series: the order is chosen on the whole
   * series, a fit that raises is not caught, and the forecast takes the
   * future dates.
   */
  function SeriesFuture(ts: seq<Point>, region: string, periods: nat, o: ArimaOracles)
    : (r: Result<seq<ArimaRow>, ArimaError>)
    requires |ts| > 0
    ensures r.Err? <==> o.fit(Values(ts), SelectOrder(Values(ts), true, o)).None?
    ensures r.Ok? ==> |r.value| == periods
    ensures r.Ok? ==> var dates := FutureDates(ts[|ts| - 1].date, periods);
      forall i :: 0 <= i < periods ==> r.value[i].date == dates[i] && r.value[i].region == region && r.value[i].model == "ARIMA"
    ensures r.Ok? ==> var order := SelectOrder(Values(ts), true, o);
      forall i :: 0 <= i < periods ==>
        r.value[i].predictedNdvi == o.forecast(Values(ts), order, i) && r.value[i].params == ParamsLabel(order)
  {
    var values := Values(ts);
    var order := SelectOrder(values, true, o);
    if o.fit(values, order).None? then Err(FitFailed)
    else Ok(FutureRows(FutureDates(ts[|ts| - 1].date, periods), region, ParamsLabel(order),
                       ForecastSteps(values, order, periods, o)))
  }

  /** The frame of future rows: a date, its forecast and the labels. */
  function FutureRows(dates: seq<int>, region: string, params: string, values: seq<real>): (rows: seq<ArimaRow>)
    requires |values| == |dates|
    ensures |rows| == |dates|
    ensures forall i :: 0 <= i < |rows| ==> rows[i] == ArimaRow(dates[i], values[i], region, "ARIMA", params)
  {
    seq(|dates|, i requires 0 <= i < |dates| => ArimaRow(dates[i], values[i], region, "ARIMA", params))
  }

  /** `predict_future(region, periods)`. */
  function PredictFuture(data: seq<Observation>, region: string, periods: nat, o: ArimaOracles)
    : (r: Result<seq<ArimaRow>, ArimaError>)
    ensures PrepareTimeSeries(data, region, o.interpolate) == Err(PredictError.EmptySeries) ==> r == Err(ArimaError.EmptySeries)
    ensures PrepareTimeSeries(data, region, o.interpolate) == Err(PredictError.DuplicateDates) ==> r == Err(ArimaError.DuplicateDates)
    ensures r.Ok? ==> |r.value| == periods
  {
    match PrepareTimeSeries(data, region, o.interpolate)
    case Err(e) => Err(SeriesError(e))
    case Ok(ts) => SeriesFuture(ts, region, periods, o)
  }

  /** The lists `predict_all_regions` fills: how many frames, their rows, and the metrics per region. */
  datatype ArimaAcc = ArimaAcc(frames: nat, predictions: seq<ArimaRow>, metrics: map<string, ArimaMetrics>)

  /** The regions whose fit gives a result. */
  predicate Fits(fitFn: string -> Result<Option<ArimaFit>, ArimaError>, region: string)
  {
    fitFn(region).Ok? && fitFn(region).value.Some?
  }

  /** The fit of `region` raises, or it succeeds and its forecast raises. */
  predicate RegionFails(
    fitFn: string -> Result<Option<ArimaFit>, ArimaError>,
    futureFn: string -> Result<seq<ArimaRow>, ArimaError>,
    region: string)
  {
    fitFn(region).Err? || (Fits(fitFn, region) && futureFn(region).Err?)
  }

  /** The error a failing region raises. */
  function RegionFailure(
    fitFn: string -> Result<Option<ArimaFit>, ArimaError>,
    futureFn: string -> Result<seq<ArimaRow>, ArimaError>,
    region: string): ArimaError
    requires RegionFails(fitFn, futureFn, region)
  {
    if fitFn(region).Err? then fitFn(region).error else futureFn(region).error
  }

  /** The loop of `predict_all_regions`: a region whose fit gives `None` is skipped; an error ends it. */
  function CollectArima(
    fitFn: string -> Result<Option<ArimaFit>, ArimaError>,
    futureFn: string -> Result<seq<ArimaRow>, ArimaError>,
    regions: seq<string>): (r: Result<ArimaAcc, ArimaError>)
    ensures r.Err? <==> exists i :: 0 <= i < |regions| && RegionFails(fitFn, futureFn, regions[i])
    ensures r.Err? ==>
      exists i :: 0 <= i < |regions| && RegionFails(fitFn, futureFn, regions[i]) &&
        r.error == RegionFailure(fitFn, futureFn, regions[i]) &&
        forall j :: 0 <= j < i ==> !RegionFails(fitFn, futureFn, regions[j])
    ensures r.Ok? ==> r.value.frames <= |regions|
  {
    if regions == [] then Ok(ArimaAcc(0, [], map[]))
    else
      var region := regions[|regions| - 1];
      assert forall i :: 0 <= i < |regions| - 1 ==> regions[..|regions| - 1][i] == regions[i];
      match CollectArima(fitFn, futureFn, regions[..|regions| - 1])
      case Err(e) => Err(e)
      case Ok(acc) =>
        match fitFn(region)
        case Err(e) => Err(e)
        case Ok(None) => Ok(acc)
        case Ok(Some(f)) =>
          match futureFn(region)
          case Err(e) => Err(e)
          case Ok(rows) => Ok(ArimaAcc(acc.frames + 1, acc.predictions + rows, acc.metrics[region := f.metrics]))
  }

  /** The region function behind the loop: `fit_arima_model` with automatic parameters. */
  function FitFn(data: seq<Observation>, o: ArimaOracles): string -> Result<Option<ArimaFit>, ArimaError>
  {
    region => FitRegion(data, region, true, o)
  }

  function FutureFn(data: seq<Observation>, periods: nat, o: ArimaOracles): string -> Result<seq<ArimaRow>, ArimaError>
  {
    region => PredictFuture(data, region, periods, o)
  }

  /** `predict_all_regions`: `None` when no frame was produced. */
  function PredictAllArima(data: seq<Observation>, periods: nat, o: ArimaOracles)
    : (r: Result<Option<ArimaAcc>, ArimaError>)
    ensures r.Err? <==> exists i :: 0 <= i < |Regions(data)| && RegionFails(FitFn(data, o), FutureFn(data, periods, o), Regions(data)[i])
    ensures r.Ok? && r.value.Some? ==> 0 < r.value.value.frames <= |Regions(data)|
  {
    match CollectArima(FitFn(data, o), FutureFn(data, periods, o), Regions(data))
    case Err(e) => Err(e)
    case Ok(acc) => if acc.frames == 0 then Ok(None) else Ok(Some(acc))
  }

  /** A region of the data has rows, so its series is never the empty one. */
  lemma ListedRegionHasSeries(data: seq<Observation>, region: string, interpolate: (seq<Observation>, int) -> real)
    requires region in Regions(data)
    ensures PrepareTimeSeries(data, region, interpolate) != Err(PredictError.EmptySeries)
  {
    var j :| 0 <= j < |data| && data[j].region == region;
    assert data[j] in SortedRegionRows(data, region);
  }

  /** A region whose fit gives `None` adds nothing. */
  lemma CollectArimaSkips(
    fitFn: string -> Result<Option<ArimaFit>, ArimaError>,
    futureFn: string -> Result<seq<ArimaRow>, ArimaError>,
    regions: seq<string>, i: nat, acc: ArimaAcc)
    requires i < |regions|
    requires CollectArima(fitFn, futureFn, regions[..i]) == Ok(acc)
    ensures fitFn(regions[i]) == Ok(None) ==> CollectArima(fitFn, futureFn, regions[..i + 1]) == Ok(acc)
  {
    assert regions[..i + 1][..i] == regions[..i];
  }

  /** A region that fits adds one frame, its rows and its metrics. */
  lemma CollectArimaFits(
    fitFn: string -> Result<Option<ArimaFit>, ArimaError>,
    futureFn: string -> Result<seq<ArimaRow>, ArimaError>,
    regions: seq<string>, i: nat, acc: ArimaAcc)
    requires i < |regions|
    requires CollectArima(fitFn, futureFn, regions[..i]) == Ok(acc)
    requires Fits(fitFn, regions[i]) && futureFn(regions[i]).Ok?
    ensures CollectArima(fitFn, futureFn, regions[..i + 1]) == Ok(ArimaAcc(acc.frames + 1,
      acc.predictions + futureFn(regions[i]).value, acc.metrics[regions[i] := fitFn(regions[i]).value.value.metrics]))
  {
    assert regions[..i + 1][..i] == regions[..i];
  }

  /** A fitted region whose forecast fails ends the loop with that error. */
  lemma CollectArimaFails(
    fitFn: string -> Result<Option<ArimaFit>, ArimaError>,
    futureFn: string -> Result<seq<ArimaRow>, ArimaError>,
    regions: seq<string>, i: nat, acc: ArimaAcc)
    requires i < |regions|
    requires CollectArima(fitFn, futureFn, regions[..i]) == Ok(acc)
    requires Fits(fitFn, regions[i]) && futureFn(regions[i]).Err?
    ensures CollectArima(fitFn, futureFn, regions) == Err(futureFn(regions[i]).error)
  {
    assert regions[..i + 1][..i] == regions[..i];
    ArimaErrorStops(fitFn, futureFn, regions, i + 1, futureFn(regions[i]).error);
  }

  /** A fit that raises ends the loop with its error. */
  lemma CollectArimaFitFails(
    fitFn: string -> Result<Option<ArimaFit>, ArimaError>,
    futureFn: string -> Result<seq<ArimaRow>, ArimaError>,
    regions: seq<string>, i: nat, acc: ArimaAcc)
    requires i < |regions|
    requires CollectArima(fitFn, futureFn, regions[..i]) == Ok(acc)
    requires fitFn(regions[i]).Err?
    ensures CollectArima(fitFn, futureFn, regions) == Err(fitFn(regions[i]).error)
  {
    assert regions[..i + 1][..i] == regions[..i];
    ArimaErrorStops(fitFn, futureFn, regions, i + 1, fitFn(regions[i]).error);
  }

  /** An error ends the loop over the regions. */
  lemma {:induction false} ArimaErrorStops(
    fitFn: string -> Result<Option<ArimaFit>, ArimaError>,
    futureFn: string -> Result<seq<ArimaRow>, ArimaError>,
    regions: seq<string>, n: nat, e: ArimaError)
    requires n <= |regions|
    requires CollectArima(fitFn, futureFn, regions[..n]) == Err(e)
    ensures CollectArima(fitFn, futureFn, regions) == Err(e)
    decreases |regions| - n
  {
    if n < |regions| {
      assert regions[..n + 1][..n] == regions[..n];
      ArimaErrorStops(fitFn, futureFn, regions, n + 1, e);
    } else {
      assert regions[..n] == regions;
    }
  }

  /**
   * A successful loop keeps metrics for exactly the regions that fitted,
   * from their fits, and one frame per such region.
   */
  lemma {:induction false} CollectArimaMetrics(
    fitFn: string -> Result<Option<ArimaFit>, ArimaError>,
    futureFn: string -> Result<seq<ArimaRow>, ArimaError>,
    regions: seq<string>)
    requires CollectArima(fitFn, futureFn, regions).Ok?
    ensures forall region :: region in CollectArima(fitFn, futureFn, regions).value.metrics <==>
      region in regions && Fits(fitFn, region)
    ensures forall region :: region in CollectArima(fitFn, futureFn, regions).value.metrics && Fits(fitFn, region) ==>
      CollectArima(fitFn, futureFn, regions).value.metrics[region] == fitFn(region).value.value.metrics
    ensures CollectArima(fitFn, futureFn, regions).value.frames == 0 <==>
      forall i :: 0 <= i < |regions| ==> !Fits(fitFn, regions[i])
  {
    if regions != [] {
      var init := regions[..|regions| - 1];
      var last := regions[|regions| - 1];
      CollectArimaMetrics(fitFn, futureFn, init);
      assert regions == init + [last];
      assert forall i :: 0 <= i < |init| ==> init[i] == regions[i];
    }
  }

  /**
   * `predict_all_regions` on loaded data: `None` exactly when no region
   * fits; otherwise metrics for exactly the regions that fitted.
   */
  lemma PredictAllArimaSpec(data: seq<Observation>, periods: nat, o: ArimaOracles)
    requires PredictAllArima(data, periods, o).Ok?
    ensures PredictAllArima(data, periods, o).value.None? <==>
      forall i :: 0 <= i < |Regions(data)| ==> !Fits(FitFn(data, o), Regions(data)[i])
    ensures PredictAllArima(data, periods, o).value.Some? ==>
      forall region :: region in PredictAllArima(data, periods, o).value.value.metrics <==>
        region in Regions(data) && Fits(FitFn(data, o), region)
  {
    CollectArimaMetrics(FitFn(data, o), FutureFn(data, periods, o), Regions(data));
  }

  /** `make_stationary`: difference until the test passes, at most three times. */
  method MakeStationary(ts: seq<real>, stationary: seq<real> -> bool) returns (current: seq<real>, diffCount: nat)
    ensures diffCount == DiffCount(ts, stationary, 0) && current == DiffN(ts, diffCount)
  {
    diffCount := 0;
    current := ts;
    while diffCount < MaxDiff
      invariant diffCount <= MaxDiff
      invariant current == DiffN(ts, diffCount)
      invariant DiffCount(ts, stationary, 0) == DiffCount(ts, stationary, diffCount)
    {
      if stationary(current) {
        break;
      }
      current := Diff(current);
      diffCount := diffCount + 1;
    }
  }

  /** `find_best_arima_params`: the triple loop over the orders, keeping the first least AIC. */
  method FindBestArimaParams(ts: seq<real>, fit: (seq<real>, Order) -> Option<FittedModel>, maxP: nat, maxD: nat, maxQ: nat)
    returns (best: Order)
    ensures best == Search(Grid(maxP + 1, maxD + 1, maxQ + 1), SearchAic(fit, ts)).order
  {
    ghost var aic := SearchAic(fit, ts);
    var bestAic: Option<real> := None;
    best := Order(0, 0, 0);
    for p := 0 to maxP + 1
      invariant Search(Grid(p, maxD + 1, maxQ + 1), aic) == Pick(best, bestAic)
    {
      best, bestAic := SearchBlock(ts, fit, p, maxD, maxQ, best, bestAic, Grid(p, maxD + 1, maxQ + 1));
    }
  }

  /** The middle loop of `find_best_arima_params`: `d` from 0 to `maxD`. */
  method SearchBlock(ts: seq<real>, fit: (seq<real>, Order) -> Option<FittedModel>, p: nat, maxD: nat, maxQ: nat,
                     best0: Order, bestAic0: Option<real>, ghost visited: seq<Order>)
    returns (best: Order, bestAic: Option<real>)
    requires Search(visited, SearchAic(fit, ts)) == Pick(best0, bestAic0)
    ensures Search(visited + DBlock(p, maxD + 1, maxQ + 1), SearchAic(fit, ts)) == Pick(best, bestAic)
  {
    best, bestAic := best0, bestAic0;
    assert visited + DBlock(p, 0, maxQ + 1) == visited;
    for d := 0 to maxD + 1
      invariant Search(visited + DBlock(p, d, maxQ + 1), SearchAic(fit, ts)) == Pick(best, bestAic)
    {
      best, bestAic := SearchRow(ts, fit, p, d, maxQ, best, bestAic, visited + DBlock(p, d, maxQ + 1));
      assert visited + DBlock(p, d + 1, maxQ + 1) == visited + DBlock(p, d, maxQ + 1) + QRow(p, d, maxQ + 1);
    }
  }

  /** The innermost loop of `find_best_arima_params`: `q` from 0 to `maxQ`. */
  method SearchRow(ts: seq<real>, fit: (seq<real>, Order) -> Option<FittedModel>, p: nat, d: nat, maxQ: nat,
                   best0: Order, bestAic0: Option<real>, ghost visited: seq<Order>)
    returns (best: Order, bestAic: Option<real>)
    requires Search(visited, SearchAic(fit, ts)) == Pick(best0, bestAic0)
    ensures Search(visited + QRow(p, d, maxQ + 1), SearchAic(fit, ts)) == Pick(best, bestAic)
  {
    ghost var aic := SearchAic(fit, ts);
    best, bestAic := best0, bestAic0;
    assert visited + QRow(p, d, 0) == visited;
    for q := 0 to maxQ + 1
      invariant Search(visited + QRow(p, d, q), aic) == Pick(best, bestAic)
    {
      var order := Order(p, d, q);
      var fitted := fit(ts, order);
      var a := if fitted.Some? then Some(fitted.value.aic) else None;
      assert a == aic(order);
      SearchStep(visited + QRow(p, d, q), order, aic);
      if a.Some? && (bestAic.None? || a.value < bestAic.value) {
        bestAic := a;
        best := order;
      }
      assert visited + QRow(p, d, q + 1) == visited + QRow(p, d, q) + [order];
    }
  }

  /** The order `fit_arima_model` and `predict_future` fit: `make_stationary`, then the search if automatic. */
  method ChooseOrder(values: seq<real>, autoParams: bool, o: ArimaOracles) returns (order: Order)
    ensures order == SelectOrder(values, autoParams, o)
  {
    var stationaryData, diffCount := MakeStationary(values, o.stationary);
    order := Order(1, 1, 1);
    if autoParams {
      var s := FindBestArimaParams(stationaryData, o.fit, MaxP, MaxD, MaxQ);
      order := Order(s.p, s.d + diffCount, s.q);
    }
  }

  /** The body of `fit_arima_model` after the series is prepared. */
  method FitSeriesModel(series: seq<Point>, autoParams: bool, o: ArimaOracles) returns (r: Option<ArimaFit>)
    ensures r == FitSeries(series, autoParams, o)
  {
    var split := TrainTestSplit(series);
    var train := Values(split.train);
    var test := Values(split.test);
    var order := ChooseOrder(train, autoParams, o);
    var fitted := o.fit(train, order);
    if fitted.None? {
      return None;
    }
    var predictions := ForecastSteps(train, order, |test|, o);
    r := Some(ArimaFit(ArimaMetrics(o.errors(test, predictions), fitted.value.aic, fitted.value.bic),
      order, train, test, predictions));
  }

  /** The body of `predict_future` after the series is prepared. */
  method ForecastSeries(ts: seq<Point>, region: string, periods: nat, o: ArimaOracles) returns (r: Result<seq<ArimaRow>, ArimaError>)
    requires |ts| > 0
    ensures r == SeriesFuture(ts, region, periods, o)
  {
    var values := Values(ts);
    var order := ChooseOrder(values, true, o);
    if o.fit(values, order).None? {
      return Err(FitFailed);
    }
    var dates := FutureDates(ts[|ts| - 1].date, periods);
    r := Ok(FutureRows(dates, region, ParamsLabel(order), ForecastSteps(values, order, periods, o)));
  }

  /** `fit_arima_model(region, auto_params)` on the loaded rows. */
  method FitRegionModel(data: seq<Observation>, region: string, autoParams: bool, o: ArimaOracles)
    returns (r: Result<Option<ArimaFit>, ArimaError>)
    ensures r == FitRegion(data, region, autoParams, o)
  {
    var ts := PrepareTimeSeries(data, region, o.interpolate);
    if ts.Err? {
      return Err(SeriesError(ts.error));
    }
    var fit := FitSeriesModel(ts.value, autoParams, o);
    r := Ok(fit);
  }

  /** `predict_future(region, periods)` on the loaded rows. */
  method ForecastRegionFuture(data: seq<Observation>, region: string, periods: nat, o: ArimaOracles)
    returns (r: Result<seq<ArimaRow>, ArimaError>)
    ensures r == PredictFuture(data, region, periods, o)
  {
    var ts := PrepareTimeSeries(data, region, o.interpolate);
    if ts.Err? {
      return Err(SeriesError(ts.error));
    }
    r := ForecastSeries(ts.value, region, periods, o);
  }

  /** The loop of `predict_all_regions`: every region in order of appearance. */
  method CollectArimaLoop(data: seq<Observation>, periods: nat, o: ArimaOracles) returns (r: Result<ArimaAcc, ArimaError>)
    ensures r == CollectArima(FitFn(data, o), FutureFn(data, periods, o), Regions(data))
  {
    var regions := Regions(data);
    ghost var fitFn := FitFn(data, o);
    ghost var futureFn := FutureFn(data, periods, o);
    var acc := ArimaAcc(0, [], map[]);
    for i := 0 to |regions|
      invariant CollectArima(fitFn, futureFn, regions[..i]) == Ok(acc)
    {
      var region := regions[i];
      var result := FitRegionModel(data, region, true, o);
      assert result == fitFn(region);
      if result.Err? {
        CollectArimaFitFails(fitFn, futureFn, regions, i, acc);
        return Err(result.error);
      }
      CollectArimaSkips(fitFn, futureFn, regions, i, acc);
      if result.value.Some? {
        var future := ForecastRegionFuture(data, region, periods, o);
        assert future == futureFn(region);
        if future.Err? {
          CollectArimaFails(fitFn, futureFn, regions, i, acc);
          return Err(future.error);
        }
        CollectArimaFits(fitFn, futureFn, regions, i, acc);
        acc := ArimaAcc(acc.frames + 1, acc.predictions + future.value, acc.metrics[region := result.value.value.metrics]);
      }
    }
    assert regions[..|regions|] == regions;
    r := Ok(acc);
  }

  class ArimaPredictor {
    var dataFile: string
    var data: Option<seq<Observation>>

    constructor(dataFile: string)
      ensures this.dataFile == dataFile && data == None
    {
      this.dataFile := dataFile;
      data := None;
    }

    /** `load_data`: the rows read from the file, sorted by region and date; a failed read is re-raised. */
    method LoadData(read: Option<seq<Observation>>) returns (r: Result<seq<Observation>, ArimaError>)
      modifies this
      ensures read.None? ==> r == Err(ArimaError.ReadFailed) && data == old(data)
      ensures read.Some? ==> r == Ok(Sort(read.value, RegionDateLe)) && data == Some(r.value)
      ensures r.Ok? ==> Sorted(r.value, RegionDateLe) && multiset(r.value) == multiset(read.value)
      ensures dataFile == old(dataFile)
    {
      if read.None? {
        return Err(ArimaError.ReadFailed);
      }
      RegionDateLeTotalPreorder();
      SortSorted(read.value, RegionDateLe);
      data := Some(Sort(read.value, RegionDateLe));
      r := Ok(data.value);
    }

    /** `fit_arima_model(region, auto_params)`. */
    method FitArimaModel(region: string, autoParams: bool, o: ArimaOracles) returns (r: Result<Option<ArimaFit>, ArimaError>)
      requires data.Some?
      ensures r == FitRegion(data.value, region, autoParams, o)
    {
      r := FitRegionModel(data.value, region, autoParams, o);
    }

    /** `predict_future(region, periods)`. */
    method PredictFutureRegion(region: string, periods: nat, o: ArimaOracles) returns (r: Result<seq<ArimaRow>, ArimaError>)
      requires data.Some?
      ensures r == PredictFuture(data.value, region, periods, o)
    {
      r := ForecastRegionFuture(data.value, region, periods, o);
    }

    /** `predict_all_regions(periods)`: `None` when no region was fitted. */
    method PredictAllRegions(periods: nat, o: ArimaOracles) returns (r: Result<Option<ArimaAcc>, ArimaError>)
      ensures data.None? ==> r == Err(ArimaError.NotLoaded)
      ensures data.Some? ==> r == PredictAllArima(data.value, periods, o)
    {
      if data.None? {
        return Err(ArimaError.NotLoaded);
      }
      var collected := CollectArimaLoop(data.value, periods, o);
      if collected.Err? {
        return Err(collected.error);
      }
      if collected.value.frames == 0 {
        return Ok(None);
      }
      r := Ok(Some(collected.value));
    }
  }
}
