/**
 * The prediction analyzer: the month and season columns added to the
 * seasonal predictions, the inner merge of the linear and seasonal
 * predictions on date and region with their difference, which method
 * predicts higher values per region, the 2025 scenario with its three-way
 * trend reading, and the number of periods per region. Means are library
 * calls, passed in as a function.
 */
module PredictionAnalysis {
  import opened Wrappers
  import opened Seqs
  import opened Calendar
  import opened ProcessedData
  import opened NdviPrediction

  /** A row of the seasonal predictions; `month` and `season` are the columns `analyze_seasonal_patterns` adds. */
  datatype AnalyzedRow = AnalyzedRow(date: int, predictedNdvi: real, region: string, month: Option<int>, season: Option<Season>)

  /** A row as read from the CSV file, without the added columns. */
  function Plain(r: PredictionRow): AnalyzedRow
  {
    AnalyzedRow(r.date, r.predictedNdvi, r.region, None, None)
  }

  /** `df['Month'] = df['Date'].dt.month` and `df['Season'] = df['Month'].map(...)` for one row. */
  function Annotate(r: AnalyzedRow): (a: AnalyzedRow)
    ensures a.date == r.date && a.predictedNdvi == r.predictedNdvi && a.region == r.region
    ensures a.month == Some(MonthOf(r.date)) && a.season == SeasonOf(MonthOf(r.date))
  {
    var m := MonthOf(r.date);
    r.(month := Some(m), season := SeasonOf(m))
  }

  function AnnotateAll(rows: seq<AnalyzedRow>): (rs: seq<AnalyzedRow>)
    ensures |rs| == |rows|
    ensures forall i :: 0 <= i < |rows| ==> rs[i] == Annotate(rows[i])
  {
    seq(|rows|, i requires 0 <= i < |rows| => Annotate(rows[i]))
  }

  /** After the columns are added, every row has a season, and its month is one of that season's three. */
  lemma AnnotatedSeasons(rows: seq<AnalyzedRow>)
    ensures forall i :: 0 <= i < |rows| ==>
      AnnotateAll(rows)[i].season.Some? && AnnotateAll(rows)[i].month.value in MonthsOf(AnnotateAll(rows)[i].season.value)
  {
    SeasonsPartitionYear();
  }

  /** A row of the inner merge: the shared keys, both predictions and `Difference`. */
  datatype Comparison = Comparison(date: int, region: string, linear: real, seasonal: real, difference: real)

  /** `Predicted_NDVI_seasonal - Predicted_NDVI_linear` for a matching pair. */
  function Pair(l: PredictionRow, s: AnalyzedRow): Comparison
  {
    Comparison(l.date, l.region, l.predictedNdvi, s.predictedNdvi, s.predictedNdvi - l.predictedNdvi)
  }

  /** The seasonal row `s` has the same `Date` and `Region` as the linear row `l`. */
  predicate SameKey(l: PredictionRow, s: AnalyzedRow)
  {
    l.date == s.date && l.region == s.region
  }

  /** The merge rows of one linear row: one per matching seasonal row, in seasonal order. */
  function Matches(l: PredictionRow, seasonal: seq<AnalyzedRow>): (cs: seq<Comparison>)
    ensures forall c :: c in cs <==> exists j :: 0 <= j < |seasonal| && SameKey(l, seasonal[j]) && c == Pair(l, seasonal[j])
    ensures |cs| <= |seasonal|
  {
    if seasonal == [] then []
    else
      var init := seasonal[..|seasonal| - 1];
      var s := seasonal[|seasonal| - 1];
      assert forall j :: 0 <= j < |init| ==> init[j] == seasonal[j];
      Matches(l, init) + (if SameKey(l, s) then [Pair(l, s)] else [])
  }

  /** `pd.merge(linear, seasonal, on=['Date', 'Region'])`: inner join, in the order of the linear rows. */
  function Merge(linear: seq<PredictionRow>, seasonal: seq<AnalyzedRow>): (cs: seq<Comparison>)
    ensures |cs| <= |linear| * |seasonal|
  {
    if linear == [] then []
    else
      var n := |linear| - 1;
      assert (n + 1) * |seasonal| == n * |seasonal| + |seasonal|;
      Merge(linear[..n], seasonal) + Matches(linear[n], seasonal)
  }

  /** A merge row comes from a linear and a seasonal row with the same date and region. */
  predicate MergedFrom(linear: seq<PredictionRow>, seasonal: seq<AnalyzedRow>, c: Comparison)
  {
    exists i, j :: 0 <= i < |linear| && 0 <= j < |seasonal| && SameKey(linear[i], seasonal[j]) && c == Pair(linear[i], seasonal[j])
  }

  /**
   * The merge holds exactly the pairs of rows that share date and region,
   * each with `Difference` = seasonal minus linear.
   */
  lemma {:induction false} MergeSpec(linear: seq<PredictionRow>, seasonal: seq<AnalyzedRow>)
    ensures forall c :: c in Merge(linear, seasonal) <==> MergedFrom(linear, seasonal, c)
    ensures forall c :: c in Merge(linear, seasonal) ==> c.difference == c.seasonal - c.linear
  {
    if linear != [] {
      var init := linear[..|linear| - 1];
      var last := linear[|linear| - 1];
      MergeSpec(init, seasonal);
      assert forall i :: 0 <= i < |init| ==> init[i] == linear[i];
      forall c | MergedFrom(linear, seasonal, c)
        ensures c in Merge(linear, seasonal)
      {
        var i, j :| 0 <= i < |linear| && 0 <= j < |seasonal| && SameKey(linear[i], seasonal[j]) && c == Pair(linear[i], seasonal[j]);
        if i < |init| {
          assert MergedFrom(init, seasonal, c);
        } else {
          assert c in Matches(last, seasonal);
        }
      }
      forall c | c in Merge(linear, seasonal)
        ensures MergedFrom(linear, seasonal, c)
      {
        if c in Merge(init, seasonal) {
          var i, j :| 0 <= i < |init| && 0 <= j < |seasonal| && SameKey(init[i], seasonal[j]) && c == Pair(init[i], seasonal[j]);
          assert init[i] == linear[i];
        } else {
          var j :| 0 <= j < |seasonal| && SameKey(last, seasonal[j]) && c == Pair(last, seasonal[j]);
          assert linear[|linear| - 1] == last;
        }
      }
    }
  }

  /** The method `compare_prediction_methods` reports as predicting higher values. */
  datatype HigherMethod = SeasonalHigher | LinearHigher

  /** `avg_diff > 0`: seasonal; otherwise, zero included, linear. */
  function Higher(avgDiff: real): (h: HigherMethod)
    ensures h == SeasonalHigher <==> avgDiff > 0.0
    ensures h == LinearHigher <==> avgDiff <= 0.0
  {
    if avgDiff > 0.0 then SeasonalHigher else LinearHigher
  }

  datatype MethodVerdict = MethodVerdict(region: string, avgDiff: real, higher: HigherMethod)

  function ComparisonRegions(cs: seq<Comparison>): (names: seq<string>)
    ensures |names| == |cs|
    ensures forall k :: 0 <= k < |cs| ==> names[k] == cs[k].region
  {
    seq(|cs|, k requires 0 <= k < |cs| => cs[k].region)
  }

  /** The `Difference` column of a region's merge rows, in order. */
  function RegionDifferences(cs: seq<Comparison>, region: string): (ds: seq<real>)
    ensures |ds| <= |cs|
  {
    if cs == [] then []
    else
      var last := cs[|cs| - 1];
      RegionDifferences(cs[..|cs| - 1], region) + (if last.region == region then [last.difference] else [])
  }

  /** `compare_prediction_methods`: one verdict per region of the merge, in order of appearance. */
  function OfComparisonRegion(region: string): Comparison -> bool
  {
    (c: Comparison) => c.region == region
  }

  /** `comparison[comparison['Region'] == region]['Difference']`: the differences of exactly that region's rows, in order. */
  lemma {:induction false} RegionDifferencesFilter(cs: seq<Comparison>, region: string)
    ensures var rows := Filter(cs, OfComparisonRegion(region));
      |RegionDifferences(cs, region)| == |rows| &&
      forall i :: 0 <= i < |rows| ==> RegionDifferences(cs, region)[i] == rows[i].difference
  {
    if cs != [] {
      var init, last := cs[..|cs| - 1], cs[|cs| - 1];
      assert cs == init + [last];
      FilterAppend(init, [last], OfComparisonRegion(region));
      assert [last][1..] == [];
      RegionDifferencesFilter(init, region);
    }
  }

  function MethodVerdicts(cs: seq<Comparison>, mean: seq<real> -> real): (vs: seq<MethodVerdict>)
    ensures |vs| == |Distinct(ComparisonRegions(cs))|
    ensures forall k :: 0 <= k < |vs| ==> vs[k].region == Distinct(ComparisonRegions(cs))[k]
    ensures forall k :: 0 <= k < |vs| ==> vs[k].avgDiff == mean(RegionDifferences(cs, vs[k].region))
    ensures forall k :: 0 <= k < |vs| ==> (vs[k].higher == SeasonalHigher <==> vs[k].avgDiff > 0.0)
  {
    var regions := Distinct(ComparisonRegions(cs));
    seq(|regions|, k requires 0 <= k < |regions| =>
      var avg := mean(RegionDifferences(cs, regions[k]));
      MethodVerdict(regions[k], avg, Higher(avg)))
  }

  /** The trend reading of `analyze_future_scenarios`. */
  datatype Trend = Increase | Decrease | Stable

  /** More than 5 % up is an increase, more than 5 % down a decrease, the closed band between stable. */
  function TrendOf(changePct: real): (t: Trend)
    ensures t == Increase <==> changePct > 5.0
    ensures t == Decrease <==> changePct < -5.0
    ensures t == Stable <==> -5.0 <= changePct <= 5.0
  {
    if changePct > 5.0 then Increase else if changePct < -5.0 then Decrease else Stable
  }

  /**
   * `(annual_avg - historical_avg) / historical_avg * 100` read as a trend.
   * With a zero historical mean the float quotient is an infinity of the
   * numerator's sign, or NaN when both are zero, which no comparison
   * accepts.
   */
  function ChangeTrend(annualAvg: real, historicalAvg: real): (t: Trend)
    ensures historicalAvg != 0.0 ==> t == TrendOf((annualAvg - historicalAvg) / historicalAvg * 100.0)
    ensures historicalAvg == 0.0 ==> (t == Increase <==> annualAvg > 0.0) && (t == Decrease <==> annualAvg < 0.0)
  {
    if historicalAvg != 0.0 then TrendOf((annualAvg - historicalAvg) / historicalAvg * 100.0)
    else if annualAvg > 0.0 then Increase
    else if annualAvg < 0.0 then Decrease
    else Stable
  }

  /**
   * The trend of a scenario. A region without historical rows has a `NaN`
   * historical mean, so the change is `NaN`, neither comparison holds and
   * the source reports stability.
   */
  function ScenarioTrend(annualAvg: real, history: seq<real>, historicalAvg: real): Trend
  {
    if history == [] then Stable else ChangeTrend(annualAvg, historicalAvg)
  }

  /** The year `analyze_future_scenarios` looks at. */
  const ScenarioYear := 2025

  function InYear(year: int): AnalyzedRow -> bool
  {
    (r: AnalyzedRow) => YearOf(r.date) == year
  }

  /** `seasonal[seasonal['Date'].dt.year == 2025]`: exactly the rows dated in 2025, in order. */
  function Rows2025(seasonal: seq<AnalyzedRow>): (rs: seq<AnalyzedRow>)
    ensures forall r :: r in rs <==> r in seasonal && YearOf(r.date) == ScenarioYear
  {
    Filter(seasonal, InYear(ScenarioYear))
  }

  /** Filtering by the year keeps the row order: the 2025 rows of two parts are the parts' 2025 rows. */
  lemma Rows2025Append(a: seq<AnalyzedRow>, b: seq<AnalyzedRow>)
    ensures Rows2025(a + b) == Rows2025(a) + Rows2025(b)
  {
    FilterAppend(a, b, InYear(ScenarioYear));
  }

  function AnalyzedRegions(rows: seq<AnalyzedRow>): (names: seq<string>)
    ensures |names| == |rows|
    ensures forall k :: 0 <= k < |rows| ==> names[k] == rows[k].region
  {
    seq(|rows|, k requires 0 <= k < |rows| => rows[k].region)
  }

  /** The predicted values of a region's rows, in order. */
  function RegionValues(rows: seq<AnalyzedRow>, region: string): seq<real>
  {
    if rows == [] then []
    else
      var last := rows[|rows| - 1];
      RegionValues(rows[..|rows| - 1], region) + (if last.region == region then [last.predictedNdvi] else [])
  }

  /** The historical NDVI of a region, in order. */
  function HistoricalValues(hist: seq<Observation>, region: string): seq<real>
  {
    if hist == [] then []
    else
      var last := hist[|hist| - 1];
      HistoricalValues(hist[..|hist| - 1], region) + (if last.region == region then [last.ndvi] else [])
  }

  function OfAnalyzedRegion(region: string): AnalyzedRow -> bool
  {
    (r: AnalyzedRow) => r.region == region
  }

  /** `rows[rows['Region'] == region]['Predicted_NDVI']`: the predictions of exactly that region's rows, in order. */
  lemma {:induction false} RegionValuesFilter(rows: seq<AnalyzedRow>, region: string)
    ensures var f := Filter(rows, OfAnalyzedRegion(region));
      |RegionValues(rows, region)| == |f| &&
      forall i :: 0 <= i < |f| ==> RegionValues(rows, region)[i] == f[i].predictedNdvi
  {
    if rows != [] {
      var init, last := rows[..|rows| - 1], rows[|rows| - 1];
      assert rows == init + [last];
      FilterAppend(init, [last], OfAnalyzedRegion(region));
      assert [last][1..] == [];
      RegionValuesFilter(init, region);
    }
  }

  /** `historical[historical['Region'] == region]['NDVI']`: the NDVI of exactly that region's observations, in order. */
  lemma {:induction false} HistoricalValuesFilter(hist: seq<Observation>, region: string)
    ensures var f := Filter(hist, RegionTest(region));
      |HistoricalValues(hist, region)| == |f| &&
      forall i :: 0 <= i < |f| ==> HistoricalValues(hist, region)[i] == f[i].ndvi
  {
    if hist != [] {
      var init, last := hist[..|hist| - 1], hist[|hist| - 1];
      assert hist == init + [last];
      FilterAppend(init, [last], RegionTest(region));
      assert [last][1..] == [];
      HistoricalValuesFilter(init, region);
    }
  }

  datatype Scenario = Scenario(region: string, annualAvg: real, historicalAvg: real, trend: Trend)

  /** `analyze_future_scenarios`: one reading per region with 2025 rows, in order of appearance. */
  function Scenarios(seasonal: seq<AnalyzedRow>, hist: seq<Observation>, mean: seq<real> -> real): (ss: seq<Scenario>)
    ensures |ss| == |Distinct(AnalyzedRegions(Rows2025(seasonal)))|
    ensures forall k :: 0 <= k < |ss| ==> ss[k].region == Distinct(AnalyzedRegions(Rows2025(seasonal)))[k]
    ensures forall k :: 0 <= k < |ss| ==> ss[k].annualAvg == mean(RegionValues(Rows2025(seasonal), ss[k].region))
    ensures forall k :: 0 <= k < |ss| ==> ss[k].historicalAvg == mean(HistoricalValues(hist, ss[k].region))
    ensures forall k :: 0 <= k < |ss| && HistoricalValues(hist, ss[k].region) == [] ==> ss[k].trend == Stable
    ensures forall k :: 0 <= k < |ss| && HistoricalValues(hist, ss[k].region) != [] ==>
      ss[k].trend == ChangeTrend(ss[k].annualAvg, ss[k].historicalAvg)
  {
    var rows := Rows2025(seasonal);
    var regions := Distinct(AnalyzedRegions(rows));
    seq(|regions|, k requires 0 <= k < |regions| =>
      var annual := mean(RegionValues(rows, regions[k]));
      var historical := mean(HistoricalValues(hist, regions[k]));
      Scenario(regions[k], annual, historical, ScenarioTrend(annual, HistoricalValues(hist, regions[k]), historical)))
  }

  /** A scenario region has predictions dated in 2025. */
  lemma ScenarioRegionsHave2025Rows(seasonal: seq<AnalyzedRow>, hist: seq<Observation>, mean: seq<real> -> real, k: nat)
    requires k < |Scenarios(seasonal, hist, mean)|
    ensures exists r :: r in seasonal && YearOf(r.date) == ScenarioYear && r.region == Scenarios(seasonal, hist, mean)[k].region
  {
    var rows := Rows2025(seasonal);
    var names := AnalyzedRegions(rows);
    var region := Scenarios(seasonal, hist, mean)[k].region;
    assert region in names;
    var i :| 0 <= i < |names| && names[i] == region;
    assert rows[i] in seasonal;
  }

  datatype AnalyzerError = NotLoaded | NoRegions

  lemma MulMono(x: nat, y: nat, n: nat)
    ensures x <= y ==> x * n <= y * n
  {
    if x <= y {
      var k := y - x;
      assert y * n == x * n + k * n;
    }
  }

  /** The quotient of Python's `//` on naturals, bounded from both sides. */
  lemma DivBounds(a: nat, n: nat)
    requires n > 0
    ensures (a / n) * n <= a < (a / n) * n + n
  {
  }

  /** A natural between `q * n` and `q * n + n` has quotient `q`. */
  lemma DivUnique(a: nat, n: nat, q: nat)
    requires n > 0
    requires q * n <= a < q * n + n
    ensures a / n == q
  {
    DivBounds(a, n);
    var d := a / n;
    assert (d + 1) * n == d * n + n;
    assert (q + 1) * n == q * n + n;
    MulMono(d + 1, q, n);
    MulMono(q + 1, d, n);
  }

  /** `len(linear) // len(linear['Region'].unique())`; no region is a `ZeroDivisionError`. */
  function PeriodsPredicted(linear: seq<PredictionRow>): (r: Result<nat, AnalyzerError>)
    ensures r.Err? <==> linear == []
    ensures r.Ok? ==> |Distinct(RowRegions(linear))| > 0
    ensures r.Ok? ==> r.value * |Distinct(RowRegions(linear))| <= |linear|
    ensures r.Ok? ==> |linear| < r.value * |Distinct(RowRegions(linear))| + |Distinct(RowRegions(linear))|
  {
    var regions := Distinct(RowRegions(linear));
    if linear == [] then Err(NoRegions)
    else
      assert RowRegions(linear)[0] in regions;
      DivBounds(|linear|, |regions|);
      Ok(|linear| / |regions|)
  }

  /** A frame with the same number of rows for each of its regions gives that number. */
  lemma PeriodsOfUniformFrame(linear: seq<PredictionRow>, periods: nat)
    requires linear != []
    requires |linear| == periods * |Distinct(RowRegions(linear))|
    ensures PeriodsPredicted(linear) == Ok(periods)
  {
    var n := |Distinct(RowRegions(linear))|;
    assert RowRegions(linear)[0] in Distinct(RowRegions(linear));
    DivUnique(|linear|, n, periods);
  }

  /** Rows whose regions are exactly the names of `regions` have as many distinct regions as `regions` has. */
  lemma DistinctRowRegions(rows: seq<PredictionRow>, regions: seq<string>)
    requires Unique(regions)
    requires forall k :: 0 <= k < |rows| ==> rows[k].region in regions
    requires forall region :: region in regions ==> region in RowRegions(rows)
    ensures |Distinct(RowRegions(rows))| == |regions|
  {
    var names := Distinct(RowRegions(rows));
    forall x
      ensures x in names <==> x in regions
    {
      if x in names {
        var k :| 0 <= k < |RowRegions(rows)| && RowRegions(rows)[k] == x;
        assert rows[k].region == x;
      }
    }
    UniqueSameLength(names, regions);
  }

  /**
   * On the linear predictions of `predict_all_regions` with at least one
   * period, the summary reports the requested number of periods.
   */
  lemma PeriodsOfPredictAll(data: seq<Observation>, periods: nat, o: Oracles)
    requires periods > 0
    requires PredictAll(data, "linear", periods, o).Ok?
    ensures PeriodsPredicted(PredictAll(data, "linear", periods, o).value.predictions) == Ok(periods)
  {
    var preds := PredictAll(data, "linear", periods, o).value.predictions;
    PredictAllShape(data, "linear", periods, o);
    DistinctRowRegions(preds, Regions(data));
    assert Regions(data) != [];
    assert |preds| == periods * |Regions(data)|;
    PeriodsOfUniformFrame(preds, periods);
  }

  /** The loop of `compare_prediction_methods` over the regions of the merge. */
  method VerdictsLoop(comparison: seq<Comparison>, mean: seq<real> -> real) returns (verdicts: seq<MethodVerdict>)
    ensures verdicts == MethodVerdicts(comparison, mean)
  {
    var regions := Distinct(ComparisonRegions(comparison));
    verdicts := [];
    for k := 0 to |regions|
      invariant verdicts == MethodVerdicts(comparison, mean)[..k]
    {
      var avgDiff := mean(RegionDifferences(comparison, regions[k]));
      verdicts := verdicts + [MethodVerdict(regions[k], avgDiff, Higher(avgDiff))];
    }
  }

  /** The `k`-th scenario is the reading of the `k`-th region with 2025 rows. */
  lemma ScenarioAt(seasonal: seq<AnalyzedRow>, hist: seq<Observation>, mean: seq<real> -> real, k: nat)
    requires k < |Distinct(AnalyzedRegions(Rows2025(seasonal)))|
    ensures var region := Distinct(AnalyzedRegions(Rows2025(seasonal)))[k];
      var annual := mean(RegionValues(Rows2025(seasonal), region));
      var historical := mean(HistoricalValues(hist, region));
      var trend := if HistoricalValues(hist, region) == [] then Stable else ChangeTrend(annual, historical);
      Scenarios(seasonal, hist, mean)[k] == Scenario(region, annual, historical, trend)
  {
  }

  /** The loop of `analyze_future_scenarios` over the regions with 2025 rows. */
  method ScenariosLoop(seasonal: seq<AnalyzedRow>, hist: seq<Observation>, mean: seq<real> -> real) returns (scenarios: seq<Scenario>)
    ensures scenarios == Scenarios(seasonal, hist, mean)
  {
    var rows := Rows2025(seasonal);
    var regions := Distinct(AnalyzedRegions(rows));
    ghost var ss := Scenarios(seasonal, hist, mean);
    scenarios := [];
    for k := 0 to |regions|
      invariant |ss| == |regions|
      invariant scenarios == ss[..k]
    {
      var annual := mean(RegionValues(rows, regions[k]));
      var history := HistoricalValues(hist, regions[k]);
      var historical := mean(history);
      ScenarioAt(seasonal, hist, mean, k);
      TakeNext(ss, k);
      var trend := if history == [] then Stable else ChangeTrend(annual, historical);
      scenarios := scenarios + [Scenario(regions[k], annual, historical, trend)];
    }
    assert ss[..|regions|] == ss;
  }

  class PredictionAnalyzer {
    var linearPredictions: Option<seq<PredictionRow>>
    var seasonalPredictions: Option<seq<AnalyzedRow>>
    var historicalData: Option<seq<Observation>>

    constructor()
      ensures linearPredictions == None && seasonalPredictions == None && historicalData == None
    {
      linearPredictions := None;
      seasonalPredictions := None;
      historicalData := None;
    }

    /**
     * `load_predictions`: the three files in turn; the first that fails to
     * read stops the loading and gives `False`, keeping what was assigned
     * before it.
     */
    method LoadPredictions(linear: Option<seq<PredictionRow>>, seasonal: Option<seq<PredictionRow>>, hist: Option<seq<Observation>>)
      returns (ok: bool)
      modifies this
      ensures ok <==> linear.Some? && seasonal.Some? && hist.Some?
      ensures linearPredictions == if linear.Some? then linear else old(linearPredictions)
      ensures seasonalPredictions == if linear.Some? && seasonal.Some?
        then Some(seq(|seasonal.value|, i requires 0 <= i < |seasonal.value| => Plain(seasonal.value[i])))
        else old(seasonalPredictions)
      ensures historicalData == if linear.Some? && seasonal.Some? && hist.Some? then hist else old(historicalData)
    {
      if linear.None? {
        return false;
      }
      linearPredictions := linear;
      if seasonal.None? {
        return false;
      }
      seasonalPredictions := Some(seq(|seasonal.value|, i requires 0 <= i < |seasonal.value| => Plain(seasonal.value[i])));
      if hist.None? {
        return false;
      }
      historicalData := hist;
      ok := true;
    }

    /** `analyze_seasonal_patterns`: adds the month and season columns to the seasonal predictions. */
    method AnalyzeSeasonalPatterns() returns (r: Result<(), AnalyzerError>)
      modifies this
      ensures old(seasonalPredictions).None? ==> r == Err(AnalyzerError.NotLoaded) && seasonalPredictions == old(seasonalPredictions)
      ensures old(seasonalPredictions).Some? ==> r.Ok? && seasonalPredictions == Some(AnnotateAll(old(seasonalPredictions).value))
      ensures linearPredictions == old(linearPredictions) && historicalData == old(historicalData)
    {
      if seasonalPredictions.None? {
        return Err(AnalyzerError.NotLoaded);
      }
      seasonalPredictions := Some(AnnotateAll(seasonalPredictions.value));
      r := Ok(());
    }

    /** `compare_prediction_methods`: the merge, then the loop over its regions. */
    method CompareMethods(mean: seq<real> -> real) returns (r: Result<seq<MethodVerdict>, AnalyzerError>)
      ensures linearPredictions.None? || seasonalPredictions.None? ==> r == Err(AnalyzerError.NotLoaded)
      ensures linearPredictions.Some? && seasonalPredictions.Some? ==>
        r == Ok(MethodVerdicts(Merge(linearPredictions.value, seasonalPredictions.value), mean))
    {
      if linearPredictions.None? || seasonalPredictions.None? {
        return Err(AnalyzerError.NotLoaded);
      }
      var verdicts := VerdictsLoop(Merge(linearPredictions.value, seasonalPredictions.value), mean);
      r := Ok(verdicts);
    }

    /** `analyze_future_scenarios`: the 2025 rows, then the loop over their regions. */
    method AnalyzeFutureScenarios(mean: seq<real> -> real) returns (r: Result<seq<Scenario>, AnalyzerError>)
      ensures seasonalPredictions.None? || historicalData.None? ==> r == Err(AnalyzerError.NotLoaded)
      ensures seasonalPredictions.Some? && historicalData.Some? ==>
        r == Ok(Scenarios(seasonalPredictions.value, historicalData.value, mean))
    {
      if seasonalPredictions.None? || historicalData.None? {
        return Err(AnalyzerError.NotLoaded);
      }
      var scenarios := ScenariosLoop(seasonalPredictions.value, historicalData.value, mean);
      r := Ok(scenarios);
    }

    /** The periods line of `generate_summary_report`. */
    method GenerateSummaryReport() returns (r: Result<nat, AnalyzerError>)
      ensures linearPredictions.None? ==> r == Err(AnalyzerError.NotLoaded)
      ensures linearPredictions.Some? ==> r == PeriodsPredicted(linearPredictions.value)
    {
      if linearPredictions.None? {
        return Err(AnalyzerError.NotLoaded);
      }
      r := PeriodsPredicted(linearPredictions.value);
    }
  }
}
