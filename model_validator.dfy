/**
 * The model validator: the historical validation set of a region, the
 * alignment of a model's predictions with the observed NDVI (nearest date,
 * within eight days), the validation of every model in every region, the
 * per-region best model, the ranking of the models by composite score and
 * the flattening of the results for export.
 */
module ModelValidation {
  import opened Wrappers
  import opened Seqs
  import opened Sorting
  import opened ProcessedData

  /** A row of a model's prediction file. */
  datatype Prediction = Prediction(region: string, date: int, predictedNdvi: real)

  /** The error statistics numpy computes from the aligned lists; opaque here. */
  datatype Stats = Stats(
    mae: real, mse: real, rmse: real, mape: real, r2: real,
    trendDirectionCorrect: bool, actualTrend: real, predictedTrend: real)

  /** The metrics of one validation: the statistics and `Samples_Used`. */
  datatype Metrics = Metrics(stats: Stats, samplesUsed: nat)

  /** One entry of a region's results, in insertion order. */
  datatype ModelEntry = ModelEntry(model: string, metrics: Metrics)

  /** One region of `validation_results`, in insertion order. */
  datatype RegionEntry = RegionEntry(region: string, models: seq<ModelEntry>)

  /**
   * `EmptyArgmin`: `np.argmin` of an empty array raises `ValueError`.
   * `MissingModel`: a model without predictions raises `KeyError`.
   * `NoHistoricalData`: the historical data was never loaded.
   */
  datatype ValidationError = EmptyArgmin | MissingModel | NoHistoricalData

  datatype SplitSets = SplitSets(training: seq<Observation>, validation: seq<Observation>)

  /** The aligned lists: predictions and the observed values they are compared with. */
  datatype Aligned = Aligned(predicted: seq<real>, actual: seq<real>)

  /** A prediction is accepted when it is at most this many days from the observation. */
  const ToleranceDays := 8

  function Min(a: int, b: int): int
  {
    if a <= b then a else b
  }

  function Max(a: int, b: int): int
  {
    if a >= b then a else b
  }

  /**
   * `create_historical_validation_set`: `tail(k)` is the validation set and
   * `[:-k]` the training set. With `k = 0` both are empty, since `tail(0)`
   * and `[:-0]` select nothing.
   */
  function CreateHistoricalValidationSet(hist: seq<Observation>, region: string, k: nat): (s: SplitSets)
    ensures k == 0 ==> s.training == [] && s.validation == []
    ensures k > 0 ==> s.training + s.validation == SortedRegionRows(hist, region)
    ensures k > 0 ==> |s.validation| == Min(k, |SortedRegionRows(hist, region)|)
    ensures k > 0 ==> |s.training| == Max(|SortedRegionRows(hist, region)| - k, 0)
  {
    var rows := SortedRegionRows(hist, region);
    var n := |rows|;
    if k == 0 then SplitSets([], [])
    else
      var m := Min(k, n);
      assert rows[..n - m] + rows[n - m..] == rows;
      SplitSets(rows[..n - m], rows[n - m..])
  }

  /**
   * Both sets hold rows of the region only, the validation set is in date
   * order, and no training row is later than a validation row.
   */
  lemma ValidationFollowsTraining(hist: seq<Observation>, region: string, k: nat)
    ensures var s := CreateHistoricalValidationSet(hist, region, k);
      && (forall i :: 0 <= i < |s.training| ==> s.training[i].region == region)
      && (forall i :: 0 <= i < |s.validation| ==> s.validation[i].region == region)
      && (forall i, j :: 0 <= i < j < |s.validation| ==> s.validation[i].date <= s.validation[j].date)
      && (forall i, j :: 0 <= i < |s.training| && 0 <= j < |s.validation| ==>
            s.training[i].date <= s.validation[j].date)
  {
    var s := CreateHistoricalValidationSet(hist, region, k);
    if k > 0 {
      var rows := SortedRegionRows(hist, region);
      DateLeTotalPreorder();
      SortSorted(Filter(hist, RegionTest(region)), DateLe);
      var t := |s.training|;
      forall i | 0 <= i < t
        ensures s.training[i] == rows[i]
      {
      }
      forall j | 0 <= j < |s.validation|
        ensures s.validation[j] == rows[t + j]
      {
      }
    }
  }

  /** The distance in days between two dates. */
  function Gap(p: Prediction, date: int): nat
  {
    if p.date >= date then p.date - date else date - p.date
  }

  /** `np.argmin` of the distances: the first prediction nearest to `date`. */
  function Closest(preds: seq<Prediction>, date: int): (i: nat)
    requires |preds| > 0
    ensures i < |preds|
    ensures forall j :: 0 <= j < |preds| ==> Gap(preds[i], date) <= Gap(preds[j], date)
    ensures forall j :: 0 <= j < i ==> Gap(preds[j], date) > Gap(preds[i], date)
  {
    if |preds| == 1 then 0
    else
      var c := Closest(preds[..|preds| - 1], date);
      if Gap(preds[|preds| - 1], date) < Gap(preds[c], date) then |preds| - 1 else c
  }

  /** The nearest prediction to `date` lies within the tolerance. */
  predicate Accepted(preds: seq<Prediction>, date: int)
  {
    |preds| > 0 && Gap(preds[Closest(preds, date)], date) <= ToleranceDays
  }

  function AcceptedTest(preds: seq<Prediction>): Observation -> bool
  {
    (o: Observation) => Accepted(preds, o.date)
  }

  /** The observations of `vs` that find a prediction, in order. */
  function AcceptedRows(preds: seq<Prediction>, vs: seq<Observation>): seq<Observation>
  {
    Filter(vs, AcceptedTest(preds))
  }

  /**
   * `validation_data[validation_data['Date'] == date]['NDVI'].iloc[0]`: the
   * value of the first validation row with the date of `o`.
   */
  function ActualFor(validation: seq<Observation>, o: Observation): (v: real)
    requires o in validation
    ensures exists i :: 0 <= i < |validation| && validation[i].date == o.date && v == validation[i].ndvi
                        && forall j :: 0 <= j < i ==> validation[j].date != o.date
  {
    match FindIndex(validation, (w: Observation) => w.date == o.date)
    case Some(i) => validation[i].ndvi
    case None => assert false; o.ndvi
  }

  /** Where no two validation rows share a date, the observed value is the row's own. */
  lemma ActualForOwnRow(validation: seq<Observation>, k: int)
    requires 0 <= k < |validation|
    requires forall j :: 0 <= j < |validation| && j != k ==> validation[j].date != validation[k].date
    ensures ActualFor(validation, validation[k]) == validation[k].ndvi
  {
  }

  /** The prediction chosen for each of the observations `acc`, in order. */
  function PredictionsFor(preds: seq<Prediction>, acc: seq<Observation>): (r: seq<real>)
    requires |preds| > 0
    ensures |r| == |acc|
  {
    if acc == [] then []
    else PredictionsFor(preds, acc[..|acc| - 1]) + [preds[Closest(preds, acc[|acc| - 1].date)].predictedNdvi]
  }

  /** The i-th chosen prediction is the one closest to the date of the i-th observation. */
  lemma {:induction false} PredictionsForValues(preds: seq<Prediction>, acc: seq<Observation>)
    requires |preds| > 0
    ensures forall i :: 0 <= i < |acc| ==> PredictionsFor(preds, acc)[i] == preds[Closest(preds, acc[i].date)].predictedNdvi
  {
    if acc != [] {
      PredictionsForValues(preds, acc[..|acc| - 1]);
    }
  }

  /** The observed value for each of the observations `acc`, looked up in `validation`. */
  function ActualsFor(validation: seq<Observation>, acc: seq<Observation>): (r: seq<real>)
    requires forall i :: 0 <= i < |acc| ==> acc[i] in validation
    ensures |r| == |acc|
  {
    if acc == [] then []
    else ActualsFor(validation, acc[..|acc| - 1]) + [ActualFor(validation, acc[|acc| - 1])]
  }

  /** The i-th observed value is the one looked up for the i-th observation. */
  lemma {:induction false} ActualsForValues(validation: seq<Observation>, acc: seq<Observation>)
    requires forall i :: 0 <= i < |acc| ==> acc[i] in validation
    ensures forall i :: 0 <= i < |acc| ==> ActualsFor(validation, acc)[i] == ActualFor(validation, acc[i])
  {
    if acc != [] {
      ActualsForValues(validation, acc[..|acc| - 1]);
    }
  }

  /** The aligned predictions for the observations `vs`. */
  function AlignedPredicted(preds: seq<Prediction>, vs: seq<Observation>): (r: seq<real>)
    requires |preds| > 0
    ensures |r| == |AcceptedRows(preds, vs)|
  {
    PredictionsFor(preds, AcceptedRows(preds, vs))
  }

  /** Each aligned prediction is the prediction closest to the date of its accepted row. */
  lemma AlignedPredictedValues(preds: seq<Prediction>, vs: seq<Observation>)
    requires |preds| > 0
    ensures var acc := AcceptedRows(preds, vs);
      var r := AlignedPredicted(preds, vs);
      |r| == |acc| && forall i :: 0 <= i < |acc| ==> r[i] == preds[Closest(preds, acc[i].date)].predictedNdvi
  {
    PredictionsForValues(preds, AcceptedRows(preds, vs));
  }

  /** The aligned observed values for the observations `vs`, looked up in `validation`. */
  function AlignedActual(validation: seq<Observation>, preds: seq<Prediction>, vs: seq<Observation>): (r: seq<real>)
    requires forall i :: 0 <= i < |vs| ==> vs[i] in validation
    ensures |r| == |AcceptedRows(preds, vs)|
  {
    var acc := AcceptedRows(preds, vs);
    assert forall i :: 0 <= i < |acc| ==> acc[i] in vs;
    ActualsFor(validation, acc)
  }

  /** Each aligned observed value is the one looked up for its accepted row, a validation row. */
  lemma AlignedActualValues(validation: seq<Observation>, preds: seq<Prediction>, vs: seq<Observation>)
    requires forall i :: 0 <= i < |vs| ==> vs[i] in validation
    ensures var acc := AcceptedRows(preds, vs);
      var r := AlignedActual(validation, preds, vs);
      |r| == |acc| && forall i :: 0 <= i < |acc| ==> acc[i] in validation && r[i] == ActualFor(validation, acc[i])
  {
    var acc := AcceptedRows(preds, vs);
    assert forall i :: 0 <= i < |acc| ==> acc[i] in vs;
    ActualsForValues(validation, acc);
  }

  /** One observation more is one accepted row more exactly when it is accepted. */
  lemma AcceptedRowsStep(preds: seq<Prediction>, vs: seq<Observation>, o: Observation)
    ensures AcceptedRows(preds, vs + [o])
         == AcceptedRows(preds, vs) + (if Accepted(preds, o.date) then [o] else [])
  {
    var p := AcceptedTest(preds);
    FilterAppend(vs, [o], p);
    assert [o][1..] == [];
    assert Filter([o], p) == (if p(o) then [o] else []) + Filter([o][1..], p);
  }

  /** One observation more: it is appended to both lists exactly when it is accepted. */
  lemma AlignStep(validation: seq<Observation>, preds: seq<Prediction>, vs: seq<Observation>, o: Observation)
    requires |preds| > 0
    requires forall i :: 0 <= i < |vs| ==> vs[i] in validation
    requires o in validation
    ensures forall i :: 0 <= i < |vs + [o]| ==> (vs + [o])[i] in validation
    ensures AlignedPredicted(preds, vs + [o])
         == AlignedPredicted(preds, vs)
          + (if Accepted(preds, o.date) then [preds[Closest(preds, o.date)].predictedNdvi] else [])
    ensures AlignedActual(validation, preds, vs + [o])
         == AlignedActual(validation, preds, vs)
          + (if Accepted(preds, o.date) then [ActualFor(validation, o)] else [])
  {
    AcceptedRowsStep(preds, vs, o);
    var acc := AcceptedRows(preds, vs);
    if Accepted(preds, o.date) {
      assert (acc + [o])[..|acc|] == acc;
    } else {
      assert acc + [] == acc;
    }
  }

  /** The step of the alignment loop on the predicted values, stated on prefixes of `validation`. */
  lemma AlignNextPredicted(validation: seq<Observation>, preds: seq<Prediction>, i: nat)
    requires |preds| > 0 && 0 < i <= |validation|
    ensures AlignedPredicted(preds, validation[..i])
         == AlignedPredicted(preds, validation[..i - 1])
          + (if Accepted(preds, validation[i - 1].date) then [preds[Closest(preds, validation[i - 1].date)].predictedNdvi] else [])
  {
    TakeNext(validation, i - 1);
    AlignStep(validation, preds, validation[..i - 1], validation[i - 1]);
  }

  /** The step of the alignment loop on the observed values, stated on prefixes of `validation`. */
  lemma AlignNextActual(validation: seq<Observation>, preds: seq<Prediction>, i: nat)
    requires |preds| > 0 && 0 < i <= |validation|
    ensures Accepted(preds, validation[i - 1].date) ==>
      AlignedActual(validation, preds, validation[..i])
      == AlignedActual(validation, preds, validation[..i - 1]) + [ActualFor(validation, validation[i - 1])]
    ensures !Accepted(preds, validation[i - 1].date) ==>
      AlignedActual(validation, preds, validation[..i]) == AlignedActual(validation, preds, validation[..i - 1])
  {
    TakeNext(validation, i - 1);
    AlignStep(validation, preds, validation[..i - 1], validation[i - 1]);
  }

  /** The state of the alignment loop after the first `i` validation rows. */
  function AlignUpTo(validation: seq<Observation>, preds: seq<Prediction>, i: nat): Aligned
    requires |preds| > 0 && i <= |validation|
  {
    if i == 0 then Aligned([], [])
    else
      var a := AlignUpTo(validation, preds, i - 1);
      var v := validation[i - 1];
      if Accepted(preds, v.date)
      then Aligned(a.predicted + [preds[Closest(preds, v.date)].predictedNdvi], a.actual + [ActualFor(validation, v)])
      else a
  }

  /** The predicted values of the loop state after `i` rows are the aligned predictions of the first `i` rows. */
  lemma {:induction false} AlignUpToPredicted(validation: seq<Observation>, preds: seq<Prediction>, i: nat)
    requires |preds| > 0 && i <= |validation|
    ensures AlignUpTo(validation, preds, i).predicted == AlignedPredicted(preds, validation[..i])
  {
    if i > 0 {
      AlignUpToPredicted(validation, preds, i - 1);
      AlignNextPredicted(validation, preds, i);
    }
  }

  /** The observed values of the loop state after `i` rows are the aligned observed values of the first `i` rows. */
  lemma {:induction false} AlignUpToActual(validation: seq<Observation>, preds: seq<Prediction>, i: nat)
    requires |preds| > 0 && i <= |validation|
    ensures AlignUpTo(validation, preds, i).actual == AlignedActual(validation, preds, validation[..i])
  {
    if i > 0 {
      AlignUpToActual(validation, preds, i - 1);
      AlignNextActual(validation, preds, i);
    }
  }

  /**
   * The alignment loop of `validate_model_performance`: for each validation
   * row in order, the nearest prediction is kept when it is within the
   * tolerance, together with the observed value. With no prediction at all
   * and a validation row to align, `np.argmin` raises.
   */
  method AlignPredictions(validation: seq<Observation>, preds: seq<Prediction>)
    returns (r: Result<Aligned, ValidationError>)
    ensures |preds| == 0 ==> r == (if |validation| == 0 then Ok(Aligned([], [])) else Err(EmptyArgmin))
    ensures |preds| > 0 ==>
      r == Ok(Aligned(AlignedPredicted(preds, validation), AlignedActual(validation, preds, validation)))
    ensures r.Ok? ==> |r.value.predicted| == |r.value.actual|
  {
    if |preds| == 0 {
      // The first call of `np.argmin` raises, if there is a first call.
      return if |validation| == 0 then Ok(Aligned([], [])) else Err(EmptyArgmin);
    }
    var predicted: seq<real> := [];
    var actual: seq<real> := [];
    for i := 0 to |validation|
      invariant Aligned(predicted, actual) == AlignUpTo(validation, preds, i)
    {
      var v := validation[i];
      var c := Closest(preds, v.date);
      if Gap(preds[c], v.date) <= ToleranceDays {
        predicted := predicted + [preds[c].predictedNdvi];
        actual := actual + [ActualFor(validation, v)];
      }
    }
    AlignUpToPredicted(validation, preds, |validation|);
    AlignUpToActual(validation, preds, |validation|);
    TakeAll(validation);
    r := Ok(Aligned(predicted, actual));
  }

  /** What validation reads: the historical rows, the predictions per model, `k` and the statistics. */
  datatype Inputs = Inputs(
    hist: seq<Observation>,
    predictions: map<string, seq<Prediction>>,
    k: nat,
    stats: (seq<real>, seq<real>) -> Stats)

  /** The predictions of one model for one region, in file order. */
  function RegionPredictions(rows: seq<Prediction>, region: string): (rp: seq<Prediction>)
    ensures forall i :: 0 <= i < |rp| ==> rp[i] in rows && rp[i].region == region
  {
    Filter(rows, (p: Prediction) => p.region == region)
  }

  /**
   * `validate_model_performance`: the validation rows of the region are
   * aligned with the model's predictions for it; no aligned pair gives
   * `None`, otherwise the statistics of the aligned lists (actual first)
   * and their length as `Samples_Used`.
   */
  function ValidateModel(inp: Inputs, model: string, region: string): (r: Result<Option<Metrics>, ValidationError>)
    ensures r == Err(MissingModel) <==> model !in inp.predictions
    ensures r == Err(EmptyArgmin) <==>
      model in inp.predictions &&
      |RegionPredictions(inp.predictions[model], region)| == 0 &&
      |CreateHistoricalValidationSet(inp.hist, region, inp.k).validation| > 0
    ensures r.Ok? && r.value.Some? ==> r.value.value.samplesUsed > 0
    ensures model in inp.predictions ==>
      var validation := CreateHistoricalValidationSet(inp.hist, region, inp.k).validation;
      var rp := RegionPredictions(inp.predictions[model], region);
      && (r == Ok(None) <==> |validation| == 0 || (|rp| > 0 && |AlignedPredicted(rp, validation)| == 0))
      && (r.Ok? && r.value.Some? ==>
            && |rp| > 0
            && var predicted := AlignedPredicted(rp, validation);
               var actual := AlignedActual(validation, rp, validation);
               && r.value.value.samplesUsed == |predicted| == |actual|
               && r.value.value.stats == inp.stats(actual, predicted))
  {
    if model !in inp.predictions then Err(MissingModel)
    else
      var validation := CreateHistoricalValidationSet(inp.hist, region, inp.k).validation;
      var rp := RegionPredictions(inp.predictions[model], region);
      if |rp| == 0 then
        if |validation| == 0 then Ok(None) else Err(EmptyArgmin)
      else
        var predicted := AlignedPredicted(rp, validation);
        var actual := AlignedActual(validation, rp, validation);
        AlignedLengths(validation, rp);
        if |predicted| == 0 then Ok(None)
        else Ok(Some(Metrics(inp.stats(actual, predicted), |predicted|)))
  }

  /** The two aligned lists have one entry per accepted row, so none for no validation row. */
  lemma AlignedLengths(validation: seq<Observation>, rp: seq<Prediction>)
    requires |rp| > 0
    ensures |AlignedPredicted(rp, validation)| == |AlignedActual(validation, rp, validation)|
    ensures |validation| == 0 ==> |AlignedPredicted(rp, validation)| == 0
  {
  }

  /** With no prediction within the tolerance of any validation date, the result is `None`. */
  lemma NothingAlignedIsNone(inp: Inputs, model: string, region: string)
    requires model in inp.predictions
    requires var validation := CreateHistoricalValidationSet(inp.hist, region, inp.k).validation;
      forall i :: 0 <= i < |validation| ==>
        forall p :: p in inp.predictions[model] && p.region == region ==> Gap(p, validation[i].date) > ToleranceDays
    requires |RegionPredictions(inp.predictions[model], region)| > 0
    ensures ValidateModel(inp, model, region) == Ok(None)
  {
    var validation := CreateHistoricalValidationSet(inp.hist, region, inp.k).validation;
    var rp := RegionPredictions(inp.predictions[model], region);
    var acc := AcceptedRows(rp, validation);
  }

  /**
   * The inner loop of `validate_all_models` for one region: each model is
   * validated in turn, an error ends the loop, and only metrics that are
   * not `None` are stored.
   */
  function CollectMetrics(check: string -> Result<Option<Metrics>, ValidationError>, models: seq<string>)
    : (r: Result<seq<ModelEntry>, ValidationError>)
    ensures r.Err? <==> exists i :: 0 <= i < |models| && check(models[i]).Err?
    ensures r.Err? ==>
      exists i :: 0 <= i < |models| && check(models[i]) == Err(r.error) && forall j :: 0 <= j < i ==> check(models[j]).Ok?
  {
    if models == [] then Ok([])
    else
      var m := models[|models| - 1];
      assert forall i :: 0 <= i < |models| - 1 ==> models[..|models| - 1][i] == models[i];
      match CollectMetrics(check, models[..|models| - 1])
      case Err(e) => Err(e)
      case Ok(done) =>
        match check(m)
        case Err(e) => Err(e)
        case Ok(None) => Ok(done)
        case Ok(Some(metrics)) => Ok(done + [ModelEntry(m, metrics)])
  }

  /** The outer loop of `validate_all_models`: one entry per region, an error ends the loop. */
  function CollectRegions(check: string -> Result<seq<ModelEntry>, ValidationError>, regions: seq<string>)
    : (r: Result<seq<RegionEntry>, ValidationError>)
    ensures r.Err? <==> exists i :: 0 <= i < |regions| && check(regions[i]).Err?
    ensures r.Err? ==>
      exists i :: 0 <= i < |regions| && check(regions[i]) == Err(r.error) && forall j :: 0 <= j < i ==> check(regions[j]).Ok?
  {
    if regions == [] then Ok([])
    else
      var region := regions[|regions| - 1];
      assert forall i :: 0 <= i < |regions| - 1 ==> regions[..|regions| - 1][i] == regions[i];
      match CollectRegions(check, regions[..|regions| - 1])
      case Err(e) => Err(e)
      case Ok(done) =>
        match check(region)
        case Err(e) => Err(e)
        case Ok(entries) => Ok(done + [RegionEntry(region, entries)])
  }

  /** Validating one model in `region`. */
  function ModelCheck(inp: Inputs, region: string): string -> Result<Option<Metrics>, ValidationError>
  {
    (m: string) => ValidateModel(inp, m, region)
  }

  /** Validating every model of `models` in one region. */
  function RegionCheck(inp: Inputs, models: seq<string>): string -> Result<seq<ModelEntry>, ValidationError>
  {
    (region: string) => CollectMetrics(ModelCheck(inp, region), models)
  }

  /** An error stops a region's loop: the later models are not reached. */
  lemma {:induction false} MetricsErrorStops(
    check: string -> Result<Option<Metrics>, ValidationError>, models: seq<string>, n: nat, e: ValidationError)
    requires n <= |models|
    requires CollectMetrics(check, models[..n]) == Err(e)
    ensures CollectMetrics(check, models) == Err(e)
    decreases |models| - n
  {
    if n < |models| {
      assert models[..n + 1][..n] == models[..n];
      MetricsErrorStops(check, models, n + 1, e);
    } else {
      assert models[..n] == models;
    }
  }

  /** One region more: its error ends the outer loop, else its entry is appended. */
  lemma RegionsStep(
    check: string -> Result<seq<ModelEntry>, ValidationError>, regions: seq<string>, i: nat, done: seq<RegionEntry>)
    requires i < |regions|
    requires CollectRegions(check, regions[..i]) == Ok(done)
    ensures CollectRegions(check, regions[..i + 1])
      == if check(regions[i]).Err? then Err(check(regions[i]).error) else Ok(done + [RegionEntry(regions[i], check(regions[i]).value)])
  {
    assert regions[..i + 1][..i] == regions[..i];
  }

  /** An error stops the outer loop: the later regions are not reached. */
  lemma {:induction false} RegionsErrorStops(
    check: string -> Result<seq<ModelEntry>, ValidationError>, regions: seq<string>, n: nat, e: ValidationError)
    requires n <= |regions|
    requires CollectRegions(check, regions[..n]) == Err(e)
    ensures CollectRegions(check, regions) == Err(e)
    decreases |regions| - n
  {
    if n < |regions| {
      assert regions[..n + 1][..n] == regions[..n];
      RegionsErrorStops(check, regions, n + 1, e);
    } else {
      assert regions[..n] == regions;
    }
  }

  /** Every region gets an entry, in order, holding that region's results. */
  lemma {:induction false} EveryRegionHasEntry(
    check: string -> Result<seq<ModelEntry>, ValidationError>, regions: seq<string>)
    requires CollectRegions(check, regions).Ok?
    ensures var rs := CollectRegions(check, regions).value;
      && |rs| == |regions|
      && forall i :: 0 <= i < |rs| ==> rs[i].region == regions[i] && check(regions[i]) == Ok(rs[i].models)
  {
    if regions != [] {
      EveryRegionHasEntry(check, regions[..|regions| - 1]);
    }
  }

  /** Every stored entry carries its model's metrics, and models keep their order. */
  lemma {:induction false} EntriesCarryMetrics(
    check: string -> Result<Option<Metrics>, ValidationError>, models: seq<string>)
    requires CollectMetrics(check, models).Ok?
    ensures var es := CollectMetrics(check, models).value;
      && |es| <= |models|
      && forall i :: 0 <= i < |es| ==> es[i].model in models && check(es[i].model) == Ok(Some(es[i].metrics))
  {
    if models != [] {
      var init := models[..|models| - 1];
      assert forall m :: m in init ==> m in models;
      EntriesCarryMetrics(check, init);
    }
  }

  /** No model failed, and every model whose metrics are not `None` has an entry. */
  lemma {:induction false} MetricsHaveEntries(
    check: string -> Result<Option<Metrics>, ValidationError>, models: seq<string>)
    requires CollectMetrics(check, models).Ok?
    ensures var es := CollectMetrics(check, models).value;
      forall j :: 0 <= j < |models| ==>
        && check(models[j]).Ok?
        && (check(models[j]).value.Some? ==> ModelEntry(models[j], check(models[j]).value.value) in es)
  {
    if models != [] {
      var init := models[..|models| - 1];
      MetricsHaveEntries(check, init);
      assert forall j :: 0 <= j < |init| ==> models[j] == init[j];
    }
  }

  /** The names the prediction files are loaded under, in `load_data` order. */
  const ModelNames: seq<string> := ["linear", "seasonal", "prophet_additive", "prophet_multiplicative"]

  /** The predictions read for each model, when every file could be read. */
  function ReadAll(read: string -> Option<seq<Prediction>>): (m: Option<map<string, seq<Prediction>>>)
    ensures m.Some? <==> forall i :: 0 <= i < |ModelNames| ==> read(ModelNames[i]).Some?
    ensures m.Some? ==> m.value.Keys == set i | 0 <= i < |ModelNames| :: ModelNames[i]
    ensures m.Some? ==> forall i :: 0 <= i < |ModelNames| ==> m.value[ModelNames[i]] == read(ModelNames[i]).value
  {
    if forall i :: 0 <= i < |ModelNames| ==> read(ModelNames[i]).Some? then
      Some(map i | 0 <= i < |ModelNames| :: ModelNames[i] := read(ModelNames[i]).value)
    else None
  }

  class ModelValidator {
    var historicalData: Option<seq<Observation>>
    var predictions: map<string, seq<Prediction>>
    /** The keys of `predictions` in insertion order. */
    var models: seq<string>
    var validationResults: seq<RegionEntry>

    constructor()
      ensures historicalData == None && predictions == map[] && models == [] && validationResults == []
    {
      historicalData := None;
      predictions := map[];
      models := [];
      validationResults := [];
    }

    /**
     * `load_data`: the historical file, then the four prediction files. A
     * failed read ends the load with `False`; the predictions are assigned
     * only once every file was read.
     */
    method LoadData(hist: Option<seq<Observation>>, read: string -> Option<seq<Prediction>>) returns (ok: bool)
      modifies this
      ensures ok <==> hist.Some? && ReadAll(read).Some?
      ensures historicalData == (if hist.Some? then hist else old(historicalData))
      ensures ok ==> predictions == ReadAll(read).value && models == ModelNames
      ensures !ok ==> predictions == old(predictions) && models == old(models)
      ensures validationResults == old(validationResults)
    {
      if hist.None? {
        return false;
      }
      historicalData := hist;
      var loaded := ReadAll(read);
      if loaded.None? {
        return false;
      }
      predictions := loaded.value;
      models := ModelNames;
      ok := true;
    }

    /** `validate_model_performance` for one region and one model. */
    method ValidateModelPerformance(region: string, model: string, k: nat, stats: (seq<real>, seq<real>) -> Stats)
      returns (r: Result<Option<Metrics>, ValidationError>)
      requires historicalData.Some?
      ensures r == ValidateModel(Inputs(historicalData.value, predictions, k, stats), model, region)
    {
      if model !in predictions {
        return Err(MissingModel);
      }
      var split := CreateHistoricalValidationSet(historicalData.value, region, k);
      var rp := RegionPredictions(predictions[model], region);
      var aligned := AlignPredictions(split.validation, rp);
      match aligned
      case Err(e) =>
        r := Err(e);
      case Ok(a) =>
        if |a.predicted| == 0 {
          r := Ok(None);
        } else {
          r := Ok(Some(Metrics(stats(a.actual, a.predicted), |a.predicted|)));
        }
    }

    /** The inner loop of `validate_all_models`: every model, in insertion order, for one region. */
    method ValidateRegionModels(region: string, k: nat, stats: (seq<real>, seq<real>) -> Stats)
      returns (r: Result<seq<ModelEntry>, ValidationError>)
      requires historicalData.Some?
      ensures r == RegionCheck(Inputs(historicalData.value, predictions, k, stats), models)(region)
    {
      var inp := Inputs(historicalData.value, predictions, k, stats);
      var entries: seq<ModelEntry> := [];
      for j := 0 to |models|
        invariant CollectMetrics(ModelCheck(inp, region), models[..j]) == Ok(entries)
      {
        var metrics := ValidateModelPerformance(region, models[j], k, stats);
        assert models[..j + 1][..j] == models[..j];
        match metrics
        case Err(e) =>
          MetricsErrorStops(ModelCheck(inp, region), models, j + 1, e);
          return Err(e);
        case Ok(None) =>
        case Ok(Some(m)) =>
          entries := entries + [ModelEntry(models[j], m)];
      }
      assert models[..|models|] == models;
      r := Ok(entries);
    }

    /**
     * `validate_all_models`: every region of the historical data, every
     * model in insertion order. The results are stored only when no
     * validation raised.
     */
    method ValidateAllModels(k: nat, stats: (seq<real>, seq<real>) -> Stats)
      returns (r: Result<seq<RegionEntry>, ValidationError>)
      modifies this
      ensures old(historicalData).None? ==> r == Err(NoHistoricalData)
      ensures old(historicalData).Some? ==>
        r == CollectRegions(RegionCheck(Inputs(old(historicalData).value, old(predictions), k, stats), old(models)),
                            Regions(old(historicalData).value))
      ensures validationResults == (if r.Ok? then r.value else old(validationResults))
      ensures historicalData == old(historicalData) && predictions == old(predictions) && models == old(models)
    {
      if historicalData.None? {
        return Err(NoHistoricalData);
      }
      var check := RegionCheck(Inputs(historicalData.value, predictions, k, stats), models);
      var regions := Regions(historicalData.value);
      var results: seq<RegionEntry> := [];
      for i := 0 to |regions|
        invariant historicalData == old(historicalData) && predictions == old(predictions) && models == old(models)
        invariant validationResults == old(validationResults)
        invariant CollectRegions(check, regions[..i]) == Ok(results)
      {
        var entries := ValidateRegionModels(regions[i], k, stats);
        assert entries == check(regions[i]);
        RegionsStep(check, regions, i, results);
        if entries.Err? {
          RegionsErrorStops(check, regions, i + 1, entries.error);
          return Err(entries.error);
        }
        results := results + [RegionEntry(regions[i], entries.value)];
      }
      assert regions[..|regions|] == regions;
      validationResults := results;
      r := Ok(results);
    }

    /** `export_validation_results`: none when there are no results, else one row per stored pair. */
    method ExportValidationResults(outputFile: string) returns (r: Option<ExportFile>)
      ensures validationResults == [] ==> r.None?
      ensures validationResults != [] ==> r == Some(ExportFile(outputFile, ExportRows(validationResults)))
    {
      if validationResults == [] {
        return None;
      }
      var rows: seq<ExportRow> := [];
      for i := 0 to |validationResults|
        invariant rows == ExportRows(validationResults[..i])
      {
        var entry := validationResults[i];
        ghost var before := rows;
        for j := 0 to |entry.models|
          invariant rows == before + EntryRows(entry)[..j]
        {
          rows := rows + [ExportRow(entry.region, entry.models[j].model, entry.models[j].metrics)];
        }
        assert validationResults[..i + 1][..i] == validationResults[..i];
        assert EntryRows(entry)[..|entry.models|] == EntryRows(entry);
      }
      assert validationResults[..|validationResults|] == validationResults;
      r := Some(ExportFile(outputFile, rows));
    }
  }

  function Rmse(e: ModelEntry): real
  {
    e.metrics.stats.rmse
  }

  /** Entry `i` has the least RMSE, and every earlier entry a strictly greater one. */
  predicate IsFirstMinimum(ms: seq<ModelEntry>, i: int)
  {
    && 0 <= i < |ms|
    && (forall j :: 0 <= j < |ms| ==> Rmse(ms[i]) <= Rmse(ms[j]))
    && (forall j :: 0 <= j < i ==> Rmse(ms[j]) > Rmse(ms[i]))
  }

  /** There is one first minimum at most. */
  lemma FirstMinimumUnique(ms: seq<ModelEntry>, i: int, j: int)
    requires IsFirstMinimum(ms, i) && IsFirstMinimum(ms, j)
    ensures i == j
  {
    assert Rmse(ms[i]) <= Rmse(ms[j]) && Rmse(ms[j]) <= Rmse(ms[i]);
  }

  /**
   * The best model of one region in `generate_validation_report`: the
   * running best starts at infinity (`None`) and is replaced only by a
   * strictly smaller RMSE, so the first model with the least RMSE wins.
   */
  method BestModel(ms: seq<ModelEntry>) returns (best: Option<string>, bestRmse: Option<real>)
    ensures |ms| == 0 ==> best.None? && bestRmse.None?
    ensures |ms| > 0 ==> exists i :: IsFirstMinimum(ms, i) && best == Some(ms[i].model) && bestRmse == Some(Rmse(ms[i]))
  {
    best, bestRmse := None, None;
    ghost var b := 0;
    for i := 0 to |ms|
      invariant i == 0 ==> best.None? && bestRmse.None?
      invariant i > 0 ==> 0 <= b < i && best == Some(ms[b].model) && bestRmse == Some(Rmse(ms[b]))
      invariant i > 0 ==> forall j :: 0 <= j < i ==> Rmse(ms[b]) <= Rmse(ms[j])
      invariant i > 0 ==> forall j :: 0 <= j < b ==> Rmse(ms[j]) > Rmse(ms[b])
    {
      if bestRmse.None? || Rmse(ms[i]) < bestRmse.value {
        best, bestRmse := Some(ms[i].model), Some(Rmse(ms[i]));
        b := i;
      }
    }
    if |ms| > 0 {
      assert IsFirstMinimum(ms, b);
    }
  }

  /** The line the report prints for a region: its best model and that model's RMSE. */
  datatype RegionBest = RegionBest(region: string, model: string, rmse: real)

  /** `best_model.upper()` on `None`: the region stored no model (`AttributeError`). */
  datatype ReportError = NoBestModel(region: string)

  /** The best model of region `e`, as `BestModel` picks it. */
  ghost predicate IsRegionBest(e: RegionEntry, b: RegionBest)
  {
    b.region == e.region &&
    exists j :: IsFirstMinimum(e.models, j) && b.model == e.models[j].model && b.rmse == Rmse(e.models[j])
  }

  /** `results[i]` is the first region that stored no model. */
  predicate FirstWithoutModel(results: seq<RegionEntry>, i: int)
  {
    0 <= i < |results| && |results[i].models| == 0 && forall k :: 0 <= k < i ==> |results[k].models| > 0
  }

  /**
   * The per-region part of `generate_validation_report`: each region in
   * order prints its best model; the first region without any stored model
   * raises, since its best model is still `None`. With no results the
   * report returns before this loop, which then has nothing to do.
   */
  method ReportBestModels(results: seq<RegionEntry>) returns (r: Result<seq<RegionBest>, ReportError>)
    ensures r.Err? <==> exists i :: 0 <= i < |results| && |results[i].models| == 0
    ensures r.Err? ==> exists i :: FirstWithoutModel(results, i) && r.error == NoBestModel(results[i].region)
    ensures r.Ok? ==> |r.value| == |results| && forall i :: 0 <= i < |results| ==> IsRegionBest(results[i], r.value[i])
  {
    var lines: seq<RegionBest> := [];
    for i := 0 to |results|
      invariant |lines| == i
      invariant forall k :: 0 <= k < i ==> |results[k].models| > 0 && IsRegionBest(results[k], lines[k])
    {
      var best, bestRmse := BestModel(results[i].models);
      if best.None? {
        assert FirstWithoutModel(results, i);
        return Err(NoBestModel(results[i].region));
      }
      lines := lines + [RegionBest(results[i].region, best.value, bestRmse.value)];
    }
    r := Ok(lines);
  }

  /** A row of the exported CSV file. */
  datatype ExportRow = ExportRow(region: string, model: string, metrics: Metrics)

  /** The file written by the export and its rows. */
  datatype ExportFile = ExportFile(path: string, rows: seq<ExportRow>)

  /** The rows of one region, in model order. */
  function EntryRows(e: RegionEntry): (rows: seq<ExportRow>)
    ensures |rows| == |e.models|
  {
    seq(|e.models|, j requires 0 <= j < |e.models| => ExportRow(e.region, e.models[j].model, e.models[j].metrics))
  }

  /** The results flattened region by region. */
  function ExportRows(results: seq<RegionEntry>): seq<ExportRow>
  {
    if results == [] then []
    else ExportRows(results[..|results| - 1]) + EntryRows(results[|results| - 1])
  }

  /** The number of (region, model) pairs in the results. */
  function PairCount(results: seq<RegionEntry>): nat
  {
    if results == [] then 0 else PairCount(results[..|results| - 1]) + |results[|results| - 1].models|
  }

  /** `row` is the row of a stored (region, model) pair. */
  predicate IsPairRow(results: seq<RegionEntry>, row: ExportRow)
  {
    exists i, j :: 0 <= i < |results| && 0 <= j < |results[i].models| &&
      row == ExportRow(results[i].region, results[i].models[j].model, results[i].models[j].metrics)
  }

  /** One row per stored (region, model) pair, and nothing else. */
  lemma {:induction false} OneRowPerPair(results: seq<RegionEntry>)
    ensures |ExportRows(results)| == PairCount(results)
    ensures forall row :: row in ExportRows(results) <==> IsPairRow(results, row)
  {
    if results != [] {
      var init := results[..|results| - 1];
      var last := results[|results| - 1];
      OneRowPerPair(init);
      forall row | row in ExportRows(results)
        ensures IsPairRow(results, row)
      {
        if row in ExportRows(init) {
          var i, j :| 0 <= i < |init| && 0 <= j < |init[i].models| &&
            row == ExportRow(init[i].region, init[i].models[j].model, init[i].models[j].metrics);
          assert results[i] == init[i];
        } else {
          assert row in EntryRows(last);
          var j :| 0 <= j < |last.models| && EntryRows(last)[j] == row;
        }
      }
      forall i, j | 0 <= i < |results| && 0 <= j < |results[i].models|
        ensures ExportRow(results[i].region, results[i].models[j].model, results[i].models[j].metrics)
                in ExportRows(results)
      {
        if i < |init| {
          assert results[i] == init[i];
        } else {
          assert EntryRows(last)[j] in EntryRows(last);
        }
      }
    }
  }

  /** A model's place in the ranking and its composite score. */
  datatype Ranking = Ranking(model: string, compositeScore: real)

  /** The composite score of the ranking: lower is better. */
  function CompositeScore(avgRmse: real, avgMape: real, avgR2: real): real
  {
    avgRmse * 0.4 + avgMape * 0.3 + (1.0 - avgR2) * 0.3
  }

  /** The metrics of one model over the regions, in region order. */
  function MetricsOf(results: seq<RegionEntry>, model: string): seq<Stats>
  {
    var rows := Filter(ExportRows(results), (row: ExportRow) => row.model == model);
    seq(|rows|, i requires 0 <= i < |rows| => rows[i].metrics.stats)
  }

  /** The model column of the exported rows. */
  function ModelColumn(results: seq<RegionEntry>): seq<string>
  {
    var rows := ExportRows(results);
    seq(|rows|, i requires 0 <= i < |rows| => rows[i].model)
  }

  /** The model column holds exactly the stored models. */
  lemma ModelColumnMembers(results: seq<RegionEntry>)
    ensures forall m :: m in ModelColumn(results) <==>
      (exists i, j :: 0 <= i < |results| && 0 <= j < |results[i].models| && results[i].models[j].model == m)
  {
    var rows := ExportRows(results);
    var column := ModelColumn(results);
    OneRowPerPair(results);
    forall m | m in column
      ensures exists i, j :: 0 <= i < |results| && 0 <= j < |results[i].models| && results[i].models[j].model == m
    {
      var k :| 0 <= k < |column| && column[k] == m;
      assert rows[k] in rows;
      assert IsPairRow(results, rows[k]);
      var i, j :| 0 <= i < |results| && 0 <= j < |results[i].models| &&
        rows[k] == ExportRow(results[i].region, results[i].models[j].model, results[i].models[j].metrics);
      assert results[i].models[j].model == m;
    }
    forall m | exists i, j :: 0 <= i < |results| && 0 <= j < |results[i].models| && results[i].models[j].model == m
      ensures m in column
    {
      var i, j :| 0 <= i < |results| && 0 <= j < |results[i].models| && results[i].models[j].model == m;
      var row := ExportRow(results[i].region, results[i].models[j].model, results[i].models[j].metrics);
      assert IsPairRow(results, row);
      var k :| 0 <= k < |rows| && rows[k] == row;
      assert column[k] == m;
    }
  }

  /**
   * The models of `model_summary`: each stored model once, in order of first
   * appearance (DistinctFirstAppearance).
   */
  function SummaryModels(results: seq<RegionEntry>): (ms: seq<string>)
    ensures Unique(ms)
    ensures forall m :: m in ms <==>
      (exists i, j :: 0 <= i < |results| && 0 <= j < |results[i].models| && results[i].models[j].model == m)
  {
    var column := ModelColumn(results);
    ModelColumnMembers(results);
    var d := Distinct(column);
    assert forall m :: m in d <==> m in column by {
      forall m | m in d
        ensures m in column
      {
        var k :| 0 <= k < |d| && d[k] == m;
      }
      forall m | m in column
        ensures m in d
      {
        var k :| 0 <= k < |column| && column[k] == m;
      }
    }
    d
  }

  /**
   * The summary lists the models in the order the nested loop first meets
   * them: region by region, and within a region in stored order.
   */
  lemma SummaryModelsOrder(results: seq<RegionEntry>, i: int, j: int)
    requires 0 <= i < j < |SummaryModels(results)|
    ensures (exists a :: 0 <= a < |ModelColumn(results)| && ModelColumn(results)[a] == SummaryModels(results)[i] &&
               (forall b :: 0 <= b < |ModelColumn(results)| && ModelColumn(results)[b] == SummaryModels(results)[j] ==> a < b))
  {
    DistinctFirstAppearance(ModelColumn(results), i, j);
  }

  /**
   * The rankings before sorting: one per model of the summary, scored from
   * the averages of its RMSE, MAPE and R2 (`mean` is `np.mean`).
   */
  function Rankings(results: seq<RegionEntry>, mean: seq<real> -> real): (rs: seq<Ranking>)
    ensures |rs| == |SummaryModels(results)|
    ensures forall i :: 0 <= i < |rs| ==> rs[i].model == SummaryModels(results)[i]
  {
    var ms := SummaryModels(results);
    seq(|ms|, i requires 0 <= i < |ms| =>
      var st := MetricsOf(results, ms[i]);
      Ranking(ms[i], CompositeScore(
        mean(seq(|st|, j requires 0 <= j < |st| => st[j].rmse)),
        mean(seq(|st|, j requires 0 <= j < |st| => st[j].mape)),
        mean(seq(|st|, j requires 0 <= j < |st| => st[j].r2)))))
  }

  predicate ScoreLe(a: Ranking, b: Ranking)
  {
    a.compositeScore <= b.compositeScore
  }

  /** `model_rankings.sort(key=composite_score)`. */
  function RankModels(rs: seq<Ranking>): (r: seq<Ranking>)
    ensures Sorted(r, ScoreLe) && multiset(r) == multiset(rs)
  {
    assert TotalPreorder(ScoreLe);
    SortSorted(rs, ScoreLe);
    Sort(rs, ScoreLe)
  }

  /**
   * The ranking is ascending by score, holds the same rankings, and keeps
   * the summary order among equal scores.
   */
  lemma RankModelsSpec(rs: seq<Ranking>)
    ensures Sorted(RankModels(rs), ScoreLe)
    ensures multiset(RankModels(rs)) == multiset(rs)
    ensures forall v :: Ties(RankModels(rs), v, ScoreLe) == Ties(rs, v, ScoreLe)
  {
    assert TotalPreorder(ScoreLe);
    SortSorted(rs, ScoreLe);
    forall v
      ensures Ties(RankModels(rs), v, ScoreLe) == Ties(rs, v, ScoreLe)
    {
      SortStable(rs, v, ScoreLe);
    }
  }
}
