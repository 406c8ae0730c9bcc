/**
 * The cost forecaster (src/pipeline/cost_forecaster.py): the ±10% simple forecast, the
 * mean-plus-delta forecast over the history table, the dispatch between them, and the model
 * cache with its zero fallback. The CSV table is given as rows; Prophet's fit and prediction
 * and the standard deviation are parameters.
 */
module CostForecaster {
  import opened Wrappers
  import opened DataModels

  /** A forecast dictionary: subcategory, forecasted amount, and the confidence interval's bounds. */
  datatype ForecastResult = ForecastResult(subcategory: string, amount: real, lower: real, upper: real)

  /** One row of the history table: its subcategory and amount (the date column is not used here). */
  datatype HistoryRow = HistoryRow(subcategory: string, amount: real)

  /** A fitted model: the history rows it was fitted on. */
  datatype Model = Model(rows: seq<HistoryRow>)

  /** The interval is centred on the forecast. */
  predicate Symmetric(f: ForecastResult) {
    f.upper - f.amount == f.amount - f.lower
  }

  // ---------------------------------------------------------------------------------------
  // Simple forecasts

  /** `_create_simple_forecast`: the new amount, with bounds 10% below and above it. */
  function SimpleForecast(d: BudgetDelta): (f: ForecastResult)
    ensures f.subcategory == d.category && f.amount == d.newAmount
    ensures Symmetric(f) && f.upper - f.amount == d.newAmount / 10.0
    ensures d.newAmount >= 0.0 ==> f.lower <= f.amount <= f.upper
  {
    ForecastResult(d.category, d.newAmount, d.newAmount * 0.9, d.newAmount * 1.1)
  }

  /** The categories of a list of deltas. */
  function Categories(deltas: seq<BudgetDelta>): set<string> {
    set d | d in deltas :: d.category
  }

  /** `_generate_simple_forecasts`: one forecast per category, a later delta replacing an earlier one. */
  function SimpleForecasts(deltas: seq<BudgetDelta>): (m: map<string, ForecastResult>)
    ensures m.Keys == Categories(deltas)
  {
    if deltas == [] then map[]
    else
      var init := deltas[..|deltas| - 1];
      var d := deltas[|deltas| - 1];
      assert deltas == init + [d];
      SimpleForecasts(init)[d.category := SimpleForecast(d)]
  }

  /** The forecast kept for a category is the one of the last delta naming it. */
  lemma {:induction false} SimpleForecastsLastWins(deltas: seq<BudgetDelta>, i: nat)
    requires i < |deltas|
    requires forall j :: i < j < |deltas| ==> deltas[j].category != deltas[i].category
    ensures SimpleForecasts(deltas)[deltas[i].category] == SimpleForecast(deltas[i])
  {
    if i < |deltas| - 1 {
      var init := deltas[..|deltas| - 1];
      SimpleForecastsLastWins(init, i);
    }
  }

  // ---------------------------------------------------------------------------------------
  // Forecasts from the history table

  /** The amounts of the history rows of a category, in table order. */
  function History(table: seq<HistoryRow>, category: string): (amounts: seq<real>)
    ensures |amounts| <= |table|
    ensures |amounts| == 0 <==> forall i :: 0 <= i < |table| ==> table[i].subcategory != category
  {
    if table == [] then []
    else
      var init := History(table[..|table| - 1], category);
      var row := table[|table| - 1];
      assert forall i :: 0 <= i < |table| - 1 ==> table[i] == table[..|table| - 1][i];
      if row.subcategory == category then init + [row.amount] else init
  }

  function Sum(xs: seq<real>): real {
    if xs == [] then 0.0 else Sum(xs[..|xs| - 1]) + xs[|xs| - 1]
  }

  /** The arithmetic mean (`Series.mean()`). */
  function Mean(xs: seq<real>): real
    requires |xs| > 0
  {
    Sum(xs) / (|xs| as real)
  }

  /** The mean lies between the smallest and largest amount. */
  lemma {:induction false} MeanBounds(xs: seq<real>, lo: real, hi: real)
    requires |xs| > 0
    requires forall i :: 0 <= i < |xs| ==> lo <= xs[i] <= hi
    ensures lo <= Mean(xs) <= hi
  {
    SumBounds(xs, lo, hi);
  }

  lemma {:induction false} SumBounds(xs: seq<real>, lo: real, hi: real)
    requires forall i :: 0 <= i < |xs| ==> lo <= xs[i] <= hi
    ensures (|xs| as real) * lo <= Sum(xs) <= (|xs| as real) * hi
  {
    if xs != [] {
      SumBounds(xs[..|xs| - 1], lo, hi);
    }
  }

  /**
   * The forecast for one delta on the time-series path: the simple forecast when the category
   * has no history; otherwise the history mean plus the delta, give or take two standard deviations.
   */
  function TimeseriesForecast(table: seq<HistoryRow>, d: BudgetDelta, std: seq<real> -> real): (f: ForecastResult)
    ensures f.subcategory == d.category && Symmetric(f)
    ensures |History(table, d.category)| == 0 ==> f == SimpleForecast(d)
    ensures |History(table, d.category)| > 0 ==>
      var h := History(table, d.category);
      f.amount == Mean(h) + d.delta && f.upper - f.amount == 2.0 * std(h)
  {
    var h := History(table, d.category);
    if |h| == 0 then SimpleForecast(d)
    else
      var amount := Mean(h) + d.delta;
      ForecastResult(d.category, amount, amount - 2.0 * std(h), amount + 2.0 * std(h))
  }

  /** `_generate_timeseries_forecasts`: one forecast per category, a later delta replacing an earlier one. */
  function TimeseriesForecasts(table: seq<HistoryRow>, deltas: seq<BudgetDelta>, std: seq<real> -> real): map<string, ForecastResult> {
    if deltas == [] then map[]
    else
      var init := deltas[..|deltas| - 1];
      var d := deltas[|deltas| - 1];
      TimeseriesForecasts(table, init, std)[d.category := TimeseriesForecast(table, d, std)]
  }

  /** One time-series forecast per category of the deltas, labelled with it, with a symmetric interval. */
  lemma {:induction false} TimeseriesForecastsShape(table: seq<HistoryRow>, deltas: seq<BudgetDelta>, std: seq<real> -> real)
    ensures TimeseriesForecasts(table, deltas, std).Keys == Categories(deltas)
    ensures forall c :: c in TimeseriesForecasts(table, deltas, std) ==>
      TimeseriesForecasts(table, deltas, std)[c].subcategory == c && Symmetric(TimeseriesForecasts(table, deltas, std)[c])
  {
    if deltas != [] {
      var init := deltas[..|deltas| - 1];
      assert deltas == init + [deltas[|deltas| - 1]];
      TimeseriesForecastsShape(table, init, std);
    }
  }

  // ---------------------------------------------------------------------------------------
  // generate_forecasts

  /** A delta as passed in: a BudgetDelta, or a dictionary whose keys may be missing. */
  datatype DeltaInput =
    | Given(delta: BudgetDelta)
    | Dict(category: Option<string>, oldAmount: Option<real>, newAmount: Option<real>, change: Option<real>)

  /** The BudgetDelta of an input; a missing key raises KeyError, the keys read in source order. */
  function ToDelta(x: DeltaInput): Result<BudgetDelta, string> {
    match x
    case Given(d) => Success(d)
    case Dict(c, o, n, d) =>
      if c.None? then Failure("'category'")
      else if o.None? then Failure("'old_amount'")
      else if n.None? then Failure("'new_amount'")
      else if d.None? then Failure("'delta'")
      else Success(BudgetDelta(c.value, o.value, n.value, d.value))
  }

  /** The conversion loop: the first input that cannot be converted aborts with its KeyError. */
  function ToDeltas(xs: seq<DeltaInput>): (r: Result<seq<BudgetDelta>, string>)
    ensures r.Success? <==> forall i :: 0 <= i < |xs| ==> ToDelta(xs[i]).Success?
    ensures r.Success? ==> |r.value| == |xs| && forall i :: 0 <= i < |xs| ==> r.value[i] == ToDelta(xs[i]).value
  {
    if xs == [] then Success([])
    else
      var init := ToDeltas(xs[..|xs| - 1]);
      assert forall i :: 0 <= i < |xs| - 1 ==> xs[..|xs| - 1][i] == xs[i];
      if init.Failure? then Failure(init.error)
      else
        match ToDelta(xs[|xs| - 1])
        case Failure(e) => Failure(e)
        case Success(d) => Success(init.value + [d])
  }

  /** `generate_forecasts`: convert the inputs, then use the simple path iff the table is empty. */
  function Forecasts(table: seq<HistoryRow>, xs: seq<DeltaInput>, std: seq<real> -> real): Result<map<string, ForecastResult>, string> {
    match ToDeltas(xs)
    case Failure(e) => Failure(e)
    case Success(ds) => Success(if |table| == 0 then SimpleForecasts(ds) else TimeseriesForecasts(table, ds, std))
  }

  /**
   * Whatever path is taken, there is one forecast per category of the deltas, labelled with
   * that category, with an interval centred on the forecast.
   */
  lemma ForecastsShape(table: seq<HistoryRow>, xs: seq<DeltaInput>, std: seq<real> -> real)
    requires Forecasts(table, xs, std).Success?
    ensures
      var m := Forecasts(table, xs, std).value;
      && m.Keys == Categories(ToDeltas(xs).value)
      && forall c :: c in m ==> m[c].subcategory == c && Symmetric(m[c])
  {
    if |table| == 0 {
      SimpleForecastsShape(ToDeltas(xs).value);
    } else {
      TimeseriesForecastsShape(table, ToDeltas(xs).value, std);
    }
  }

  lemma {:induction false} SimpleForecastsShape(ds: seq<BudgetDelta>)
    ensures forall c :: c in SimpleForecasts(ds) ==> SimpleForecasts(ds)[c].subcategory == c && Symmetric(SimpleForecasts(ds)[c])
  {
    if ds != [] {
      SimpleForecastsShape(ds[..|ds| - 1]);
    }
  }

  /** On the time-series path a delta whose category has no history gets exactly the simple forecast. */
  lemma {:induction false} NoHistoryFallsBack(table: seq<HistoryRow>, deltas: seq<BudgetDelta>, std: seq<real> -> real, i: nat)
    requires i < |deltas| && |History(table, deltas[i].category)| == 0
    requires forall j :: i < j < |deltas| ==> deltas[j].category != deltas[i].category
    ensures deltas[i].category in TimeseriesForecasts(table, deltas, std)
    ensures TimeseriesForecasts(table, deltas, std)[deltas[i].category] == SimpleForecast(deltas[i])
  {
    if i < |deltas| - 1 {
      NoHistoryFallsBack(table, deltas[..|deltas| - 1], std, i);
    }
  }

  // ---------------------------------------------------------------------------------------
  // The forecaster and its model cache

  /** The cache after `train_model`: unchanged when the category is cached or has no rows. */
  function Trained(models: map<string, Model>, table: seq<HistoryRow>, category: string): (m: map<string, Model>)
    ensures category in m <==> category in models || |History(table, category)| > 0
    ensures forall c :: c != category ==> (c in m <==> c in models) && (c in models ==> m[c] == models[c])
    ensures category in models ==> m[category] == models[category]
  {
    if category in models || |History(table, category)| == 0 then models
    else models[category := Model(RowsOf(table, category))]
  }

  /** The rows of one category (`prepare_data`). */
  function RowsOf(table: seq<HistoryRow>, category: string): seq<HistoryRow> {
    if table == [] then []
    else
      var init := RowsOf(table[..|table| - 1], category);
      if table[|table| - 1].subcategory == category then init + [table[|table| - 1]] else init
  }

  /** The ValueError Prophet's `fit` raises on a history of fewer than two rows. */
  const FitTooFewRows := "Dataframe has less than 2 non-NaN rows."

  /**
   * `train_model` on the forecaster's state: a category not yet cached raises KeyError on the
   * subcategory column when the table failed to load (it has no columns), and fitting raises
   * when the category has exactly one row (an empty one is skipped); otherwise the cache is
   * trained.
   */
  function TrainOutcome(models: map<string, Model>, loaded: bool, table: seq<HistoryRow>, category: string): Result<map<string, Model>, string> {
    if category !in models && !loaded then Failure("'Subcategory'")
    else if category !in models && |History(table, category)| == 1 then Failure(FitTooFewRows)
    else Success(Trained(models, table, category))
  }

  /**
   * Training fails exactly for an uncached category that has no table or a single row;
   * when it succeeds the cache grows only by a category with at least two rows.
   */
  lemma TrainOutcomeCases(models: map<string, Model>, loaded: bool, table: seq<HistoryRow>, category: string)
    ensures TrainOutcome(models, loaded, table, category).Failure?
      <==> category !in models && (!loaded || |History(table, category)| == 1)
    ensures TrainOutcome(models, loaded, table, category).Success? ==>
      var m := TrainOutcome(models, loaded, table, category).value;
      (category in m <==> category in models || |History(table, category)| >= 2)
  {
  }

  /**
   * Without a loaded table only the cached categories can be forecast: every other one
   * raises, and the cache never grows.
   */
  lemma FailedLoadNeverTrains(models: map<string, Model>, category: string)
    ensures TrainOutcome(models, false, [], category).Failure? <==> category !in models
    ensures TrainOutcome(models, false, [], category).Success? ==> TrainOutcome(models, false, [], category).value == models
  {
  }

  /** Training twice is training once. */
  lemma TrainedIdempotent(models: map<string, Model>, table: seq<HistoryRow>, category: string)
    ensures Trained(Trained(models, table, category), table, category) == Trained(models, table, category)
  {
  }

  /** The zero forecast returned when no model can be trained. */
  function ZeroForecast(category: string): ForecastResult {
    ForecastResult(category, 0.0, 0.0, 0.0)
  }

  /** The last predicted row of a model over some horizon, as a forecast for the category. */
  function Predicted(model: Model, category: string, periods: int, predict: (Model, int) -> (real, real, real)): ForecastResult {
    var p := predict(model, periods);
    ForecastResult(category, p.0, p.1, p.2)
  }

  class Forecaster {
    /** The history table, read once at construction (empty when the read failed). */
    const table: seq<HistoryRow>
    /** False when reading the file failed and the table is `pd.DataFrame()`, without columns. */
    const loaded: bool
    /** The fitted models by category. */
    var models: map<string, Model>

    /** Starts from the table read from the file, or `None` when reading it failed. */
    constructor(data: Option<seq<HistoryRow>>)
      ensures table == (if data.Some? then data.value else []) && loaded == data.Some?
      ensures models == map[]
    {
      table := if data.Some? then data.value else [];
      loaded := data.Some?;
      models := map[];
    }

    /** `train_model`: fits and caches a model for a category that is neither cached nor empty; a single row does not fit. */
    method TrainModel(category: string) returns (error: Option<string>)
      modifies this
      ensures var t := TrainOutcome(old(models), loaded, table, category);
        && (t.Failure? ==> error == Some(t.error) && models == old(models))
        && (t.Success? ==> error == None && models == t.value)
    {
      error := None;
      if category !in models {
        if !loaded {
          return Some("'Subcategory'");
        }
        var df := RowsOf(table, category);
        RowsOfHistory(table, category);
        if |df| > 0 {
          if |df| < 2 {
            return Some(FitTooFewRows);
          }
          models := models[category := Model(df)];
        }
      }
    }

    /**
     * `forecast`: trains if needed; the zero forecast when there is still no model. Training
     * raises for an uncached category when the table failed to load or the category has one row.
     */
    method Forecast(category: string, periods: int, predict: (Model, int) -> (real, real, real)) returns (r: Result<ForecastResult, string>)
      modifies this
      ensures var t := TrainOutcome(old(models), loaded, table, category);
        && (t.Failure? ==> r == Failure(t.error) && models == old(models))
        && (t.Success? ==> models == t.value && r.Success?)
      ensures r.Success? && category in models ==> r.value == Predicted(models[category], category, periods, predict)
      ensures r.Success? && category !in models ==> r.value == ZeroForecast(category)
    {
      if category !in models {
        var error := TrainModel(category);
        if error.Some? {
          return Failure(error.value);
        }
      }
      if category !in models {
        return Success(ZeroForecast(category));
      }
      r := Success(Predicted(models[category], category, periods, predict));
    }

    /** `apply_deferral`: like `forecast`, over a horizon of the deferral's months. */
    method ApplyDeferral(category: string, deferMonths: int, predict: (Model, int) -> (real, real, real)) returns (r: Result<ForecastResult, string>)
      modifies this
      ensures var t := TrainOutcome(old(models), loaded, table, category);
        && (t.Failure? ==> r == Failure(t.error) && models == old(models))
        && (t.Success? ==> models == t.value && r.Success?)
      ensures r.Success? && category in models ==> r.value == Predicted(models[category], category, deferMonths, predict)
      ensures r.Success? && category !in models ==> r.value == ZeroForecast(category)
    {
      if category !in models {
        var error := TrainModel(category);
        if error.Some? {
          return Failure(error.value);
        }
      }
      if category !in models {
        return Success(ZeroForecast(category));
      }
      r := Success(Predicted(models[category], category, deferMonths, predict));
    }

    /** `_generate_timeseries_forecasts`: fills the forecast dictionary one delta at a time. */
    method GenerateTimeseriesForecasts(deltas: seq<BudgetDelta>, std: seq<real> -> real) returns (forecasts: map<string, ForecastResult>)
      ensures forecasts == TimeseriesForecasts(table, deltas, std)
    {
      forecasts := map[];
      for i := 0 to |deltas|
        invariant forecasts == TimeseriesForecasts(table, deltas[..i], std)
      {
        TimeseriesStep(table, deltas, i, std);
        var d := deltas[i];
        var h := History(table, d.category);
        if |h| == 0 {
          forecasts := forecasts[d.category := SimpleForecast(d)];
          continue;
        }
        var mean := Mean(h);
        var s := std(h);
        var amount := mean + d.delta;
        var f := ForecastResult(d.category, amount, amount - 2.0 * s, amount + 2.0 * s);
        assert f == TimeseriesForecast(table, d, std);
        forecasts := forecasts[d.category := f];
      }
      assert deltas[..|deltas|] == deltas;
    }

    /** `generate_forecasts`: converts the inputs in one pass, then dispatches on the table. */
    method GenerateForecasts(xs: seq<DeltaInput>, std: seq<real> -> real) returns (r: Result<map<string, ForecastResult>, string>)
      ensures r == Forecasts(table, xs, std)
    {
      var processed: seq<BudgetDelta> := [];
      for i := 0 to |xs|
        invariant ToDeltas(xs[..i]).Success? && processed == ToDeltas(xs[..i]).value
      {
        assert xs[..i + 1][..i] == xs[..i];
        var d := ToDelta(xs[i]);
        if d.Failure? {
          ToDeltasFailurePersists(xs, i + 1);
          assert xs[..i + 1] == xs[..i + 1];
          return Failure(d.error);
        }
        processed := processed + [d.value];
      }
      assert xs[..|xs|] == xs;
      if |table| > 0 {
        var m := GenerateTimeseriesForecasts(processed, std);
        return Success(m);
      }
      return Success(SimpleForecasts(processed));
    }
  }

  /** One more delta replaces (or adds) the forecast of its category. */
  lemma TimeseriesStep(table: seq<HistoryRow>, deltas: seq<BudgetDelta>, i: nat, std: seq<real> -> real)
    requires i < |deltas|
    ensures TimeseriesForecasts(table, deltas[..i + 1], std)
         == TimeseriesForecasts(table, deltas[..i], std)[deltas[i].category := TimeseriesForecast(table, deltas[i], std)]
  {
    assert deltas[..i + 1][..i] == deltas[..i];
  }

  lemma {:induction false} RowsOfHistory(table: seq<HistoryRow>, category: string)
    ensures |RowsOf(table, category)| == |History(table, category)|
  {
    if table != [] {
      RowsOfHistory(table[..|table| - 1], category);
    }
  }

  /** Once a prefix fails to convert, every longer prefix fails with the same KeyError. */
  lemma {:induction false} ToDeltasFailurePersists(xs: seq<DeltaInput>, n: nat)
    requires n <= |xs| && ToDeltas(xs[..n]).Failure?
    decreases |xs| - n
    ensures ToDeltas(xs) == ToDeltas(xs[..n])
  {
    if n == |xs| {
      assert xs[..n] == xs;
    } else {
      assert xs[..n + 1][..n] == xs[..n];
      ToDeltasFailurePersists(xs, n + 1);
    }
  }
}
