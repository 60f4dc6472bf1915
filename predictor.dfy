/**
 * The forecast side of the application: loading a trained model through an in-memory
 * cache, forecasting the next days from today, correcting the forecast with today's
 * observed AQI by a decaying residual, and presenting the forecast to the dashboard.
 * Calendar days are integers; a trained model is an oracle from day to forecast value.
 */
module Predictor {
  import opened Wrappers
  import opened PyNum
  import opened Exceptions
  import opened PyJson
  import opened Http
  import opened ProphetModels
  import AqicnClient
  import AqiInfo
  import Train

  const MODEL_VERSION: string := "v2"
  const DEFAULT_FORECAST_DAYS: int := 5
  const RESIDUAL_DECAY_FACTOR: real := 0.85

  // ---- the model cache ----

  /** `f"{city_name}_{version}"`, the cache key of a model. */
  function CacheKey(city: string, version: string): string {
    city + "_" + version
  }

  /** `os.path.join(models_dir, filename)` for a plain file name. */
  function ModelPath(modelsDir: string, filename: string): (path: string)
    ensures |path| >= |filename| && path[|path| - |filename|..] == filename
  {
    if modelsDir == [] || modelsDir[|modelsDir| - 1] == '/' then modelsDir + filename
    else modelsDir + "/" + filename
  }

  /** What `load_prophet_model(city, version)` answers given the cache and the models directory. */
  function LoadOutcome(cache: map<string, ProphetModel>, modelsDir: string, city: string, version: string,
                       files: map<string, StoredFile>): (r: Result<ProphetModel, Exc>)
    ensures CacheKey(city, version) in cache ==> r == Ok(cache[CacheKey(city, version)])
    ensures r.Err? ==> r.error.cls == ModelFileNotFoundError || r.error.cls == ModelLoadError
    ensures CacheKey(city, version) !in cache ==>
      (r.Ok? <==> ModelFilename(city, version) in files && files[ModelFilename(city, version)].Stored?)
  {
    var key := CacheKey(city, version);
    if key in cache then Ok(cache[key])
    else
      var filename := ModelFilename(city, version);
      var path := ModelPath(modelsDir, filename);
      if filename !in files || files[filename].Absent? then
        Err(Raised(ModelFileNotFoundError, "Model file not found: " + path))
      else
        match files[filename]
        case Unreadable(reason) =>
          Err(Raised(ModelLoadError, "Error loading model for " + city + " from " + path + ": " + reason))
        case Stored(model) => Ok(model)
  }

  /** The cache after a load: only a model read from storage adds an entry. */
  function CacheAfter(cache: map<string, ProphetModel>, key: string, outcome: Result<ProphetModel, Exc>): (c: map<string, ProphetModel>)
    ensures key in cache || outcome.Err? ==> c == cache
    ensures key !in cache && outcome.Ok? ==> c == cache[key := outcome.value]
  {
    if key in cache || outcome.Err? then cache else cache[key := outcome.value]
  }

  /** The module-level `_loaded_models_cache` and the models directory it reads from. */
  class ModelRegistry {
    const modelsDir: string
    var cache: map<string, ProphetModel>
    /** How many times a model file has been looked up in storage. */
    var storageReads: nat

    constructor(modelsDir: string)
      ensures this.modelsDir == modelsDir && cache == map[] && storageReads == 0
    {
      this.modelsDir := modelsDir;
      cache := map[];
      storageReads := 0;
    }

    /** `load_prophet_model(city, version)` over the files of the models directory. */
    method LoadProphetModel(city: string, version: string, files: map<string, StoredFile>) returns (r: Result<ProphetModel, Exc>)
      modifies this
      ensures r == LoadOutcome(old(cache), modelsDir, city, version, files)
      ensures cache == CacheAfter(old(cache), CacheKey(city, version), r)
      ensures storageReads == old(storageReads) + (if CacheKey(city, version) in old(cache) then 0 else 1)
    {
      var key := CacheKey(city, version);
      if key in cache {
        return Ok(cache[key]);
      }
      storageReads := storageReads + 1;
      var filename := ModelFilename(city, version);
      var path := ModelPath(modelsDir, filename);
      if filename !in files || files[filename].Absent? {
        return Err(Raised(ModelFileNotFoundError, "Model file not found: " + path));
      }
      match files[filename]
      case Unreadable(reason) =>
        r := Err(Raised(ModelLoadError, "Error loading model for " + city + " from " + path + ": " + reason));
      case Stored(model) =>
        cache := cache[key := model];
        r := Ok(model);
    }
  }

  /** Once cached, a model is answered from the cache whatever the storage now holds. */
  lemma CachedModelIgnoresStorage(cache: map<string, ProphetModel>, modelsDir: string, city: string, version: string,
                                  files: map<string, StoredFile>, model: ProphetModel)
    requires LoadOutcome(cache, modelsDir, city, version, files) == Ok(model)
    ensures var cache' := CacheAfter(cache, CacheKey(city, version), Ok(model));
      forall other: map<string, StoredFile> :: LoadOutcome(cache', modelsDir, city, version, other) == Ok(model)
  {
  }

  /** A failed load leaves the cache as it was, so the next call looks at storage again. */
  lemma FailedLoadIsNotCached(cache: map<string, ProphetModel>, modelsDir: string, city: string, version: string,
                              files: map<string, StoredFile>)
    requires LoadOutcome(cache, modelsDir, city, version, files).Err?
    ensures CacheAfter(cache, CacheKey(city, version), LoadOutcome(cache, modelsDir, city, version, files)) == cache
    ensures CacheKey(city, version) !in cache
  {
  }

  /** A missing model file is reported with its path. */
  lemma MissingModelFile(cache: map<string, ProphetModel>, modelsDir: string, city: string, version: string,
                         files: map<string, StoredFile>)
    requires CacheKey(city, version) !in cache && ModelFilename(city, version) !in files
    ensures LoadOutcome(cache, modelsDir, city, version, files)
         == Err(Raised(ModelFileNotFoundError, "Model file not found: " + ModelPath(modelsDir, ModelFilename(city, version))))
  {
  }

  /** The model the training script saves is the one a fresh predictor loads. */
  lemma SavedModelIsLoaded(model: ProphetModel, city: string, version: string, modelsDir: string,
                           files: map<string, StoredFile>, writeError: string -> Option<string>)
    requires Train.SaveModel(Some(model), city, version, files, writeError).Ok?
    ensures LoadOutcome(map[], modelsDir, city, version, Train.SaveModel(Some(model), city, version, files, writeError).value)
         == Ok(model)
  {
  }

  /**
   * The cache key joins city and version with '_' just as city names may, so two different
   * (city, version) pairs can share one entry while their model files differ.
   */
  lemma CacheKeyIsAmbiguous()
    ensures CacheKey("New_Delhi", "v2") == CacheKey("New", "Delhi_v2")
    ensures ModelFilename("New_Delhi", "v2") != ModelFilename("New", "Delhi_v2")
  {
    assert ModelFilename("New_Delhi", "v2")[3] == '_';
    assert ModelFilename("New", "Delhi_v2")[3] == '_';
    assert ModelFilename("New_Delhi", "v2")[4] == 'D';
    assert ModelFilename("New", "Delhi_v2")[4] == 'p';
  }

  // ---- the forecast window ----

  /** One row of the forecast frame. */
  datatype ForecastRow = ForecastRow(ds: int, yhat: real, yhatLower: real, yhatUpper: real, residual: real, yhatAdjusted: real)

  /** `today_ds_ref`: today, or the last training day when today is earlier. */
  function ReferenceDay(today: int, lastTrainDay: int): (ref: int)
    ensures ref >= today && ref >= lastTrainDay && (ref == today || ref == lastTrainDay)
  {
    if today < lastTrainDay then lastTrainDay else today
  }

  /** The consecutive days from `lo` to `hi`, both included. */
  function Days(lo: int, hi: int): (ds: seq<int>)
    ensures |ds| == if hi >= lo then hi - lo + 1 else 0
    ensures forall k :: 0 <= k < |ds| ==> ds[k] == lo + k
  {
    seq(if hi >= lo then hi - lo + 1 else 0, k requires 0 <= k => lo + k)
  }

  /** The days of `ds` from `lo` to `hi`, in order. */
  function DaysBetween(ds: seq<int>, lo: int, hi: int): (r: seq<int>)
  {
    if ds == [] then []
    else
      var d := ds[|ds| - 1];
      DaysBetween(ds[..|ds| - 1], lo, hi) + (if lo <= d <= hi then [d] else [])
  }

  /** Keeping the days of a run between two bounds keeps the run's overlap with them. */
  lemma {:induction false} DaysBetweenDays(lo: int, hi: int, a: int, b: int)
    ensures DaysBetween(Days(lo, hi), a, b) == Days(if lo < a then a else lo, if hi < b then hi else b)
    decreases hi - lo
  {
    if hi >= lo {
      assert Days(lo, hi)[..hi - lo] == Days(lo, hi - 1);
      DaysBetweenDays(lo, hi - 1, a, b);
    }
  }

  /** `trained_model.predict(future)` before correction: `yhat_adjusted` is `yhat`, the residual 0. */
  function Predicted(model: ProphetModel, ds: seq<int>): (rows: seq<ForecastRow>)
    ensures |rows| == |ds|
    ensures forall k :: 0 <= k < |ds| ==>
      rows[k] == ForecastRow(ds[k], model.yhat(ds[k]), model.yhatLower(ds[k]), model.yhatUpper(ds[k]), 0.0, model.yhat(ds[k]))
  {
    seq(|ds|, k requires 0 <= k < |ds| =>
      ForecastRow(ds[k], model.yhat(ds[k]), model.yhatLower(ds[k]), model.yhatUpper(ds[k]), 0.0, model.yhat(ds[k])))
  }

  /** The rows whose day lies from `lo` to `hi`, in order. */
  function RowsBetween(rows: seq<ForecastRow>, lo: int, hi: int): (r: seq<ForecastRow>)
  {
    if rows == [] then []
    else
      var row := rows[|rows| - 1];
      RowsBetween(rows[..|rows| - 1], lo, hi) + (if lo <= row.ds <= hi then [row] else [])
  }

  /** Slicing predicted rows by day is predicting the sliced days. */
  lemma {:induction false} RowsBetweenPredicted(model: ProphetModel, ds: seq<int>, lo: int, hi: int)
    ensures RowsBetween(Predicted(model, ds), lo, hi) == Predicted(model, DaysBetween(ds, lo, hi))
  {
    if ds != [] {
      var n := |ds| - 1;
      assert Predicted(model, ds)[..n] == Predicted(model, ds[..n]);
      RowsBetweenPredicted(model, ds[..n], lo, hi);
    }
  }

  /** The uncorrected forecast: the full prediction past the training data, and the target slice. */
  datatype Window = Window(full: seq<ForecastRow>, target: seq<ForecastRow>)

  /** `make_future_dataframe(periods, include_history=False)` kept past the training data. */
  function FutureDays(lastTrainDay: int, periods: int): seq<int> {
    DaysBetween(Days(lastTrainDay + 1, lastTrainDay + periods), lastTrainDay + 1, lastTrainDay + periods)
  }

  /** The part of `generate_forecast` that predicts and slices, or None when there is nothing to show. */
  function ForecastWindow(model: ProphetModel, today: int, daysAhead: int): (w: Option<Window>)
  {
    var ref := ReferenceDay(today, model.lastTrainDay);
    var periods := ref - model.lastTrainDay + daysAhead;
    if periods <= 0 then None
    else
      var future := FutureDays(model.lastTrainDay, periods);
      if future == [] then None
      else
        var full := Predicted(model, future);
        var target := RowsBetween(full, today + 1, today + daysAhead);
        if target == [] then None else Some(Window(full, target))
  }

  /** The future days are the days after training up to `days_ahead` past the reference day. */
  lemma FutureDaysAre(lastTrainDay: int, periods: int)
    ensures FutureDays(lastTrainDay, periods) == Days(lastTrainDay + 1, lastTrainDay + periods)
  {
    DaysBetweenDays(lastTrainDay + 1, lastTrainDay + periods, lastTrainDay + 1, lastTrainDay + periods);
  }

  /** The target slice is the days after both today and the training data, up to `days_ahead` past today. */
  lemma TargetDaysAre(model: ProphetModel, today: int, daysAhead: int)
    requires ReferenceDay(today, model.lastTrainDay) - model.lastTrainDay + daysAhead > 0
    ensures var ref := ReferenceDay(today, model.lastTrainDay);
      RowsBetween(Predicted(model, FutureDays(model.lastTrainDay, ref - model.lastTrainDay + daysAhead)), today + 1, today + daysAhead)
        == Predicted(model, Days(ref + 1, today + daysAhead))
  {
    var last := model.lastTrainDay;
    var ref := ReferenceDay(today, last);
    FutureDaysAre(last, ref - last + daysAhead);
    SliceOfPrediction(model, last + 1, ref + daysAhead, today + 1, today + daysAhead);
  }

  /** Slicing the prediction of a run of days keeps the prediction of the run's overlap with the slice. */
  lemma SliceOfPrediction(model: ProphetModel, lo: int, hi: int, a: int, b: int)
    ensures RowsBetween(Predicted(model, Days(lo, hi)), a, b)
         == Predicted(model, Days(if lo < a then a else lo, if hi < b then hi else b))
  {
    RowsBetweenPredicted(model, Days(lo, hi), a, b);
    DaysBetweenDays(lo, hi, a, b);
  }

  /**
   * A forecast exists exactly when some day after both today and the training data lies
   * within `days_ahead` of today; its rows are those days, in order, each with the model's value.
   */
  lemma ForecastWindowDays(model: ProphetModel, today: int, daysAhead: int)
    ensures var first := ReferenceDay(today, model.lastTrainDay) + 1;
      && (ForecastWindow(model, today, daysAhead).Some? <==> first <= today + daysAhead)
      && (ForecastWindow(model, today, daysAhead).Some? ==>
            ForecastWindow(model, today, daysAhead).value.target == Predicted(model, Days(first, today + daysAhead)))
      && (ForecastWindow(model, today, daysAhead).Some? ==>
            ForecastWindow(model, today, daysAhead).value.full == Predicted(model, Days(model.lastTrainDay + 1, first - 1 + daysAhead)))
  {
    var last := model.lastTrainDay;
    var ref := ReferenceDay(today, last);
    var periods := ref - last + daysAhead;
    if periods > 0 {
      FutureDaysAre(last, periods);
      TargetDaysAre(model, today, daysAhead);
      assert |Days(ref + 1, today + daysAhead)| > 0 ==> |Days(last + 1, last + periods)| > 0;
    }
  }

  /** Every forecast row lies after the training data and within `days_ahead` of today. */
  lemma ForecastRowsInWindow(model: ProphetModel, today: int, daysAhead: int)
    requires ForecastWindow(model, today, daysAhead).Some?
    ensures forall row :: row in ForecastWindow(model, today, daysAhead).value.target ==>
      model.lastTrainDay < row.ds && today + 1 <= row.ds <= today + daysAhead
  {
    ForecastWindowDays(model, today, daysAhead);
  }

  /** With no positive number of periods there is no forecast. */
  lemma NoPeriodsNoForecast(model: ProphetModel, today: int, daysAhead: int)
    requires ReferenceDay(today, model.lastTrainDay) - model.lastTrainDay + daysAhead <= 0
    ensures ForecastWindow(model, today, daysAhead) == None
  {
  }

  // ---- the residual correction ----

  /** `yhat` of the first full-forecast row for the reference day, if there is one. */
  function ReferencePrediction(full: seq<ForecastRow>, ref: int): (p: Option<real>)
    ensures p.Some? <==> exists k :: 0 <= k < |full| && full[k].ds == ref
  {
    if full == [] then None
    else if full[0].ds == ref then Some(full[0].yhat)
    else
      assert forall k :: 1 <= k < |full| ==> full[k] == full[1..][k - 1];
      ReferencePrediction(full[1..], ref)
  }

  /** The model has a prediction for the reference day exactly when today is after its training data. */
  lemma ReferencePredictionExists(model: ProphetModel, today: int, daysAhead: int)
    requires ForecastWindow(model, today, daysAhead).Some?
    ensures var w := ForecastWindow(model, today, daysAhead).value;
      && (ReferencePrediction(w.full, ReferenceDay(today, model.lastTrainDay)).Some? <==> today > model.lastTrainDay)
      && (today > model.lastTrainDay ==> ReferencePrediction(w.full, today) == Some(model.yhat(today)))
  {
    ForecastWindowDays(model, today, daysAhead);
    var w := ForecastWindow(model, today, daysAhead).value;
    if today > model.lastTrainDay {
      var k := today - model.lastTrainDay - 1;
      assert w.full[k].ds == today;
      FirstRowFor(w.full, today, k);
    }
  }

  lemma {:induction false} FirstRowFor(full: seq<ForecastRow>, ref: int, k: nat)
    requires k < |full| && full[k].ds == ref
    requires forall j :: 0 <= j < k ==> full[j].ds != ref
    ensures ReferencePrediction(full, ref) == Some(full[k].yhat)
  {
    if k > 0 {
      FirstRowFor(full[1..], ref, k - 1);
    }
  }

  /** `actual_today`: the supplied value, or the live AQI; None when `float()` of it raises. */
  function ActualToday(lastKnownAqi: Json, live: AqicnClient.CurrentAqi): (a: Option<real>)
    ensures lastKnownAqi != JNull ==> (a.Some? <==> PyFloat(lastKnownAqi).Ok?)
    ensures lastKnownAqi == JNull ==> (a.Some? <==> live.aqi.Some?)
    ensures lastKnownAqi == JNull && live.aqi.Some? ==> a == Some(live.aqi.value as real)
  {
    if lastKnownAqi != JNull then
      match PyFloat(lastKnownAqi)
      case Ok(v) => Some(v)
      case Err(_) => None
    else
      match live.aqi
      case Some(n) => Some(n as real)
      case None => None
  }

  /** The residual of row k: the base residual times the decay factor to the power k. */
  function Residual(base: real, decay: real, k: nat): real {
    base * Pow(decay, k)
  }

  /** The residuals of n rows. */
  function DecayedResiduals(base: real, decay: real, n: nat): (rs: seq<real>)
    ensures |rs| == n
  {
    seq(n, k requires 0 <= k => Residual(base, decay, k))
  }

  /** The correction loop: one residual per forecast row, the decay applied after each. */
  method DecayingResiduals(base: real, decay: real, n: nat) returns (rs: seq<real>)
    ensures rs == DecayedResiduals(base, decay, n)
  {
    rs := [];
    var currentDecay := 1.0;
    for i := 0 to n
      invariant |rs| == i
      invariant currentDecay == Pow(decay, i)
      invariant forall k :: 0 <= k < i ==> rs[k] == Residual(base, decay, k)
    {
      var r := base * currentDecay;
      assert r == Residual(base, decay, i);
      rs := rs + [r];
      currentDecay := NextDecay(decay, i, currentDecay);
    }
    assert rs == DecayedResiduals(base, decay, n);
  }

  /** `current_decay *= decay_factor` keeps `current_decay` the decay factor to the power of the row. */
  function NextDecay(decay: real, i: nat, current: real): (next: real)
    requires current == Pow(decay, i)
    ensures next == Pow(decay, i + 1)
  {
    current * decay
  }

  /** `forecast['residual'] = residuals; forecast['yhat_adjusted'] = (yhat + residual).clip(lower=0)` */
  function Corrected(rows: seq<ForecastRow>, residuals: seq<real>): (r: seq<ForecastRow>)
    requires |residuals| == |rows|
    ensures |r| == |rows|
    ensures forall k :: 0 <= k < |rows| ==>
      && r[k].ds == rows[k].ds && r[k].yhat == rows[k].yhat
      && r[k].yhatLower == rows[k].yhatLower && r[k].yhatUpper == rows[k].yhatUpper
      && r[k].residual == residuals[k]
      && r[k].yhatAdjusted == ClipLow0(rows[k].yhat + residuals[k]) && r[k].yhatAdjusted >= 0.0
  {
    seq(|rows|, k requires 0 <= k < |rows| =>
      rows[k].(residual := residuals[k], yhatAdjusted := ClipLow0(rows[k].yhat + residuals[k])))
  }

  /** `generate_forecast` given the outcome of loading the model and the live-AQI answer it would get. */
  function ForecastFrom(load: Result<ProphetModel, Exc>, today: int, daysAhead: int, applyCorrection: bool,
                        lastKnownAqi: Json, live: AqicnClient.CurrentAqi, decay: real): (f: Option<seq<ForecastRow>>)
    ensures load.Err? ==> f.None?
  {
    match load
    case Err(_) => None
    case Ok(model) => ForecastOfModel(model, today, daysAhead, applyCorrection, lastKnownAqi, live, decay)
  }

  /** `generate_forecast` once the model is loaded. */
  function ForecastOfModel(model: ProphetModel, today: int, daysAhead: int, applyCorrection: bool,
                           lastKnownAqi: Json, live: AqicnClient.CurrentAqi, decay: real): (f: Option<seq<ForecastRow>>)
    ensures f.Some? <==> ForecastWindow(model, today, daysAhead).Some?
    ensures f.Some? ==> |f.value| == |ForecastWindow(model, today, daysAhead).value.target|
  {
    match ForecastWindow(model, today, daysAhead)
    case None => None
    case Some(w) =>
      if !applyCorrection then Some(w.target)
      else Some(AdjustedTarget(w, ReferenceDay(today, model.lastTrainDay), ActualToday(lastKnownAqi, live), decay))
  }

  /**
   * The residual correction of a window: unchanged when the model has no prediction for the
   * reference day or there is no observation, otherwise corrected by the decaying residual.
   */
  function AdjustedTarget(w: Window, ref: int, actual: Option<real>, decay: real): (rows: seq<ForecastRow>)
    ensures |rows| == |w.target|
  {
    match ReferencePrediction(w.full, ref)
    case None => w.target
    case Some(predicted) =>
      match actual
      case None => w.target
      case Some(a) => Corrected(w.target, DecayedResiduals(a - predicted, decay, |w.target|))
  }

  /** `get_current_aqi_for_city` with the AQICN token, base URL and transport of the environment. */
  function LiveClient(token: Option<string>, baseUrl: string, transport: string -> Response): (live: string -> AqicnClient.CurrentAqi)
  {
    city => AqicnClient.GetCurrentAqiForCity(city, token, baseUrl, transport)
  }

  /**
   * `generate_forecast(city, days_ahead, apply_residual_correction, last_known_aqi)`; `today` is
   * the current day and `liveAqi` the live client, `LiveClient` of the environment's settings.
   */
  method GenerateForecast(registry: ModelRegistry, city: string, version: string, files: map<string, StoredFile>,
                          today: int, daysAhead: int, applyCorrection: bool, lastKnownAqi: Json,
                          liveAqi: string -> AqicnClient.CurrentAqi, decay: real)
    returns (forecast: Option<seq<ForecastRow>>)
    modifies registry
    ensures var load := LoadOutcome(old(registry.cache), registry.modelsDir, city, version, files);
      && forecast == ForecastFrom(load, today, daysAhead, applyCorrection, lastKnownAqi, liveAqi(city), decay)
      && registry.cache == CacheAfter(old(registry.cache), CacheKey(city, version), load)
    ensures registry.storageReads == old(registry.storageReads) + (if CacheKey(city, version) in old(registry.cache) then 0 else 1)
  {
    var load := registry.LoadProphetModel(city, version, files);
    if load.Err? {
      return None;
    }
    forecast := ForecastWithModel(load.value, city, today, daysAhead, applyCorrection, lastKnownAqi, liveAqi, decay);
  }

  /** The body of `generate_forecast` after the model is loaded. */
  method ForecastWithModel(model: ProphetModel, city: string, today: int, daysAhead: int, applyCorrection: bool,
                           lastKnownAqi: Json, liveAqi: string -> AqicnClient.CurrentAqi, decay: real)
    returns (forecast: Option<seq<ForecastRow>>)
    ensures forecast == ForecastOfModel(model, today, daysAhead, applyCorrection, lastKnownAqi, liveAqi(city), decay)
  {
    var window := ForecastWindow(model, today, daysAhead);
    if window.None? {
      return None;
    }
    if !applyCorrection {
      return Some(window.value.target);
    }
    var rows := CorrectWindow(window.value, ReferenceDay(today, model.lastTrainDay), lastKnownAqi, liveAqi, city, decay);
    forecast := Some(rows);
  }

  /** The residual-correction block of `generate_forecast`; the live client is asked only when the model has a prediction for the reference day. */
  method CorrectWindow(w: Window, ref: int, lastKnownAqi: Json, liveAqi: string -> AqicnClient.CurrentAqi,
                       city: string, decay: real)
    returns (rows: seq<ForecastRow>)
    ensures rows == AdjustedTarget(w, ref, ActualToday(lastKnownAqi, liveAqi(city)), decay)
  {
    var predicted := ReferencePrediction(w.full, ref);
    if predicted.None? {
      return w.target;
    }
    var actual := ObservedToday(lastKnownAqi, liveAqi, city);
    if actual.None? {
      return w.target;
    }
    var residuals := DecayingResiduals(actual.value - predicted.value, decay, |w.target|);
    rows := Corrected(w.target, residuals);
  }

  /** The `actual_today` step: `float(last_known_aqi)` when supplied, otherwise the live client is asked. */
  method ObservedToday(lastKnownAqi: Json, liveAqi: string -> AqicnClient.CurrentAqi, city: string) returns (actual: Option<real>)
    ensures actual == ActualToday(lastKnownAqi, liveAqi(city))
  {
    actual := None;
    if lastKnownAqi != JNull {
      var parsed := PyFloat(lastKnownAqi);
      if parsed.Ok? {
        actual := Some(parsed.value);
      }
    } else {
      var live := liveAqi(city);
      if live.aqi.Some? {
        actual := Some(live.aqi.value as real);
      }
    }
  }

  /** A corrected row k carries the base residual decayed k times, added to `yhat` and clipped at zero. */
  lemma CorrectionDecays(model: ProphetModel, today: int, daysAhead: int, lastKnownAqi: Json,
                         live: AqicnClient.CurrentAqi, decay: real)
    requires today > model.lastTrainDay
    requires ForecastWindow(model, today, daysAhead).Some?
    requires ActualToday(lastKnownAqi, live).Some?
    ensures var f := ForecastFrom(Ok(model), today, daysAhead, true, lastKnownAqi, live, decay);
      var target := ForecastWindow(model, today, daysAhead).value.target;
      var base := ActualToday(lastKnownAqi, live).value - model.yhat(today);
      && f.Some? && |f.value| == |target|
      && forall k :: 0 <= k < |target| ==>
           && f.value[k].ds == target[k].ds && f.value[k].yhat == target[k].yhat
           && f.value[k].residual == Residual(base, decay, k)
           && f.value[k].yhatAdjusted == ClipLow0(target[k].yhat + Residual(base, decay, k))
           && f.value[k].yhatAdjusted >= 0.0
  {
    CorrectedForecast(model, today, daysAhead, lastKnownAqi, live, decay);
    var target := ForecastWindow(model, today, daysAhead).value.target;
    var base := ActualToday(lastKnownAqi, live).value - model.yhat(today);
    var rs := DecayedResiduals(base, decay, |target|);
    assert forall k :: 0 <= k < |target| ==> rs[k] == Residual(base, decay, k);
  }

  /** With an observation for today after the training data, the forecast is the corrected target slice. */
  lemma CorrectedForecast(model: ProphetModel, today: int, daysAhead: int, lastKnownAqi: Json,
                          live: AqicnClient.CurrentAqi, decay: real)
    requires today > model.lastTrainDay
    requires ForecastWindow(model, today, daysAhead).Some?
    requires ActualToday(lastKnownAqi, live).Some?
    ensures var target := ForecastWindow(model, today, daysAhead).value.target;
      var base := ActualToday(lastKnownAqi, live).value - model.yhat(today);
      ForecastFrom(Ok(model), today, daysAhead, true, lastKnownAqi, live, decay)
        == Some(Corrected(target, DecayedResiduals(base, decay, |target|)))
  {
    ReferencePredictionExists(model, today, daysAhead);
    var w := ForecastWindow(model, today, daysAhead).value;
    var actual := ActualToday(lastKnownAqi, live);
    assert ReferenceDay(today, model.lastTrainDay) == today;
    assert ForecastFrom(Ok(model), today, daysAhead, true, lastKnownAqi, live, decay)
        == ForecastOfModel(model, today, daysAhead, true, lastKnownAqi, live, decay);
    assert ForecastOfModel(model, today, daysAhead, true, lastKnownAqi, live, decay)
        == Some(AdjustedTarget(w, today, actual, decay));
    AdjustedWithPrediction(w, today, actual, decay, model.yhat(today));
  }

  /** With a prediction for the reference day and an observation, the window is corrected by their difference. */
  lemma AdjustedWithPrediction(w: Window, ref: int, actual: Option<real>, decay: real, predicted: real)
    requires ReferencePrediction(w.full, ref) == Some(predicted) && actual.Some?
    ensures AdjustedTarget(w, ref, actual, decay)
         == Corrected(w.target, DecayedResiduals(actual.value - predicted, decay, |w.target|))
  {
  }

  /**
   * The decay starts at the power 0: with a base residual of 30 and a factor of 0.85, forecast
   * values 130, 125 and 128 are corrected to 160, 150.5 and 149.675.
   */
  lemma DecayStartsAtFirstDay(rows: seq<ForecastRow>)
    requires |rows| == 3 && rows[0].yhat == 130.0 && rows[1].yhat == 125.0 && rows[2].yhat == 128.0
    ensures var r := Corrected(rows, DecayedResiduals(30.0, 0.85, 3));
      r[0].yhatAdjusted == 160.0 && r[1].yhatAdjusted == 150.5 && r[2].yhatAdjusted == 149.675
  {
    var rs := DecayedResiduals(30.0, 0.85, 3);
    assert Pow(0.85, 0) == 1.0;
    assert Pow(0.85, 1) == 0.85;
    assert Pow(0.85, 2) == 0.7225;
    assert rs[0] == 30.0 && rs[1] == 25.5 && rs[2] == 21.675;
  }

  /** Without correction every row keeps its model value: residual 0 and `yhat_adjusted == yhat`. */
  lemma UncorrectedRowsKeepYhat(model: ProphetModel, today: int, daysAhead: int, applyCorrection: bool,
                                lastKnownAqi: Json, live: AqicnClient.CurrentAqi, decay: real)
    requires ForecastWindow(model, today, daysAhead).Some?
    requires !applyCorrection || today <= model.lastTrainDay || ActualToday(lastKnownAqi, live).None?
    ensures var f := ForecastFrom(Ok(model), today, daysAhead, applyCorrection, lastKnownAqi, live, decay);
      && f == Some(ForecastWindow(model, today, daysAhead).value.target)
      && forall row :: row in f.value ==> row.residual == 0.0 && row.yhatAdjusted == row.yhat
  {
    ReferencePredictionExists(model, today, daysAhead);
    ForecastWindowDays(model, today, daysAhead);
  }

  /** A supplied `last_known_aqi` is used as is: the live client's answer makes no difference. */
  lemma SuppliedAqiSkipsClient(load: Result<ProphetModel, Exc>, today: int, daysAhead: int, applyCorrection: bool,
                               lastKnownAqi: Json, live1: AqicnClient.CurrentAqi, live2: AqicnClient.CurrentAqi, decay: real)
    requires lastKnownAqi != JNull
    ensures ForecastFrom(load, today, daysAhead, applyCorrection, lastKnownAqi, live1, decay)
         == ForecastFrom(load, today, daysAhead, applyCorrection, lastKnownAqi, live2, decay)
  {
    assert ActualToday(lastKnownAqi, live1) == ActualToday(lastKnownAqi, live2);
  }

  /** Without an AQICN token the live AQI is an error record, so no correction is applied. */
  lemma MissingTokenMeansNoCorrection(city: string, baseUrl: string, transport: string -> Response)
    ensures ActualToday(JNull, LiveClient(None, baseUrl, transport)(city)).None?
  {
  }

  /** With a decay factor strictly between 0 and 1 each later residual is strictly smaller in size. */
  lemma ResidualsShrink(base: real, decay: real, n: nat, k: nat)
    requires 0.0 < decay < 1.0 && base != 0.0 && k + 1 < n
    ensures Abs(DecayedResiduals(base, decay, n)[k + 1]) < Abs(DecayedResiduals(base, decay, n)[k])
  {
    PowShrinks(decay, k);
    var p, q := Pow(decay, k), Pow(decay, k + 1);
    if base > 0.0 {
      assert base * q < base * p;
    } else {
      assert base * q > base * p;
    }
  }

  // ---- presenting the forecast ----

  /** A row of a frame handed to `format_forecast_for_ui`; None stands for NaT / NaN. */
  datatype UiRow = UiRow(ds: Option<int>, yhatAdjusted: Option<real>)

  /** `{'date': ..., 'predicted_aqi': ...}`; the date is the calendar day. */
  datatype UiPoint = UiPoint(date: int, predictedAqi: int)

  function UiRowOf(row: ForecastRow): UiRow {
    UiRow(Some(row.ds), Some(row.yhatAdjusted))
  }

  /** The points `format_forecast_for_ui` emits for the rows, in order. */
  function UiPoints(rows: seq<UiRow>): (points: seq<UiPoint>)
    ensures |points| <= |rows|
  {
    if rows == [] then []
    else
      var row := rows[|rows| - 1];
      UiPoints(rows[..|rows| - 1])
        + (if row.ds.Some? && row.yhatAdjusted.Some? then [UiPoint(row.ds.value, RoundHalfEven(row.yhatAdjusted.value))] else [])
  }

  /** `format_forecast_for_ui(forecast_df)`: [] for a missing or empty frame, else one point per complete row. */
  method FormatForecastForUi(forecast: Option<seq<UiRow>>) returns (ui: seq<UiPoint>)
    ensures forecast.None? ==> ui == []
    ensures forecast.Some? ==> ui == UiPoints(forecast.value)
  {
    if forecast.None? || forecast.value == [] {
      return [];
    }
    var rows := forecast.value;
    ui := [];
    for i := 0 to |rows|
      invariant ui == UiPoints(rows[..i])
    {
      assert rows[..i + 1][..i] == rows[..i];
      var row := rows[i];
      if row.ds.Some? && row.yhatAdjusted.Some? {
        ui := ui + [UiPoint(row.ds.value, RoundHalfEven(row.yhatAdjusted.value))];
      }
    }
    assert rows[..|rows|] == rows;
  }

  /**
   * A generated forecast loses no row when formatted: point k is day k with its adjusted
   * value rounded to the nearest integer (ties to even).
   */
  lemma {:induction false} UiPointsOfForecast(rows: seq<ForecastRow>)
    ensures var points := UiPoints(seq(|rows|, k requires 0 <= k < |rows| => UiRowOf(rows[k])));
      && |points| == |rows|
      && forall k :: 0 <= k < |rows| ==>
           && points[k].date == rows[k].ds
           && points[k].predictedAqi == RoundHalfEven(rows[k].yhatAdjusted)
           && (points[k].predictedAqi as real) - rows[k].yhatAdjusted <= 1.0 / 2.0
           && rows[k].yhatAdjusted - (points[k].predictedAqi as real) <= 1.0 / 2.0
  {
    if rows != [] {
      var n := |rows| - 1;
      var uis := seq(|rows|, k requires 0 <= k < |rows| => UiRowOf(rows[k]));
      assert uis[..n] == seq(n, k requires 0 <= k < n => UiRowOf(rows[..n][k]));
      UiPointsOfForecast(rows[..n]);
    }
  }

  /** A point is dropped for a row missing its date or its value. */
  lemma IncompleteRowDropped(rows: seq<UiRow>, row: UiRow)
    requires row.ds.None? || row.yhatAdjusted.None?
    ensures UiPoints(rows + [row]) == UiPoints(rows)
  {
    assert (rows + [row])[..|rows|] == rows;
  }

  /** One day of `get_predicted_weekly_risks`. */
  datatype DayRisk = DayRisk(date: int, predictedAqi: int, level: string, color: string, implications: string)

  /** The day's entry: the category of the rounded AQI, or the "Unknown" fallback when there is none. */
  function DayRiskOf(row: ForecastRow): (d: DayRisk)
    ensures d.date == row.ds && d.predictedAqi == RoundHalfEven(row.yhatAdjusted)
  {
    var aqi := RoundHalfEven(row.yhatAdjusted);
    match AqiInfo.GetAqiInfo(AqiInfo.Number(aqi as real))
    case Some(c) => DayRisk(row.ds, aqi, c.level, c.color, c.implications)
    case None => DayRisk(row.ds, aqi, "Unknown", "#808080", "Category undefined.")
  }

  /** A day's level is its CPCB category when its rounded AQI is not negative, otherwise the fallback. */
  lemma DayRiskCategory(row: ForecastRow)
    ensures var d := DayRiskOf(row);
      && (d.predictedAqi >= 0 ==>
            && d.level == AqiInfo.CpcbLevel(d.predictedAqi)
            && d.color == AqiInfo.AQI_SCALE[AqiInfo.CategoryIndex(d.predictedAqi)].color
            && d.implications == AqiInfo.AQI_SCALE[AqiInfo.CategoryIndex(d.predictedAqi)].implications)
      && (d.predictedAqi < 0 ==> d.level == "Unknown" && d.color == "#808080" && d.implications == "Category undefined.")
  {
    var n := RoundHalfEven(row.yhatAdjusted);
    if n >= 0 {
      AqiInfo.ClassifiesNonNegativeIntegers(n);
    }
  }

  /** A clipped (corrected) value never rounds below zero, so its day always has a CPCB category. */
  lemma CorrectedDayHasCategory(row: ForecastRow)
    requires row.yhatAdjusted >= 0.0
    ensures DayRiskOf(row).predictedAqi >= 0
  {
    RoundMonotone(0.0, row.yhatAdjusted);
    RoundIntegral(0);
  }

  /**
   * `get_predicted_weekly_risks(city, days_ahead)`: the corrected forecast, without a supplied
   * AQI, one entry per day; [] when there is no forecast.
   */
  method GetPredictedWeeklyRisks(registry: ModelRegistry, city: string, version: string, files: map<string, StoredFile>,
                                 today: int, daysAhead: int, liveAqi: string -> AqicnClient.CurrentAqi, decay: real)
    returns (risks: seq<DayRisk>)
    modifies registry
    ensures var load := LoadOutcome(old(registry.cache), registry.modelsDir, city, version, files);
      var forecast := ForecastFrom(load, today, daysAhead, true, JNull, liveAqi(city), decay);
      && (forecast.None? ==> risks == [])
      && (forecast.Some? ==> |risks| == |forecast.value| && forall k :: 0 <= k < |risks| ==> risks[k] == DayRiskOf(forecast.value[k]))    ensures registry.cache == CacheAfter(old(registry.cache), CacheKey(city, version),
                                         LoadOutcome(old(registry.cache), registry.modelsDir, city, version, files))
    ensures registry.storageReads == old(registry.storageReads) + (if CacheKey(city, version) in old(registry.cache) then 0 else 1)
  {
    var forecast := GenerateForecast(registry, city, version, files, today, daysAhead, true, JNull, liveAqi, decay);
    if forecast.None? {
      return [];
    }
    risks := DayRisks(forecast.value, DayRiskOf);
  }

  /** The loop of `get_predicted_weekly_risks`: one entry per forecast row, in order, built by `entry` (`DayRiskOf`). */
  method DayRisks(rows: seq<ForecastRow>, entry: ForecastRow -> DayRisk) returns (risks: seq<DayRisk>)
    ensures |risks| == |rows|
    ensures forall k :: 0 <= k < |rows| ==> risks[k] == entry(rows[k])
  {
    risks := [];
    for i := 0 to |rows|
      invariant |risks| == i
      invariant forall k :: 0 <= k < i ==> risks[k] == entry(rows[k])
    {
      risks := risks + [entry(rows[i])];
    }
  }
}
