/**
 * The offline training script: load the master table, make sure it has a `City` column,
 * and for every target city prepare the Prophet history, fit a model and save it under
 * the file name the predictor reads.
 */
module Train {
  import opened Wrappers
  import opened Exceptions
  import opened Frames
  import opened ProphetModels

  /** `load_data(data_path)`: the table with its `Date` column parsed, or the error of that step. */
  function LoadData(dataPath: string, read: CsvRead): (r: Result<Frame, Exc>)
    ensures read.NoFile? ==> r == Err(Raised(DataFileNotFoundError, "Data file not found: " + dataPath))
    ensures read.ReadFailed? && read.cls == ValueError ==> r == Err(Raised(ValueError, read.reason))
    ensures read.ReadFailed? && read.cls == FileNotFoundError ==>
      r == Err(Raised(DataFileNotFoundError, "Data file not found (exception): " + dataPath))
    ensures r.Ok? <==> read.Read? && "Date" in read.frame.columns
    ensures r.Ok? ==> r.value == read.frame
  {
    match read
    case NoFile => Err(Raised(DataFileNotFoundError, "Data file not found: " + dataPath))
    case ReadFailed(cls, reason) =>
      FileNotFoundIsNoValueError();
      if IsSubclass(cls, ValueError) then Err(Raised(cls, reason))
      else if IsSubclass(cls, FileNotFoundError) then
        Err(Raised(DataFileNotFoundError, "Data file not found (exception): " + dataPath))
      else Err(Raised(RuntimeError, "Failed during data loading: " + reason))
    case Read(frame) =>
      if "Date" !in frame.columns then Err(Raised(RuntimeError, "Failed during data loading: 'Date'"))
      else Ok(frame)
  }

  const NO_CITY_COLUMNS := "CRITICAL: No 'City_' columns found for reconstruction."

  /** `reconstruct_city_column(df)`: None is refused, an existing `City` column kept, otherwise it is rebuilt. */
  function ReconstructCityColumn(df: Option<Frame>): (r: Result<Frame, Exc>)
    ensures df.None? ==> r == Err(Raised(ValueError, "Input DataFrame is None for city reconstruction."))
    ensures df.Some? ==> r == CityReconstructed(df.value, NO_CITY_COLUMNS)
  {
    match df
    case None => Err(Raised(ValueError, "Input DataFrame is None for city reconstruction."))
    case Some(frame) => CityReconstructed(frame, NO_CITY_COLUMNS)
  }

  /** An existing City column is returned untouched; otherwise every row gets the city its one-hot columns mark. */
  lemma ReconstructCityColumnMeaning(frame: Frame)
    ensures "City" in frame.columns ==> ReconstructCityColumn(Some(frame)) == Ok(frame)
    ensures "City" !in frame.columns && CityColumns(frame.columns) == [] ==>
      ReconstructCityColumn(Some(frame)) == Err(Raised(ValueError, NO_CITY_COLUMNS))
    ensures "City" !in frame.columns && ReconstructCityColumn(Some(frame)).Ok? ==>
      var rebuilt := ReconstructCityColumn(Some(frame)).value;
      && |rebuilt.rows| == |frame.rows|
      && forall i :: 0 <= i < |frame.rows| ==>
           CellAt(rebuilt.rows[i], "City") == Str(CityNameOf(frame.rows[i], CityColumns(frame.columns)).value)
  {
    if "City" !in frame.columns && ReconstructCityColumn(Some(frame)).Ok? {
      var cols := CityColumns(frame.columns);
      var rebuilt := ReconstructCityColumn(Some(frame)).value;
      forall i | 0 <= i < |frame.rows|
        ensures CellAt(rebuilt.rows[i], "City") == Str(CityNameOf(frame.rows[i], cols).value)
      {
        assert rebuilt.rows[i] == frame.rows[i]["City" := Str(CityNameOf(frame.rows[i], cols).value)];
      }
    }
  }

  /** A table row as a history row: its `Date` as ds and its `AQI` as y. */
  function HistoryRow(row: Row): Row {
    map["ds" := CellAt(row, "Date"), "y" := CellAt(row, "AQI")]
  }

  /** The Prophet history of a city, before filling: `df[df['City'] == city][['Date', 'AQI']]` renamed to ds and y. */
  function CityHistory(rows: seq<Row>, city: string): (h: seq<Row>)
    ensures |h| <= |rows|
    ensures forall x :: x in h <==> exists i :: 0 <= i < |rows| && CellAt(rows[i], "City") == Str(city) && x == HistoryRow(rows[i])
  {
    SelectMembers(rows, row => InCity(row, city), HistoryRow);
    Select(rows, row => InCity(row, city), HistoryRow)
  }

  /** The rows with their `y` values replaced one for one. */
  function WithY(rows: seq<Row>, ys: seq<Cell>): (r: seq<Row>)
    requires |ys| == |rows|
    ensures |r| == |rows|
    ensures forall i :: 0 <= i < |rows| ==> r[i] == rows[i]["y" := ys[i]]
  {
    seq(|rows|, i requires 0 <= i < |rows| => rows[i]["y" := ys[i]])
  }

  /** `prophet_df['y'].isnull()` for some row. */
  predicate AnyMissingY(rows: seq<Row>) {
    exists i :: 0 <= i < |rows| && CellAt(rows[i], "y") == Missing
  }

  /** `prepare_prophet_data(df_master, city)`: the city's (ds, y) history, gaps filled, sorted by ds. */
  function PrepareProphetData(df: Option<Frame>, city: string): (r: Result<Frame, Exc>)
    ensures df.None? ==> r == Err(Raised(ValueError, "Input DataFrame is None for Prophet preparation."))
    ensures df.Some? && "City" !in df.value.columns ==> r == Err(Raised(KeyError, "'City'"))
    ensures df.Some? && "City" in df.value.columns && CityHistory(df.value.rows, city) == [] ==>
      r == Err(Raised(ValueError, "No data found for city: " + city))
    ensures r.Err? ==> r.error.cls == ValueError || r.error.cls == KeyError
    ensures r.Ok? ==> r.value.columns == ["ds", "y"] && r.value.rows != []
    ensures r.Ok? ==> SortedBy(r.value.rows, "ds")
    ensures r.Ok? ==> !AnyMissingY(r.value.rows)
  {
    match df
    case None => Err(Raised(ValueError, "Input DataFrame is None for Prophet preparation."))
    case Some(frame) =>
      if "City" !in frame.columns then Err(Raised(KeyError, "'City'"))
      else
        var history := CityHistory(frame.rows, city);
        if history == [] then Err(Raised(ValueError, "No data found for city: " + city))
        else
          var missing := MissingColumns(["Date", "AQI"], frame.columns);
          if missing != [] then Err(Raised(KeyError, "\"" + ListRepr(missing) + " not in index\""))
          else
            var filled := FilledHistory(history);
            if AnyMissingY(filled) then Err(Raised(ValueError, "Could not fill all missing AQI for " + city + "."))
            else
              SortByDayIsSorted(filled, "ds");
              SortedKeepsY(filled, SortByDay(filled, "ds"));
              Ok(Frame(["ds", "y"], SortByDay(filled, "ds"), None))
  }

  /**
   * The history keeps every row of the city, in table order and with repeats: history row
   * `m` comes from table row `idx[m]`, the indices strictly increase, and every row of the
   * city has one.
   */
  lemma CityHistoryInOrder(rows: seq<Row>, city: string) returns (idx: seq<nat>)
    ensures |idx| == |CityHistory(rows, city)|
    ensures forall m :: 0 <= m < |idx| ==>
      && idx[m] < |rows| && CellAt(rows[idx[m]], "City") == Str(city)
      && CityHistory(rows, city)[m] == HistoryRow(rows[idx[m]])
    ensures forall m, m' :: 0 <= m < m' < |idx| ==> idx[m] < idx[m']
    ensures forall i :: 0 <= i < |rows| && CellAt(rows[i], "City") == Str(city) ==> i in idx
  {
    idx := SelectInOrder(rows, row => InCity(row, city), HistoryRow);
  }

  /** A rearrangement of rows without a missing `y` has none either. */
  lemma SortedKeepsY(rows: seq<Row>, sorted: seq<Row>)
    requires multiset(sorted) == multiset(rows) && !AnyMissingY(rows)
    ensures !AnyMissingY(sorted)
  {
    forall i | 0 <= i < |sorted| ensures CellAt(sorted[i], "y") != Missing {
      assert sorted[i] in multiset(rows);
      var j :| 0 <= j < |rows| && rows[j] == sorted[i];
    }
  }

  /** The city's history with its gaps filled from its neighbours, as `prepare_prophet_data` builds it. */
  function FilledHistory(history: seq<Row>): (r: seq<Row>)
    ensures |r| == |history|
  {
    if AnyMissingY(history) then WithY(history, FillMissing(ColumnCells(history, "y"))) else history
  }

  /** Filling is a no-op on a complete history, and leaves a gap only when every value was missing. */
  lemma FilledHistoryMeaning(history: seq<Row>)
    requires history != [] && forall x :: x in history ==> "y" in x
    ensures var ys := ColumnCells(history, "y");
      && FilledHistory(history) == WithY(history, FillMissing(ys))
      && (AnyMissingY(FilledHistory(history)) <==> forall i :: 0 <= i < |ys| ==> ys[i] == Missing)
  {
    var ys := ColumnCells(history, "y");
    var filledYs := FillMissing(ys);
    if exists i :: 0 <= i < |ys| && ys[i] != Missing {
      var k :| 0 <= k < |ys| && ys[k] != Missing;
      forall i | 0 <= i < |ys| ensures filledYs[i] != Missing {
        FillLeavesNothingMissing(ys, k, i);
      }
      if !AnyMissingY(history) {
        forall i | 0 <= i < |ys| ensures filledYs[i] == ys[i] {
          FillKeepsPresent(ys, i);
        }
        assert WithY(history, filledYs) == history by {
          forall i | 0 <= i < |history| ensures WithY(history, filledYs)[i] == history[i] {
            assert history[i] in history;
          }
        }
      }
      assert !AnyMissingY(WithY(history, filledYs));
    } else {
      assert AnyMissingY(history) by { assert ys[0] == Missing; }
      FillOfAllMissing(ys, 0);
      assert CellAt(WithY(history, filledYs)[0], "y") == Missing;
    }
  }

  /**
   * The prepared data is the city's history with every gap filled from its neighbours, in
   * date order; it is refused only when no row has an AQI value at all.
   */
  lemma PrepareProphetDataMeaning(frame: Frame, city: string)
    requires "City" in frame.columns && "Date" in frame.columns && "AQI" in frame.columns
    requires CityHistory(frame.rows, city) != []
    ensures var history := CityHistory(frame.rows, city);
      var ys := ColumnCells(history, "y");
      && ((exists i :: 0 <= i < |ys| && ys[i] != Missing) <==> PrepareProphetData(Some(frame), city).Ok?)
      && ((forall i :: 0 <= i < |ys| ==> ys[i] == Missing) ==>
            PrepareProphetData(Some(frame), city) == Err(Raised(ValueError, "Could not fill all missing AQI for " + city + ".")))
      && (PrepareProphetData(Some(frame), city).Ok? ==>
            multiset(PrepareProphetData(Some(frame), city).value.rows) == multiset(WithY(history, FillMissing(ys))))
  {
    var history := CityHistory(frame.rows, city);
    assert MissingColumns(["Date", "AQI"], frame.columns) == [];
    FilledHistoryMeaning(history);
  }

  /** `train_prophet_model(df, city)` over the fitting procedure `fit`, which gives a model or the text of its failure. */
  function TrainProphetModel(df: Option<Frame>, city: string, fit: Frame -> Result<ProphetModel, string>): (r: Result<ProphetModel, Exc>)
    ensures df.None? ==> r == Err(Raised(ValueError, "Input city_data_df is None for training."))
    ensures df.Some? && fit(df.value).Ok? ==> r == Ok(fit(df.value).value)
    ensures df.Some? && fit(df.value).Err? ==> r.Err? && r.error.cls == RuntimeError
  {
    match df
    case None => Err(Raised(ValueError, "Input city_data_df is None for training."))
    case Some(frame) =>
      match fit(frame)
      case Ok(model) => Ok(model)
      case Err(reason) => Err(Raised(RuntimeError, "Error fitting Prophet model for " + city + ": " + reason))
  }

  /**
   * `save_model(model, city, version)`: the models directory after writing the serialized
   * model under its file name; `writeError` says whether writing that file fails, and how.
   */
  function SaveModel(model: Option<ProphetModel>, city: string, version: string,
                     dir: map<string, StoredFile>, writeError: string -> Option<string>): (r: Result<map<string, StoredFile>, Exc>)
    ensures model.None? ==> r == Err(Raised(ValueError, "Cannot save a None model object."))
    ensures model.Some? && writeError(ModelFilename(city, version)).Some? ==> r.Err? && r.error.cls == RuntimeError
    ensures r.Ok? ==> model.Some? && r.value == dir[ModelFilename(city, version) := Stored(model.value)]
  {
    match model
    case None => Err(Raised(ValueError, "Cannot save a None model object."))
    case Some(m) =>
      var filename := ModelFilename(city, version);
      match writeError(filename)
      case Some(reason) => Err(Raised(RuntimeError, "Error saving model for " + city + ": " + reason))
      case None => Ok(dir[filename := Stored(m)])
  }

  /** The body of the per-city `try` in `main`: the model saved for the city, or the exception that stopped it. */
  function CityOutcome(master: Frame, city: string, version: string,
                       fit: Frame -> Result<ProphetModel, string>, writeError: string -> Option<string>): (r: Result<ProphetModel, Exc>)
    ensures r.Ok? ==> writeError(ModelFilename(city, version)).None?
    ensures r.Ok? ==> (PrepareProphetData(Some(master), city).Ok?
                       && fit(PrepareProphetData(Some(master), city).value) == Ok(r.value))
  {
    match PrepareProphetData(Some(master), city)
    case Err(e) => Err(e)
    case Ok(prepared) =>
      match TrainProphetModel(Some(prepared), city, fit)
      case Err(e) => Err(e)
      case Ok(model) =>
        match SaveModel(Some(model), city, version, map[], writeError)
        case Err(e) => Err(e)
        case Ok(_) => Ok(model)
  }

  /** The outcome of the per-city `try` for each city, over one master table. */
  function Outcomes(master: Frame, version: string, fit: Frame -> Result<ProphetModel, string>,
                    writeError: string -> Option<string>): (o: string -> Result<ProphetModel, Exc>)
  {
    city => CityOutcome(master, city, version, fit, writeError)
  }

  /** The target cities whose processing succeeds, in order. */
  function Succeeded(cities: seq<string>, outcome: string -> Result<ProphetModel, Exc>): (r: seq<string>)
    ensures forall c :: c in r <==> c in cities && outcome(c).Ok?
  {
    if cities == [] then []
    else
      var front := Succeeded(cities[..|cities| - 1], outcome);
      var c := cities[|cities| - 1];
      assert forall x :: x in cities <==> x in cities[..|cities| - 1] || x == c;
      if outcome(c).Ok? then front + [c] else front
  }

  /** The target cities whose processing raises, in order. */
  function Failed(cities: seq<string>, outcome: string -> Result<ProphetModel, Exc>): (r: seq<string>)
    ensures forall c :: c in r <==> c in cities && outcome(c).Err?
  {
    if cities == [] then []
    else
      var front := Failed(cities[..|cities| - 1], outcome);
      var c := cities[|cities| - 1];
      assert forall x :: x in cities <==> x in cities[..|cities| - 1] || x == c;
      if outcome(c).Err? then front + [c] else front
  }

  /** Every target city is counted once, as a success or as a failure, and never as both. */
  lemma {:induction false} EveryCityAccountedFor(cities: seq<string>, outcome: string -> Result<ProphetModel, Exc>)
    ensures multiset(Succeeded(cities, outcome)) + multiset(Failed(cities, outcome)) == multiset(cities)
    ensures forall c :: c in Succeeded(cities, outcome) ==> c !in Failed(cities, outcome)
  {
    if cities != [] {
      var front := cities[..|cities| - 1];
      var c := cities[|cities| - 1];
      EveryCityAccountedFor(front, outcome);
      assert cities == front + [c];
    }
  }

  /** The models directory after the loop has saved the model of every city that succeeded. */
  function DirAfter(dir: map<string, StoredFile>, cities: seq<string>, version: string,
                    outcome: string -> Result<ProphetModel, Exc>): (r: map<string, StoredFile>)
    ensures forall name :: name in dir ==> name in r
  {
    if cities == [] then dir
    else
      var before := DirAfter(dir, cities[..|cities| - 1], version, outcome);
      var c := cities[|cities| - 1];
      match outcome(c)
      case Ok(model) => before[ModelFilename(c, version) := Stored(model)]
      case Err(_) => before
  }

  /** Two cities share a model file of one version only if they are the same city. */
  lemma FilenameDeterminesCity(c1: string, c2: string, version: string)
    requires ModelFilename(c1, version) == ModelFilename(c2, version)
    ensures c1 == c2
  {
    ModelFilenameInjective(c1, version, c2, version);
  }

  /** After training, every successful city's model file holds its model and no other file changed. */
  lemma {:induction false} DirAfterStoresModels(dir: map<string, StoredFile>, cities: seq<string>, version: string,
                                                outcome: string -> Result<ProphetModel, Exc>)
    ensures var after := DirAfter(dir, cities, version, outcome);
      forall c :: c in Succeeded(cities, outcome) ==>
        ModelFilename(c, version) in after && after[ModelFilename(c, version)] == Stored(outcome(c).value)
    ensures var after := DirAfter(dir, cities, version, outcome);
      forall name :: name in dir && (forall c :: c in cities ==> name != ModelFilename(c, version)) ==> after[name] == dir[name]
  {
    if cities != [] {
      var front := cities[..|cities| - 1];
      var last := cities[|cities| - 1];
      DirAfterStoresModels(dir, front, version, outcome);
      forall c | c in Succeeded(cities, outcome)
        ensures var after := DirAfter(dir, cities, version, outcome);
          ModelFilename(c, version) in after && after[ModelFilename(c, version)] == Stored(outcome(c).value)
      {
        if c != last {
          assert c in front;
          if ModelFilename(c, version) == ModelFilename(last, version) {
            FilenameDeterminesCity(c, last, version);
          }
        }
      }
      forall name | name in dir && (forall c :: c in cities ==> name != ModelFilename(c, version))
        ensures DirAfter(dir, cities, version, outcome)[name] == dir[name]
      {
        assert forall c :: c in front ==> c in cities;
        assert last in cities;
      }
    }
  }

  /** The table `main` trains from: loaded and given a `City` column. */
  function MasterData(dataPath: string, read: CsvRead): (r: Result<Frame, Exc>)
    ensures r.Ok? ==> "City" in r.value.columns
  {
    match LoadData(dataPath, read)
    case Err(e) => Err(e)
    case Ok(frame) => ReconstructCityColumn(Some(frame))
  }

  /**
   * `main()`: when the master data loads, every target city is prepared, fitted and saved in
   * turn, and listed as a success or a failure; when it does not, nothing is trained.
   */
  method TrainAll(dataPath: string, read: CsvRead, targets: seq<string>, version: string,
                  fit: Frame -> Result<ProphetModel, string>, writeError: string -> Option<string>,
                  dir: map<string, StoredFile>)
    returns (started: bool, successful: seq<string>, failed: seq<string>, newDir: map<string, StoredFile>)
    ensures started <==> MasterData(dataPath, read).Ok?
    ensures !started ==> successful == [] && failed == [] && newDir == dir
    ensures started ==>
      var outcome := Outcomes(MasterData(dataPath, read).value, version, fit, writeError);
      && successful == Succeeded(targets, outcome)
      && failed == Failed(targets, outcome)
      && newDir == DirAfter(dir, targets, version, outcome)
  {
    var loaded := MasterData(dataPath, read);
    if loaded.Err? {
      return false, [], [], dir;
    }
    var master := loaded.value;
    started := true;
    ghost var outcomes := Outcomes(master, version, fit, writeError);
    successful, failed, newDir := [], [], dir;
    for i := 0 to |targets|
      invariant successful == Succeeded(targets[..i], outcomes)
      invariant failed == Failed(targets[..i], outcomes)
      invariant newDir == DirAfter(dir, targets[..i], version, outcomes)
    {
      var city := targets[i];
      assert targets[..i + 1][..i] == targets[..i];
      var outcome := CityOutcome(master, city, version, fit, writeError);
      assert outcome == outcomes(city);
      match outcome
      case Ok(model) =>
        var saved := SaveModel(Some(model), city, version, newDir, writeError);
        newDir := saved.value;
        successful := successful + [city];
      case Err(_) =>
        failed := failed + [city];
    }
    assert targets[..|targets|] == targets;
  }
}
