/**
 * The historical AQI dataset: loading the master table once and keeping it, rebuilding
 * its `City` column, indexing it by date, and the three queries the dashboard makes of it.
 */
module Historical {
  import opened Wrappers
  import opened Exceptions
  import opened Frames

  /** The columns every loaded table must have. */
  const REQUIRED: seq<string> := ["AQI", "City"]

  /** The exception classes the query functions turn into an empty answer. */
  const HANDLED: seq<ErrorClass> := [DataFileNotFoundError, ValueError, RuntimeError]

  /** `except (DataFileNotFoundError, ValueError, RuntimeError)` catches `e`. */
  predicate Handled(e: Exc) {
    IsSubclass(e.cls, DataFileNotFoundError) || IsSubclass(e.cls, ValueError) || IsSubclass(e.cls, RuntimeError)
  }

  lemma HandledIsCaught(e: Exc)
    ensures Handled(e) <==> Catches(HANDLED, e)
  {
    if Handled(e) {
      var k := if IsSubclass(e.cls, DataFileNotFoundError) then 0 else if IsSubclass(e.cls, ValueError) then 1 else 2;
      assert IsSubclass(e.cls, HANDLED[k]);
    }
  }

  /** Reading the CSV file and parsing its dates, with the errors of that step. */
  function ReadData(dataPath: string, read: CsvRead): (r: Result<Frame, Exc>)
    ensures read.NoFile? ==> r == Err(Raised(DataFileNotFoundError, "CRITICAL: Data file not found at specified path: " + dataPath))
    ensures read.ReadFailed? && read.cls == ValueError ==> r == Err(Raised(ValueError, read.reason))
    ensures read.ReadFailed? && read.cls == FileNotFoundError ==> r.Err? && r.error.cls == DataFileNotFoundError
    ensures read.Read? ==> (r.Ok? <==> "Date" in read.frame.columns)
    ensures r.Ok? ==> read.Read? && r.value == read.frame
    ensures r.Err? ==> Handled(r.error)
  {
    match read
    case NoFile => Err(Raised(DataFileNotFoundError, "CRITICAL: Data file not found at specified path: " + dataPath))
    case ReadFailed(cls, reason) =>
      FileNotFoundIsNoValueError();
      if IsSubclass(cls, ValueError) then Err(Raised(cls, reason))
      else if IsSubclass(cls, FileNotFoundError) then
        Err(Raised(DataFileNotFoundError, "FileNotFoundError: Double-check data file exists at " + dataPath))
      else Err(Raised(RuntimeError, "Failed to load data from CSV: " + reason))
    case Read(frame) =>
      // `df['Date']` on a table without that column raises KeyError('Date')
      if "Date" !in frame.columns then Err(Raised(RuntimeError, "Failed to load data from CSV: 'Date'"))
      else Ok(frame)
  }

  const NO_CITY_COLUMNS := "CRITICAL: No columns starting with 'City_' found."

  /** The outer handler of the preprocessing step: any exception resurfaces as a `RuntimeError`. */
  function PreprocessingError(e: Exc): (w: Exc)
    ensures w.cls == RuntimeError && Handled(w)
  {
    Raised(RuntimeError, "Error during data preprocessing: " + e.text)
  }

  /** `set_index('Date')` (unless already the index) followed by `sort_index()`. */
  function IndexedByDate(frame: Frame): (r: Frame)
    ensures r.index == Some("Date") && |r.rows| == |frame.rows|
    ensures multiset(r.rows) == multiset(frame.rows)
    ensures forall c :: c in r.columns ==> c in frame.columns
  {
    var columns := if frame.index != Some("Date") then Without(frame.columns, "Date") else frame.columns;
    Frame(columns, SortByDay(frame.rows, "Date"), Some("Date"))
  }

  function Without(columns: seq<string>, col: string): (r: seq<string>)
    ensures forall c :: c in r <==> c in columns && c != col
  {
    if columns == [] then []
    else if columns[0] == col then Without(columns[1..], col)
    else [columns[0]] + Without(columns[1..], col)
  }

  /** The preprocessing of a freshly read table: City column, date index, required columns. */
  function Preprocessed(frame: Frame): (r: Result<Frame, Exc>)
    ensures r.Err? ==> r.error.cls == RuntimeError
  {
    match CityReconstructed(frame, NO_CITY_COLUMNS)
    case Err(e) => Err(PreprocessingError(e))
    case Ok(withCity) =>
      if "Date" !in withCity.columns then
        Err(PreprocessingError(Raised(ValueError, "CRITICAL: 'Date' column missing after loading/parsing.")))
      else
        var indexed := IndexedByDate(withCity);
        var missing := MissingColumns(REQUIRED, indexed.columns);
        if missing != [] then
          Err(PreprocessingError(Raised(ValueError, "CRITICAL: Essential columns missing: " + ListRepr(missing))))
        else Ok(indexed)
  }

  /** What loading from the file gives, cache aside. */
  function Loaded(dataPath: string, read: CsvRead): (r: Result<Frame, Exc>)
    ensures r.Err? ==> Handled(r.error)
  {
    match ReadData(dataPath, read)
    case Err(e) => Err(e)
    case Ok(frame) => Preprocessed(frame)
  }

  /** A loaded table is indexed by date in ascending order, has the required columns and keeps every row. */
  lemma LoadedFrameIsIndexed(dataPath: string, read: CsvRead)
    requires Loaded(dataPath, read).Ok?
    ensures read.Read?
    ensures var f := Loaded(dataPath, read).value;
      && f.index == Some("Date") && SortedBy(f.rows, "Date")
      && "AQI" in f.columns && "City" in f.columns
      && |f.rows| == |read.frame.rows|
  {
    var withCity := CityReconstructed(read.frame, NO_CITY_COLUMNS).value;
    SortByDayIsSorted(withCity.rows, "Date");
  }

  /** Without a `City` and any `City_*` column the `ValueError` comes out as a `RuntimeError`. */
  lemma NoCityColumnsIsRuntimeError(dataPath: string, frame: Frame)
    requires "Date" in frame.columns && "City" !in frame.columns && CityColumns(frame.columns) == []
    ensures Loaded(dataPath, Read(frame)) == Err(PreprocessingError(Raised(ValueError, NO_CITY_COLUMNS)))
  {
  }

  /** A table without an `AQI` column is refused with a `RuntimeError` naming it. */
  lemma MissingAqiIsRuntimeError(dataPath: string, frame: Frame)
    requires "Date" in frame.columns && "City" in frame.columns && "AQI" !in frame.columns
    ensures Loaded(dataPath, Read(frame))
         == Err(PreprocessingError(Raised(ValueError, "CRITICAL: Essential columns missing: " + ListRepr(["AQI"]))))
  {
    var indexed := IndexedByDate(frame);
    assert "City" in indexed.columns by {
      assert "City" != "Date";
      assert "City" in Without(frame.columns, "Date");
    }
    assert "AQI" !in indexed.columns;
    assert REQUIRED[1..] == ["City"];
    assert MissingColumns(["City"], indexed.columns) == [];
    assert MissingColumns(REQUIRED, indexed.columns) == ["AQI"];
  }

  // ---- the list of cities ----

  /** Python's `<=` on texts: code point by code point, a prefix first. */
  predicate TextLeq(a: string, b: string) {
    a == [] || (b != [] && (a[0] < b[0] || (a[0] == b[0] && TextLeq(a[1..], b[1..]))))
  }

  lemma {:induction false} TextLeqTotal(a: string, b: string)
    ensures TextLeq(a, b) || TextLeq(b, a)
  {
    if a != [] && b != [] && a[0] == b[0] {
      TextLeqTotal(a[1..], b[1..]);
    }
  }

  lemma {:induction false} TextLeqTransitive(a: string, b: string, c: string)
    requires TextLeq(a, b) && TextLeq(b, c)
    ensures TextLeq(a, c)
  {
    if a != [] && a[0] == b[0] && b[0] == c[0] {
      TextLeqTransitive(a[1..], b[1..], c[1..]);
    }
  }

  predicate SortedTexts(xs: seq<string>) {
    forall i, j :: 0 <= i < j < |xs| ==> TextLeq(xs[i], xs[j])
  }

  predicate Distinct<T(==)>(xs: seq<T>) {
    forall i, j :: 0 <= i < j < |xs| ==> xs[i] != xs[j]
  }

  function InsertText(xs: seq<string>, x: string): (r: seq<string>)
    ensures multiset(r) == multiset(xs) + multiset{x}
  {
    if xs == [] then [x]
    else
      var last := xs[|xs| - 1];
      if TextLeq(last, x) then xs + [x]
      else
        assert xs == xs[..|xs| - 1] + [last];
        InsertText(xs[..|xs| - 1], x) + [last]
  }

  /** `sorted(xs)` */
  function SortTexts(xs: seq<string>): (r: seq<string>)
    ensures multiset(r) == multiset(xs)
  {
    if xs == [] then []
    else
      assert xs == xs[..|xs| - 1] + [xs[|xs| - 1]];
      InsertText(SortTexts(xs[..|xs| - 1]), xs[|xs| - 1])
  }

  lemma AppendKeepsSorted(xs: seq<string>, x: string)
    requires SortedTexts(xs) && xs != [] && TextLeq(xs[|xs| - 1], x)
    ensures SortedTexts(xs + [x])
  {
    forall i | 0 <= i < |xs| - 1 ensures TextLeq(xs[i], x) {
      TextLeqTransitive(xs[i], xs[|xs| - 1], x);
    }
  }

  lemma {:induction false} InsertTextKeepsSorted(xs: seq<string>, x: string)
    requires SortedTexts(xs)
    ensures SortedTexts(InsertText(xs, x))
    decreases |xs|
  {
    if xs != [] {
      var last := xs[|xs| - 1];
      if TextLeq(last, x) {
        AppendKeepsSorted(xs, x);
      } else {
        TextLeqTotal(last, x);
        var front := xs[..|xs| - 1];
        assert SortedTexts(front);
        InsertTextKeepsSorted(front, x);
        var ins := InsertText(front, x);
        var r := ins + [last];
        forall y | y in ins ensures TextLeq(y, last) {
          assert y in multiset(ins);
          if y != x {
            assert y in multiset(front);
            var j :| 0 <= j < |front| && front[j] == y;
            assert xs[j] == y;
          }
        }
        forall i, j | 0 <= i < j < |r| ensures TextLeq(r[i], r[j]) {
          if j == |r| - 1 {
            assert r[i] in ins;
          }
        }
      }
    }
  }

  lemma {:induction false} SortTextsIsSorted(xs: seq<string>)
    ensures SortedTexts(SortTexts(xs))
    decreases |xs|
  {
    if xs != [] {
      SortTextsIsSorted(xs[..|xs| - 1]);
      InsertTextKeepsSorted(SortTexts(xs[..|xs| - 1]), xs[|xs| - 1]);
    }
  }

  lemma {:induction false} DistinctCountsAtMostOne<T>(xs: seq<T>, x: T)
    requires Distinct(xs)
    ensures multiset(xs)[x] <= 1
  {
    if xs != [] {
      assert xs == [xs[0]] + xs[1..];
      assert Distinct(xs[1..]);
      DistinctCountsAtMostOne(xs[1..], x);
      if xs[0] == x {
        assert x !in xs[1..];
      }
    }
  }

  /** A rearrangement of a duplicate-free sequence is duplicate-free. */
  lemma DistinctByMultiset<T>(xs: seq<T>, ys: seq<T>)
    requires multiset(xs) == multiset(ys) && Distinct(xs)
    ensures Distinct(ys)
  {
    forall i, j | 0 <= i < j < |ys| ensures ys[i] != ys[j] {
      if ys[i] == ys[j] {
        var y := ys[i];
        assert ys == ys[..j] + ys[j..];
        assert y in ys[..j] && y in ys[j..];
        assert multiset(ys)[y] == multiset(ys[..j])[y] + multiset(ys[j..])[y];
        DistinctCountsAtMostOne(xs, y);
        assert false;
      }
    }
  }

  /** `Series.unique()`: every value once (numpy's order is irrelevant here, the result is sorted next). */
  function Unique(cs: seq<Cell>): (u: seq<Cell>)
    ensures forall c :: c in u <==> c in cs
    ensures Distinct(u)
  {
    if cs == [] then []
    else
      var rest := Unique(cs[1..]);
      if cs[0] in rest then rest else [cs[0]] + rest
  }

  /** `city != 'Unknown' and pd.notna(city)` */
  predicate IsValidCity(c: Cell) {
    c != Str("Unknown") && c != Missing
  }

  /** `str(city)`; numbers and dates are not rendered by this model. */
  function CellText(c: Cell): string {
    match c
    case Str(s) => s
    case _ => "<value>"
  }

  /** `[str(city) for city in cities if city != 'Unknown' and pd.notna(city)]` */
  function ValidCityTexts(cs: seq<Cell>): (r: seq<string>)
    ensures forall t :: t in r <==> exists c :: c in cs && IsValidCity(c) && CellText(c) == t
  {
    if cs == [] then []
    else
      var rest := ValidCityTexts(cs[1..]);
      assert forall c :: c in cs <==> c == cs[0] || c in cs[1..];
      if IsValidCity(cs[0]) then [CellText(cs[0])] + rest else rest
  }

  lemma {:induction false} ValidCityTextsDistinct(cs: seq<Cell>)
    requires Distinct(cs)
    requires forall c :: c in cs ==> c.Str? || c.Missing?
    ensures Distinct(ValidCityTexts(cs))
  {
    if cs != [] {
      assert Distinct(cs[1..]);
      ValidCityTextsDistinct(cs[1..]);
      if IsValidCity(cs[0]) {
        forall c | c in cs[1..] && IsValidCity(c) ensures CellText(c) != CellText(cs[0]) {
          var j :| 0 <= j < |cs[1..]| && cs[1..][j] == c;
          assert cs[j + 1] == c;
        }
        var rest := ValidCityTexts(cs[1..]);
        assert CellText(cs[0]) !in rest;
        var r := [CellText(cs[0])] + rest;
        forall i, j | 0 <= i < j < |r| ensures r[i] != r[j] {
          if i == 0 {
            assert r[j] in rest;
          } else {
            assert r[i] == rest[i - 1] && r[j] == rest[j - 1];
          }
        }
      }
    }
  }

  /** `get_available_cities` on a loaded table. */
  function AvailableCities(frame: Frame): (cities: seq<string>)
    ensures "City" !in frame.columns ==> cities == []
  {
    if "City" !in frame.columns then []
    else SortTexts(ValidCityTexts(Unique(ColumnCells(frame.rows, "City"))))
  }

  /**
   * The list of cities is sorted, and when the City column holds only texts and missing
   * values it is duplicate-free and holds exactly the city names other than 'Unknown'.
   */
  lemma AvailableCitiesMeaning(frame: Frame)
    requires "City" in frame.columns
    requires forall i :: 0 <= i < |frame.rows| ==> CellAt(frame.rows[i], "City").Str? || CellAt(frame.rows[i], "City").Missing?
    ensures SortedTexts(AvailableCities(frame))
    ensures Distinct(AvailableCities(frame))
    ensures forall s :: s in AvailableCities(frame) <==>
      s != "Unknown" && exists i :: 0 <= i < |frame.rows| && CellAt(frame.rows[i], "City") == Str(s)
  {
    var cells := ColumnCells(frame.rows, "City");
    var texts := ValidCityTexts(Unique(cells));
    SortTextsIsSorted(texts);
    ValidCityTextsDistinct(Unique(cells));
    DistinctByMultiset(texts, AvailableCities(frame));
    forall s ensures s in AvailableCities(frame) <==>
      s != "Unknown" && exists i :: 0 <= i < |frame.rows| && CellAt(frame.rows[i], "City") == Str(s)
    {
      assert s in AvailableCities(frame) <==> s in texts by {
        assert s in AvailableCities(frame) <==> s in multiset(AvailableCities(frame));
        assert s in texts <==> s in multiset(texts);
      }
      if s in texts {
        var c :| c in Unique(cells) && IsValidCity(c) && CellText(c) == s;
        assert c in cells;
        var i :| 0 <= i < |cells| && cells[i] == c;
        assert c == Str(s);
        assert CellAt(frame.rows[i], "City") == Str(s);
      }
      if s != "Unknown" && exists i :: 0 <= i < |frame.rows| && CellAt(frame.rows[i], "City") == Str(s) {
        var i :| 0 <= i < |frame.rows| && CellAt(frame.rows[i], "City") == Str(s);
        assert cells[i] == Str(s);
        assert Str(s) in Unique(cells) && IsValidCity(Str(s)) && CellText(Str(s)) == s;
      }
    }
  }

  // ---- one city's AQI series ----

  /** A row of the filtered series: the date index and the AQI value. */
  datatype Reading = Reading(date: Cell, aqi: Cell)

  /** A table row as a reading: its date index and its AQI. */
  function ReadingOf(row: Row): Reading {
    Reading(CellAt(row, "Date"), CellAt(row, "AQI"))
  }

  /** `df[df['City'] == city]['AQI']`, with the date of each kept row. */
  function ReadingsOf(rows: seq<Row>, city: string): (r: seq<Reading>)
    ensures |r| <= |rows|
    ensures forall x :: x in r <==> exists i :: 0 <= i < |rows| && CellAt(rows[i], "City") == Str(city) && x == ReadingOf(rows[i])
  {
    SelectMembers(rows, row => InCity(row, city), ReadingOf);
    Select(rows, row => InCity(row, city), ReadingOf)
  }

  /**
   * The series keeps every reading of the city, in table order and with repeats: reading
   * `m` comes from table row `idx[m]`, the indices strictly increase, and every row of the
   * city has one. The distribution counts each reading as often as the table holds it.
   */
  lemma ReadingsInOrder(rows: seq<Row>, city: string) returns (idx: seq<nat>)
    ensures |idx| == |ReadingsOf(rows, city)|
    ensures forall m :: 0 <= m < |idx| ==>
      && idx[m] < |rows| && CellAt(rows[idx[m]], "City") == Str(city)
      && ReadingsOf(rows, city)[m] == ReadingOf(rows[idx[m]])
    ensures forall m, m' :: 0 <= m < m' < |idx| ==> idx[m] < idx[m']
    ensures forall i :: 0 <= i < |rows| && CellAt(rows[i], "City") == Str(city) ==> i in idx
  {
    idx := SelectInOrder(rows, row => InCity(row, city), ReadingOf);
  }

  /** The series `get_city_aqi_trend_data` and `get_city_aqi_distribution_data` answer with. */
  function CitySeries(frame: Frame, city: string): (r: Option<seq<Reading>>)
    ensures ("City" !in frame.columns || "AQI" !in frame.columns) ==> r == None
    ensures r.None? && "City" in frame.columns && "AQI" in frame.columns ==>
      forall i :: 0 <= i < |frame.rows| ==> CellAt(frame.rows[i], "City") != Str(city)
    ensures r.Some? ==> r.value != [] && r.value == ReadingsOf(frame.rows, city)
  {
    if "City" !in frame.columns || "AQI" !in frame.columns then None
    else if Str(city) !in Unique(ColumnCells(frame.rows, "City")) then None
    else
      var i :| 0 <= i < |frame.rows| && CellAt(frame.rows[i], "City") == Str(city);
      assert ReadingOf(frame.rows[i]) in ReadingsOf(frame.rows, city);
      Some(ReadingsOf(frame.rows, city))
  }

  /** The module-level cache of the processed table, and the data file it is read from. */
  class HistoricalStore {
    const dataPath: string
    var cached: Option<Frame>
    /** How many times the data file has been read. */
    var fileReads: nat

    constructor(dataPath: string)
      ensures this.dataPath == dataPath && cached == None && fileReads == 0
    {
      this.dataPath := dataPath;
      cached := None;
      fileReads := 0;
    }

    /** `load_and_preprocess_data(force_reload)`; `read` is what the file system yields now. */
    method LoadAndPreprocessData(forceReload: bool, read: CsvRead) returns (r: Result<Frame, Exc>)
      modifies this
      ensures old(cached).Some? && !forceReload ==>
        r == Ok(old(cached).value) && cached == old(cached) && fileReads == old(fileReads)
      ensures old(cached).None? || forceReload ==>
        && r == Loaded(dataPath, read)
        && fileReads == old(fileReads) + 1
        && cached == (if r.Ok? then Some(r.value) else old(cached))
    {
      if cached.Some? && !forceReload {
        return Ok(cached.value);
      }
      fileReads := fileReads + 1;
      r := Loaded(dataPath, read);
      if r.Ok? {
        cached := Some(r.value);
      }
    }

    /** `get_available_cities()`: the sorted city names, or [] when loading fails. */
    method GetAvailableCities(read: CsvRead) returns (cities: seq<string>)
      modifies this
      ensures var outcome := if old(cached).Some? then Ok(old(cached).value) else Loaded(dataPath, read);
        && cached == (if old(cached).None? && outcome.Ok? then Some(outcome.value) else old(cached))
        && fileReads == old(fileReads) + (if old(cached).Some? then 0 else 1)
      ensures var outcome := if old(cached).Some? then Ok(old(cached).value) else Loaded(dataPath, read);
        cities == (if outcome.Ok? then AvailableCities(outcome.value) else [])
    {
      var loaded := LoadAndPreprocessData(false, read);
      match loaded
      case Err(e) =>
        HandledIsCaught(e);
        cities := [];
      case Ok(frame) =>
        cities := AvailableCities(frame);
    }

    /** `get_city_aqi_trend_data(city)`: the city's dated AQI readings, or None. */
    method GetCityAqiTrendData(city: string, read: CsvRead) returns (series: Option<seq<Reading>>)
      modifies this
      ensures var outcome := if old(cached).Some? then Ok(old(cached).value) else Loaded(dataPath, read);
        && cached == (if old(cached).None? && outcome.Ok? then Some(outcome.value) else old(cached))
        && fileReads == old(fileReads) + (if old(cached).Some? then 0 else 1)
      ensures var outcome := if old(cached).Some? then Ok(old(cached).value) else Loaded(dataPath, read);
        series == (if outcome.Ok? then CitySeries(outcome.value, city) else None)
    {
      var loaded := LoadAndPreprocessData(false, read);
      if loaded.Err? {
        return None;
      }
      series := CitySeries(loaded.value, city);
    }

    /** `get_city_aqi_distribution_data(city)`: the same readings, used for their distribution. */
    method GetCityAqiDistributionData(city: string, read: CsvRead) returns (series: Option<seq<Reading>>)
      modifies this
      ensures var outcome := if old(cached).Some? then Ok(old(cached).value) else Loaded(dataPath, read);
        && cached == (if old(cached).None? && outcome.Ok? then Some(outcome.value) else old(cached))
        && fileReads == old(fileReads) + (if old(cached).Some? then 0 else 1)
      ensures var outcome := if old(cached).Some? then Ok(old(cached).value) else Loaded(dataPath, read);
        series == (if outcome.Ok? then CitySeries(outcome.value, city) else None)
    {
      var loaded := LoadAndPreprocessData(false, read);
      if loaded.Err? {
        return None;
      }
      series := CitySeries(loaded.value, city);
    }
  }
}
