/**
 * Tables of the master dataset as values: a frame is its column names and its rows,
 * each row a map from column name to cell. The operations shared by the historical
 * analysis and the training script live here: rebuilding the `City` column from the
 * one-hot `City_*` columns, sorting rows by a date column, and filling missing values.
 */
module Frames {
  import opened Wrappers
  import opened PyText
  import opened Exceptions

  /** A cell: a number, a text, a parsed date (a day number), or a missing value (NaN / NaT). */
  datatype Cell = Num(x: real) | Str(s: string) | Day(d: int) | Missing

  type Row = map<string, Cell>

  /** A frame; `index` names the column that was made the index, whose values the rows keep. */
  datatype Frame = Frame(columns: seq<string>, rows: seq<Row>, index: Option<string>)

  /** What reading the CSV file and parsing its `Date` column gives. */
  datatype CsvRead =
    | NoFile                                  // the path does not exist
    | ReadFailed(cls: ErrorClass, reason: string)  // reading or date parsing raised
    | Read(frame: Frame)                      // the table, `Date` cells parsed to days

  /** `row[col]`, a missing value where the row has no such entry. */
  function CellAt(row: Row, col: string): Cell {
    if col in row then row[col] else Missing
  }

  /** The values of one column, in row order. */
  function ColumnCells(rows: seq<Row>, col: string): (cs: seq<Cell>)
    ensures |cs| == |rows|
    ensures forall i :: 0 <= i < |rows| ==> cs[i] == CellAt(rows[i], col)
  {
    seq(|rows|, i requires 0 <= i < |rows| => CellAt(rows[i], col))
  }

  /** The rows of a city: `df['City'] == city` as a row mask. */
  predicate InCity(row: Row, city: string) {
    CellAt(row, "City") == Str(city)
  }

  /**
   * A boolean-mask selection followed by a projection, `[f(row) for row in rows if keep(row)]`:
   * the matching rows in table order, repeats kept.
   */
  function Select<T>(rows: seq<Row>, keep: Row -> bool, f: Row -> T): (r: seq<T>)
    ensures |r| <= |rows|
  {
    if rows == [] then []
    else
      var last := rows[|rows| - 1];
      Select(rows[..|rows| - 1], keep, f) + (if keep(last) then [f(last)] else [])
  }

  /** The selection holds the projections of exactly the kept rows. */
  lemma {:induction false} SelectMembers<T>(rows: seq<Row>, keep: Row -> bool, f: Row -> T)
    ensures forall x :: x in Select(rows, keep, f) <==> exists i :: 0 <= i < |rows| && keep(rows[i]) && x == f(rows[i])
  {
    if rows != [] {
      var front := rows[..|rows| - 1];
      SelectMembers(front, keep, f);
      assert forall i :: 0 <= i < |front| ==> rows[i] == front[i];
    }
  }

  /** The positions of the kept rows, in table order. */
  function SelectedIndices(rows: seq<Row>, keep: Row -> bool): (idx: seq<nat>)
    ensures |idx| <= |rows|
    ensures forall m :: 0 <= m < |idx| ==> idx[m] < |rows| && keep(rows[idx[m]])
  {
    if rows == [] then []
    else
      var n := |rows| - 1;
      var prev := SelectedIndices(rows[..n], keep);
      assert forall m :: 0 <= m < |prev| ==> rows[prev[m]] == rows[..n][prev[m]];
      prev + (if keep(rows[n]) then [n] else [])
  }

  /** Element `m` of the selection is the projection of the row at the `m`-th kept position. */
  lemma {:induction false} SelectAtIndices<T>(rows: seq<Row>, keep: Row -> bool, f: Row -> T)
    ensures |SelectedIndices(rows, keep)| == |Select(rows, keep, f)|
    ensures forall m :: 0 <= m < |Select(rows, keep, f)| ==> Select(rows, keep, f)[m] == f(rows[SelectedIndices(rows, keep)[m]])
  {
    if rows != [] {
      var n := |rows| - 1;
      SelectAtIndices(rows[..n], keep, f);
      var prev := SelectedIndices(rows[..n], keep);
      assert forall m :: 0 <= m < |prev| ==> rows[prev[m]] == rows[..n][prev[m]];
    }
  }

  /** The kept positions strictly increase. */
  lemma {:induction false} SelectedIndicesIncrease(rows: seq<Row>, keep: Row -> bool)
    ensures forall m, m' :: 0 <= m < m' < |SelectedIndices(rows, keep)| ==>
      SelectedIndices(rows, keep)[m] < SelectedIndices(rows, keep)[m']
  {
    if rows != [] {
      var n := |rows| - 1;
      SelectedIndicesIncrease(rows[..n], keep);
      var prev := SelectedIndices(rows[..n], keep);
      assert forall m :: 0 <= m < |prev| ==> prev[m] < n;
      var idx := SelectedIndices(rows, keep);
      assert idx == prev + (if keep(rows[n]) then [n] else []);
      forall m, m' | 0 <= m < m' < |idx| ensures idx[m] < idx[m'] {
        if m' >= |prev| {
          assert idx[m] == prev[m];
        } else {
          assert idx[m] == prev[m] && idx[m'] == prev[m'];
        }
      }
    }
  }

  /** Every kept row has its position listed. */
  lemma {:induction false} SelectedIndicesCover(rows: seq<Row>, keep: Row -> bool)
    ensures forall i :: 0 <= i < |rows| && keep(rows[i]) ==> i in SelectedIndices(rows, keep)
  {
    if rows != [] {
      var n := |rows| - 1;
      SelectedIndicesCover(rows[..n], keep);
      assert forall i :: 0 <= i < n ==> rows[i] == rows[..n][i];
    }
  }

  /**
   * The selection keeps every kept row, in order and with repeats: element `m` comes from
   * row `idx[m]`, the indices strictly increase, and every kept row has one.
   */
  lemma SelectInOrder<T>(rows: seq<Row>, keep: Row -> bool, f: Row -> T) returns (idx: seq<nat>)
    ensures |idx| == |Select(rows, keep, f)|
    ensures forall m :: 0 <= m < |idx| ==> idx[m] < |rows| && keep(rows[idx[m]]) && Select(rows, keep, f)[m] == f(rows[idx[m]])
    ensures forall m, m' :: 0 <= m < m' < |idx| ==> idx[m] < idx[m']
    ensures forall i :: 0 <= i < |rows| && keep(rows[i]) ==> i in idx
  {
    idx := SelectedIndices(rows, keep);
    SelectAtIndices(rows, keep, f);
    SelectedIndicesIncrease(rows, keep);
    SelectedIndicesCover(rows, keep);
  }

  /** `[col for col in columns if col.startswith('City_')]` */
  function CityColumns(columns: seq<string>): (cs: seq<string>)
    ensures forall c :: c in cs <==> c in columns && StartsWith(c, "City_")
    ensures |cs| <= |columns|
  {
    if columns == [] then []
    else
      var rest := CityColumns(columns[1..]);
      if StartsWith(columns[0], "City_") then [columns[0]] + rest else rest
  }

  /** `s.replace(pat, '')`: every non-overlapping occurrence of `pat`, from the left, removed. */
  function RemoveAll(s: string, pat: string): (r: string)
    requires pat != []
    ensures |r| <= |s|
    decreases |s|
  {
    if |s| < |pat| then s
    else if s[..|pat|] == pat then RemoveAll(s[|pat|..], pat)
    else [s[0]] + RemoveAll(s[1..], pat)
  }

  /** A text without the pattern is left as it is. */
  lemma {:induction false} RemoveAllAbsent(s: string, pat: string)
    requires pat != [] && !Contains(s, pat)
    ensures RemoveAll(s, pat) == s
    decreases |s|
  {
    if |s| >= |pat| {
      assert !OccursAt(s, pat, 0);
      assert !Contains(s[1..], pat) by {
        forall i | 0 <= i <= |s[1..]| - |pat| ensures !OccursAt(s[1..], pat, i) {
          assert s[1..][i..i + |pat|] == s[i + 1..i + 1 + |pat|];
          assert !OccursAt(s, pat, i + 1);
        }
      }
      RemoveAllAbsent(s[1..], pat);
      assert [s[0]] + s[1..] == s;
    }
  }

  /** The city of a one-hot column `City_<name>` is `<name>`, when the name itself does not contain `City_`. */
  lemma CityOfColumn(name: string)
    requires !Contains(name, "City_")
    ensures RemoveAll("City_" + name, "City_") == name
  {
    var s := "City_" + name;
    assert s[..5] == "City_";
    assert s[5..] == name;
    RemoveAllAbsent(name, "City_");
  }

  /** `row[col] > 0` for a one-hot cell: NaN compares false; texts and dates cannot be compared with 0. */
  function Positive(c: Cell): (r: Result<bool, Exc>)
    ensures r.Ok? <==> c.Num? || c.Missing?
    ensures r == Ok(true) <==> c.Num? && c.x > 0.0
    ensures r.Err? ==> r.error.cls == TypeError
  {
    match c
    case Num(x) => Ok(x > 0.0)
    case Missing => Ok(false)
    case Str(_) => Err(Raised(TypeError, "'>' not supported between instances of 'str' and 'int'"))
    case Day(_) => Err(Raised(TypeError, "'>' not supported between instances of 'Timestamp' and 'int'"))
  }

  /** `get_city_name(row)`: the name of the first one-hot column marked in the row, else 'Unknown'. */
  function CityNameOf(row: Row, cityColumns: seq<string>): (r: Result<string, Exc>)
    requires forall c :: c in cityColumns ==> StartsWith(c, "City_")
    ensures r.Err? ==> r.error.cls == TypeError
  {
    if cityColumns == [] then Ok("Unknown")
    else
      match Positive(CellAt(row, cityColumns[0]))
      case Err(e) => Err(e)
      case Ok(marked) =>
        if marked then Ok(RemoveAll(cityColumns[0], "City_")) else CityNameOf(row, cityColumns[1..])
  }

  /** The city is read from the first marked column when every column before it is numeric and unmarked. */
  lemma {:induction false} CityIsFirstMarked(row: Row, cityColumns: seq<string>, k: nat)
    requires forall c :: c in cityColumns ==> StartsWith(c, "City_")
    requires k < |cityColumns| && Positive(CellAt(row, cityColumns[k])) == Ok(true)
    requires forall j :: 0 <= j < k ==> Positive(CellAt(row, cityColumns[j])) == Ok(false)
    ensures CityNameOf(row, cityColumns) == Ok(RemoveAll(cityColumns[k], "City_"))
  {
    if k > 0 {
      CityIsFirstMarked(row, cityColumns[1..], k - 1);
    }
  }

  /** A row with no marked one-hot column, and no text or date in one, gets 'Unknown'. */
  lemma {:induction false} UnknownWhenNoneMarked(row: Row, cityColumns: seq<string>)
    requires forall c :: c in cityColumns ==> StartsWith(c, "City_")
    requires forall j :: 0 <= j < |cityColumns| ==> Positive(CellAt(row, cityColumns[j])) == Ok(false)
    ensures CityNameOf(row, cityColumns) == Ok("Unknown")
  {
    if cityColumns != [] {
      UnknownWhenNoneMarked(row, cityColumns[1..]);
    }
  }

  /** `df.apply(get_city_name, axis=1)`: the city of every row, or the first row's exception. */
  function CityColumn(rows: seq<Row>, cityColumns: seq<string>): (r: Result<seq<Cell>, Exc>)
    requires forall c :: c in cityColumns ==> StartsWith(c, "City_")
    ensures r.Ok? ==> |r.value| == |rows|
    ensures r.Ok? ==> forall i :: 0 <= i < |rows| ==>
      CityNameOf(rows[i], cityColumns).Ok? && r.value[i] == Str(CityNameOf(rows[i], cityColumns).value)
    ensures r.Err? ==> exists i :: 0 <= i < |rows| && CityNameOf(rows[i], cityColumns) == Err(r.error)
  {
    if rows == [] then Ok([])
    else
      match CityNameOf(rows[0], cityColumns)
      case Err(e) => Err(e)
      case Ok(name) =>
        match CityColumn(rows[1..], cityColumns)
        case Err(e) => Err(e)
        case Ok(rest) => Ok([Str(name)] + rest)
  }

  /** `df['City'] = df.apply(get_city_name, axis=1)` on a frame without a `City` column. */
  function WithCityColumn(frame: Frame, cityColumns: seq<string>): (r: Result<Frame, Exc>)
    requires forall c :: c in cityColumns ==> StartsWith(c, "City_")
    ensures r.Ok? ==> r.value.columns == frame.columns + ["City"] && r.value.index == frame.index
    ensures r.Ok? ==> |r.value.rows| == |frame.rows|
    ensures r.Ok? ==> forall i :: 0 <= i < |frame.rows| ==>
      && CityNameOf(frame.rows[i], cityColumns).Ok?
      && r.value.rows[i] == frame.rows[i]["City" := Str(CityNameOf(frame.rows[i], cityColumns).value)]
    ensures r.Err? ==> r.error.cls == TypeError
  {
    match CityColumn(frame.rows, cityColumns)
    case Err(e) => Err(e)
    case Ok(cities) =>
      Ok(Frame(frame.columns + ["City"],
               seq(|frame.rows|, i requires 0 <= i < |frame.rows| => frame.rows[i]["City" := cities[i]]),
               frame.index))
  }

  /**
   * The `City` column made sure of: kept when present, otherwise rebuilt from the
   * `City_*` columns; with none of those a `ValueError` carrying the caller's message.
   */
  function CityReconstructed(frame: Frame, noColumnsMessage: string): (r: Result<Frame, Exc>)
    ensures "City" in frame.columns ==> r == Ok(frame)
    ensures "City" !in frame.columns && CityColumns(frame.columns) == [] ==> r == Err(Raised(ValueError, noColumnsMessage))
    ensures "City" !in frame.columns && CityColumns(frame.columns) != [] ==> r == WithCityColumn(frame, CityColumns(frame.columns))
    ensures r.Ok? ==> "City" in r.value.columns && |r.value.rows| == |frame.rows|
    ensures r.Err? ==> r.error.cls == ValueError || r.error.cls == TypeError
  {
    if "City" in frame.columns then Ok(frame)
    else
      var cityColumns := CityColumns(frame.columns);
      if cityColumns == [] then Err(Raised(ValueError, noColumnsMessage))
      else WithCityColumn(frame, cityColumns)
  }

  // ---- ordering rows by a date column ----

  /** The sort key of a date cell; NaT and other cells sort last, as pandas places missing values. */
  function DayKey(c: Cell): Option<int> {
    if c.Day? then Some(c.d) else None
  }

  predicate KeyLeq(a: Option<int>, b: Option<int>) {
    (a.Some? && b.Some? && a.value <= b.value) || b.None?
  }

  predicate SortedBy(rows: seq<Row>, col: string) {
    forall i, j :: 0 <= i < j < |rows| ==> KeyLeq(DayKey(CellAt(rows[i], col)), DayKey(CellAt(rows[j], col)))
  }

  /** Inserts a row after every row whose key is not greater than its own. */
  function InsertByDay(rows: seq<Row>, x: Row, col: string): (r: seq<Row>)
    ensures multiset(r) == multiset(rows) + multiset{x}
    ensures |r| == |rows| + 1
  {
    if rows == [] then [x]
    else
      var last := rows[|rows| - 1];
      if KeyLeq(DayKey(CellAt(last, col)), DayKey(CellAt(x, col))) then rows + [x]
      else
        var r := InsertByDay(rows[..|rows| - 1], x, col) + [last];
        assert rows == rows[..|rows| - 1] + [last];
        r
  }

  /** Orders rows by a date column, keeping the input order of rows with equal keys. */
  function SortByDay(rows: seq<Row>, col: string): (r: seq<Row>)
    ensures multiset(r) == multiset(rows)
    ensures |r| == |rows|
  {
    if rows == [] then []
    else
      assert rows == rows[..|rows| - 1] + [rows[|rows| - 1]];
      InsertByDay(SortByDay(rows[..|rows| - 1], col), rows[|rows| - 1], col)
  }

  lemma {:induction false} InsertKeepsSorted(rows: seq<Row>, x: Row, col: string)
    requires SortedBy(rows, col)
    ensures SortedBy(InsertByDay(rows, x, col), col)
    decreases |rows|
  {
    if rows != [] {
      var last := rows[|rows| - 1];
      var kl := DayKey(CellAt(last, col));
      if !KeyLeq(kl, DayKey(CellAt(x, col))) {
        var front := rows[..|rows| - 1];
        assert SortedBy(front, col);
        InsertKeepsSorted(front, x, col);
        var ins := InsertByDay(front, x, col);
        InsertStaysBelow(front, x, col, kl);
        var r := ins + [last];
        assert r == InsertByDay(rows, x, col);
        forall i, j | 0 <= i < j < |r| ensures KeyLeq(DayKey(CellAt(r[i], col)), DayKey(CellAt(r[j], col))) {
          if j == |r| - 1 {
            assert r[i] == ins[i] && r[j] == last;
          } else {
            assert r[i] == ins[i] && r[j] == ins[j];
          }
        }
      }
    }
  }

  /** Rows whose keys are all at most `k` stay so when a row with a key at most `k` is inserted. */
  lemma InsertStaysBelow(rows: seq<Row>, x: Row, col: string, k: Option<int>)
    requires forall i :: 0 <= i < |rows| ==> KeyLeq(DayKey(CellAt(rows[i], col)), k)
    requires KeyLeq(DayKey(CellAt(x, col)), k)
    ensures forall i :: 0 <= i < |InsertByDay(rows, x, col)| ==> KeyLeq(DayKey(CellAt(InsertByDay(rows, x, col)[i], col)), k)
  {
    var ins := InsertByDay(rows, x, col);
    forall i | 0 <= i < |ins| ensures KeyLeq(DayKey(CellAt(ins[i], col)), k) {
      var y := ins[i];
      assert y in multiset(ins);
      if y != x {
        assert y in multiset(rows);
        var j :| 0 <= j < |rows| && rows[j] == y;
      }
    }
  }

  /** Sorting by a date column orders the rows by that column. */
  lemma {:induction false} SortByDayIsSorted(rows: seq<Row>, col: string)
    ensures SortedBy(SortByDay(rows, col), col)
    decreases |rows|
  {
    if rows != [] {
      SortByDayIsSorted(rows[..|rows| - 1], col);
      InsertKeepsSorted(SortByDay(rows[..|rows| - 1], col), rows[|rows| - 1], col);
    }
  }

  // ---- filling missing values ----

  /** The last present value at or before position `i`, if any. */
  function PresentUpTo(cs: seq<Cell>, i: int): (r: Cell)
    requires -1 <= i < |cs|
    ensures r != Missing ==> exists j :: 0 <= j <= i && cs[j] == r
    ensures r == Missing ==> forall j :: 0 <= j <= i ==> cs[j] == Missing
    decreases i + 1
  {
    if i < 0 then Missing else if cs[i] != Missing then cs[i] else PresentUpTo(cs, i - 1)
  }

  /** The first present value at or after position `i`, if any. */
  function PresentFrom(cs: seq<Cell>, i: nat): (r: Cell)
    requires i <= |cs|
    ensures r != Missing ==> exists j :: i <= j < |cs| && cs[j] == r
    ensures r == Missing ==> forall j :: i <= j < |cs| ==> cs[j] == Missing
    decreases |cs| - i
  {
    if i == |cs| then Missing else if cs[i] != Missing then cs[i] else PresentFrom(cs, i + 1)
  }

  /** `series.ffill()`, scanning with the last value seen. */
  function ForwardFill(cs: seq<Cell>, carry: Cell): (r: seq<Cell>)
    ensures |r| == |cs|
  {
    if cs == [] then []
    else
      var v := if cs[0] != Missing then cs[0] else carry;
      [v] + ForwardFill(cs[1..], v)
  }

  /** `series.bfill()`, scanning from the end with the next value seen. */
  function BackwardFill(cs: seq<Cell>, carry: Cell): (r: seq<Cell>)
    ensures |r| == |cs|
  {
    if cs == [] then []
    else
      var v := if cs[|cs| - 1] != Missing then cs[|cs| - 1] else carry;
      BackwardFill(cs[..|cs| - 1], v) + [v]
  }

  /** Forward filling puts at each position the last present value up to it. */
  lemma {:induction false} ForwardFillIsLastPresent(cs: seq<Cell>)
    ensures forall i :: 0 <= i < |cs| ==> ForwardFill(cs, Missing)[i] == PresentUpTo(cs, i)
  {
    ForwardFillFrom(cs, [], cs, Missing);
  }

  lemma {:induction false} ForwardFillFrom(rest: seq<Cell>, done: seq<Cell>, all: seq<Cell>, carry: Cell)
    requires all == done + rest
    requires carry == PresentUpTo(all, |done| - 1)
    ensures forall i :: 0 <= i < |rest| ==> ForwardFill(rest, carry)[i] == PresentUpTo(all, |done| + i)
    decreases |rest|
  {
    if rest != [] {
      var v := if rest[0] != Missing then rest[0] else carry;
      assert all[|done|] == rest[0];
      assert v == PresentUpTo(all, |done|);
      assert all == done + [rest[0]] + rest[1..];
      ForwardFillFrom(rest[1..], done + [rest[0]], all, v);
    }
  }

  /** Backward filling puts at each position the first present value from it on. */
  lemma {:induction false} BackwardFillIsNextPresent(cs: seq<Cell>)
    ensures forall i :: 0 <= i < |cs| ==> BackwardFill(cs, Missing)[i] == PresentFrom(cs, i)
  {
    BackwardFillFrom(cs, [], cs, Missing);
  }

  lemma {:induction false} BackwardFillFrom(front: seq<Cell>, done: seq<Cell>, all: seq<Cell>, carry: Cell)
    requires all == front + done
    requires carry == PresentFrom(all, |front|)
    ensures forall i :: 0 <= i < |front| ==> BackwardFill(front, carry)[i] == PresentFrom(all, i)
    decreases |front|
  {
    if front != [] {
      var n := |front| - 1;
      var v := if front[n] != Missing then front[n] else carry;
      assert all[n] == front[n];
      assert v == PresentFrom(all, n);
      assert all == front[..n] + ([front[n]] + done);
      BackwardFillFrom(front[..n], [front[n]] + done, all, v);
    }
  }

  /** `series.ffill().bfill()` */
  function FillMissing(cs: seq<Cell>): (r: seq<Cell>)
    ensures |r| == |cs|
  {
    BackwardFill(ForwardFill(cs, Missing), Missing)
  }

  /** Filling keeps a present value where it is. */
  lemma FillKeepsPresent(cs: seq<Cell>, i: nat)
    requires i < |cs| && cs[i] != Missing
    ensures FillMissing(cs)[i] == cs[i]
  {
    var f := ForwardFill(cs, Missing);
    ForwardFillIsLastPresent(cs);
    BackwardFillIsNextPresent(f);
    assert f[i] == cs[i];
  }

  /** One present value is enough for filling to leave nothing missing. */
  lemma FillLeavesNothingMissing(cs: seq<Cell>, k: nat, i: nat)
    requires k < |cs| && cs[k] != Missing && i < |cs|
    ensures FillMissing(cs)[i] != Missing
  {
    var f := ForwardFill(cs, Missing);
    ForwardFillIsLastPresent(cs);
    BackwardFillIsNextPresent(f);
    if i < k {
      assert f[k] != Missing;
    } else {
      assert f[i] == PresentUpTo(cs, i);
    }
  }

  /** With no present value there is nothing to fill from. */
  lemma FillOfAllMissing(cs: seq<Cell>, i: nat)
    requires forall j :: 0 <= j < |cs| ==> cs[j] == Missing
    requires i < |cs|
    ensures FillMissing(cs)[i] == Missing
  {
    var f := ForwardFill(cs, Missing);
    ForwardFillIsLastPresent(cs);
    BackwardFillIsNextPresent(f);
    assert f[i] == Missing by {
      assert forall j :: 0 <= j < |cs| ==> f[j] == PresentUpTo(cs, j);
    }
    assert forall j :: i <= j < |f| ==> f[j] == Missing;
  }

  // ---- small helpers on column-name lists ----

  /** `repr` of a list of texts: `['a', 'b']`. */
  function ListRepr(xs: seq<string>): (r: string)
    ensures |r| >= 2 && r[0] == '[' && r[|r| - 1] == ']'
  {
    "[" + JoinQuoted(xs) + "]"
  }

  function JoinQuoted(xs: seq<string>): string {
    if xs == [] then ""
    else if |xs| == 1 then "'" + xs[0] + "'"
    else "'" + xs[0] + "', " + JoinQuoted(xs[1..])
  }

  /** `[col for col in required if col not in columns]` */
  function MissingColumns(required: seq<string>, columns: seq<string>): (r: seq<string>)
    ensures forall c :: c in r <==> c in required && c !in columns
    ensures r == [] <==> forall c :: c in required ==> c in columns
  {
    if required == [] then []
    else
      var rest := MissingColumns(required[1..], columns);
      if required[0] !in columns then [required[0]] + rest else rest
  }
}

/** The trained forecasting model as the rest of the code sees it, and where it is stored. */
module ProphetModels {
  /**
   * A fitted model: the last day of its training history and the forecast it makes for a
   * day (`yhat` with its lower and upper bounds). The fitting itself is not modelled.
   */
  datatype ProphetModel = ProphetModel(lastTrainDay: int, yhat: int -> real, yhatLower: int -> real, yhatUpper: int -> real)

  /** A file of the models directory: absent, present but not loadable, or a serialized model. */
  datatype StoredFile = Absent | Unreadable(reason: string) | Stored(model: ProphetModel)

  /** `f"{city_name}_prophet_model_{version}.json"`, the name the trainer writes and the predictor reads. */
  function ModelFilename(city: string, version: string): (name: string)
    ensures |name| == |city| + |version| + 20
  {
    city + "_prophet_model_" + version + ".json"
  }

  /** The file named for a city and version determines both. */
  lemma ModelFilenameInjective(city1: string, version1: string, city2: string, version2: string)
    requires |city1| == |city2|
    requires ModelFilename(city1, version1) == ModelFilename(city2, version2)
    ensures city1 == city2 && version1 == version2
  {
    var n1 := ModelFilename(city1, version1);
    assert city1 == n1[..|city1|];
    assert city2 == n1[..|city2|];
    assert version1 == n1[|city1| + 15..|n1| - 5];
    assert version2 == n1[|city2| + 15..|n1| - 5];
  }
}
