/**
 * CPCB sub-index computation: piecewise-linear interpolation over a table of
 * breakpoints per pollutant, and the overall AQI as the largest sub-index
 * over the pollutant columns of a data row.
 */
module Calculator {
  import opened Wrappers
  import opened PyText
  import opened PyNum

  /** The upper end of a breakpoint range: a number, or `float('inf')` for the open top range. */
  datatype Bound = Finite(value: real) | Unbounded

  /** One `(BP_low, BP_high, AQI_low, AQI_high)` entry. */
  datatype Breakpoint = Breakpoint(bpLow: real, bpHigh: Bound, aqiLow: int, aqiHigh: int)

  const PM10: seq<Breakpoint> := [
    Breakpoint(0.0, Finite(50.0), 0, 50), Breakpoint(51.0, Finite(100.0), 51, 100),
    Breakpoint(101.0, Finite(250.0), 101, 200), Breakpoint(251.0, Finite(350.0), 201, 300),
    Breakpoint(351.0, Finite(430.0), 301, 400), Breakpoint(431.0, Unbounded, 401, 500)]
  const PM25: seq<Breakpoint> := [
    Breakpoint(0.0, Finite(30.0), 0, 50), Breakpoint(31.0, Finite(60.0), 51, 100),
    Breakpoint(61.0, Finite(90.0), 101, 200), Breakpoint(91.0, Finite(120.0), 201, 300),
    Breakpoint(121.0, Finite(250.0), 301, 400), Breakpoint(251.0, Unbounded, 401, 500)]
  const NO2: seq<Breakpoint> := [
    Breakpoint(0.0, Finite(40.0), 0, 50), Breakpoint(41.0, Finite(80.0), 51, 100),
    Breakpoint(81.0, Finite(180.0), 101, 200), Breakpoint(181.0, Finite(280.0), 201, 300),
    Breakpoint(281.0, Finite(400.0), 301, 400), Breakpoint(401.0, Unbounded, 401, 500)]
  const O3: seq<Breakpoint> := [
    Breakpoint(0.0, Finite(50.0), 0, 50), Breakpoint(51.0, Finite(100.0), 51, 100),
    Breakpoint(101.0, Finite(168.0), 101, 200), Breakpoint(169.0, Finite(208.0), 201, 300),
    Breakpoint(209.0, Finite(748.0), 301, 400), Breakpoint(749.0, Unbounded, 401, 500)]
  const CO: seq<Breakpoint> := [
    Breakpoint(0.0, Finite(1.0), 0, 50), Breakpoint(1.1, Finite(2.0), 51, 100),
    Breakpoint(2.1, Finite(10.0), 101, 200), Breakpoint(10.1, Finite(17.0), 201, 300),
    Breakpoint(17.1, Finite(34.0), 301, 400), Breakpoint(34.1, Unbounded, 401, 500)]
  const SO2: seq<Breakpoint> := [
    Breakpoint(0.0, Finite(40.0), 0, 50), Breakpoint(41.0, Finite(80.0), 51, 100),
    Breakpoint(81.0, Finite(380.0), 101, 200), Breakpoint(381.0, Finite(800.0), 201, 300),
    Breakpoint(801.0, Finite(1600.0), 301, 400), Breakpoint(1601.0, Unbounded, 401, 500)]
  const NH3: seq<Breakpoint> := [
    Breakpoint(0.0, Finite(200.0), 0, 50), Breakpoint(201.0, Finite(400.0), 51, 100),
    Breakpoint(401.0, Finite(800.0), 101, 200), Breakpoint(801.0, Finite(1200.0), 201, 300),
    Breakpoint(1201.0, Finite(1800.0), 301, 400), Breakpoint(1801.0, Unbounded, 401, 500)]

  /** `POLLUTANT_BREAKPOINTS.get(key)`: the table keyed by a lower-case pollutant name. */
  function BreakpointsFor(key: string): (t: Option<seq<Breakpoint>>)
    ensures t.Some? ==> |t.value| == 6
  {
    if key == "pm10" then Some(PM10)
    else if key == "pm25" then Some(PM25)
    else if key == "no2" then Some(NO2)
    else if key == "o3" then Some(O3)
    else if key == "co" then Some(CO)
    else if key == "so2" then Some(SO2)
    else if key == "nh3" then Some(NH3)
    else None
  }

  /** `bp_low <= value <= bp_high` */
  predicate Holds(bp: Breakpoint, v: real) {
    bp.bpLow <= v && (bp.bpHigh.Unbounded? || v <= bp.bpHigh.value)
  }

  /** A finite range is not a single point, so the interpolation does not divide by zero. */
  predicate NonDegenerate(bp: Breakpoint) {
    bp.bpHigh.Finite? ==> bp.bpHigh.value != bp.bpLow
  }

  /**
   * `((aqi_high - aqi_low) / (bp_high - bp_low)) * (value - bp_low) + aqi_low`.
   * Over the open top range the slope is `99 / inf`, that is zero.
   */
  function Interpolate(bp: Breakpoint, v: real): real
    requires NonDegenerate(bp)
  {
    match bp.bpHigh
    case Unbounded => 0.0 * (v - bp.bpLow) + bp.aqiLow as real
    case Finite(high) => ((bp.aqiHigh - bp.aqiLow) as real / (high - bp.bpLow)) * (v - bp.bpLow) + bp.aqiLow as real
  }

  /** A range whose AQI values do not fall and whose finite concentration bounds rise. */
  predicate Rising(bp: Breakpoint) {
    bp.aqiLow <= bp.aqiHigh && (bp.bpHigh.Finite? ==> bp.bpLow < bp.bpHigh.value)
  }

  /** Rising ranges in increasing order with gaps between them, the AQI ranges contiguous,
      and every range but the last closed. */
  predicate Chained(bps: seq<Breakpoint>)
    decreases |bps|
  {
    |bps| > 0 && Rising(bps[0])
    && (|bps| == 1
        || (bps[0].bpHigh.Finite? && bps[0].bpHigh.value < bps[1].bpLow
            && bps[1].aqiLow == bps[0].aqiHigh + 1
            && Chained(bps[1..])))
  }

  /** A table for one pollutant: chained, starting at concentration 0 and AQI 0, open at the top. */
  predicate WellFormed(bps: seq<Breakpoint>) {
    Chained(bps) && bps[0].bpLow == 0.0 && bps[0].aqiLow == 0
    && bps[|bps| - 1].bpHigh.Unbounded? && bps[|bps| - 1].aqiHigh == 500
  }

  /** The `for` loop over the breakpoints from position `i`: the index of the first range holding `v`. */
  function FirstHolding(bps: seq<Breakpoint>, v: real, i: nat): (r: Option<nat>)
    requires i <= |bps|
    ensures r.Some? ==> i <= r.value < |bps| && Holds(bps[r.value], v)
    ensures r.None? ==> forall k :: i <= k < |bps| ==> !Holds(bps[k], v)
    decreases |bps| - i
  {
    if i == |bps| then None
    else if Holds(bps[i], v) then Some(i)
    else FirstHolding(bps, v, i + 1)
  }

  /** The sub-index from one pollutant's table. */
  function SubIndexIn(bps: seq<Breakpoint>, v: real): (r: Option<int>)
    requires Chained(bps)
  {
    match FirstHolding(bps, v, 0)
    case None => None
    case Some(k) =>
      ChainedNonDegenerate(bps, k);
      Some(RoundHalfEven(Interpolate(bps[k], v)))
  }

  /** `calculate_sub_index(value, pollutant)`; `None` as the value stands for `None`/NaN. */
  function CalculateSubIndex(value: Option<real>, pollutant: string): (r: Option<int>)
    ensures value.None? ==> r.None?
    ensures BreakpointsFor(Lower(pollutant)).None? ==> r.None?
  {
    if value.None? then None
    else
      var key := Lower(pollutant);
      match BreakpointsFor(key)
      case None => None
      case Some(bps) =>
        TableWellFormed(key);
        SubIndexIn(bps, value.value)
  }

  lemma {:induction false} ChainedNonDegenerate(bps: seq<Breakpoint>, k: nat)
    requires Chained(bps) && k < |bps|
    ensures NonDegenerate(bps[k])
    ensures bps[k].aqiLow <= bps[k].aqiHigh
    ensures Rising(bps[k])
    ensures k < |bps| - 1 ==> bps[k].bpHigh.Finite?
    decreases k
  {
    if k > 0 {
      ChainedNonDegenerate(bps[1..], k - 1);
    }
  }

  /** The ranges of a chained table climb: a later range starts above where an earlier one ends,
      and its AQI range starts above the earlier one's. */
  lemma {:induction false} ChainedAscending(bps: seq<Breakpoint>, j: nat, k: nat)
    requires Chained(bps) && j < k < |bps|
    ensures bps[j].bpHigh.Finite? && bps[j].bpHigh.value < bps[k].bpLow
    ensures bps[j].aqiHigh < bps[k].aqiLow
    decreases k
  {
    if j == 0 {
      if k > 1 {
        ChainedAscending(bps[1..], 0, k - 1);
        ChainedNonDegenerate(bps[1..], 0);
      }
    } else {
      ChainedAscending(bps[1..], j - 1, k - 1);
    }
  }

  /** In a chained table, the range holding `v` is the one the scan finds. */
  lemma {:induction false} FirstHoldingIsTheHoldingRange(bps: seq<Breakpoint>, v: real, k: nat)
    requires Chained(bps) && k < |bps| && Holds(bps[k], v)
    ensures FirstHolding(bps, v, 0) == Some(k)
  {
    forall j | 0 <= j < k ensures !Holds(bps[j], v) {
      ChainedAscending(bps, j, k);
    }
    FirstHoldingFrom(bps, v, 0, k);
  }

  lemma {:induction false} FirstHoldingFrom(bps: seq<Breakpoint>, v: real, i: nat, k: nat)
    requires i <= k < |bps| && Holds(bps[k], v)
    requires forall j :: i <= j < k ==> !Holds(bps[j], v)
    ensures FirstHolding(bps, v, i) == Some(k)
    decreases k - i
  {
    if i < k {
      FirstHoldingFrom(bps, v, i + 1, k);
    }
  }

  /** The low end of a finite range interpolates to its low AQI, the high end to its high AQI. */
  lemma InterpolateEndpoints(bp: Breakpoint)
    requires bp.bpHigh.Finite? && NonDegenerate(bp)
    ensures Interpolate(bp, bp.bpLow) == bp.aqiLow as real
    ensures Interpolate(bp, bp.bpHigh.value) == bp.aqiHigh as real
  {
    var w := bp.bpHigh.value - bp.bpLow;
    var slope := (bp.aqiHigh - bp.aqiLow) as real / w;
    assert slope * w == (bp.aqiHigh - bp.aqiLow) as real;
  }

  /** Inside a rising finite range the interpolation stays between the range's two AQI values;
      over the open top range it is exactly the low AQI. */
  lemma InterpolateWithin(bp: Breakpoint, v: real)
    requires Holds(bp, v) && NonDegenerate(bp) && bp.aqiLow <= bp.aqiHigh
    requires bp.bpHigh.Finite? ==> bp.bpLow < bp.bpHigh.value
    ensures bp.aqiLow as real <= Interpolate(bp, v) <= bp.aqiHigh as real
    ensures bp.bpHigh.Unbounded? ==> Interpolate(bp, v) == bp.aqiLow as real
  {
    if bp.bpHigh.Finite? {
      var w := bp.bpHigh.value - bp.bpLow;
      var d := v - bp.bpLow;
      var span := (bp.aqiHigh - bp.aqiLow) as real;
      var slope := span / w;
      assert 0.0 <= d <= w;
      assert slope >= 0.0;
      assert slope * d <= slope * w;
      assert slope * w == span;
    }
  }

  /**
   * For a value a range of a well-formed table holds, the sub-index is the rounded
   * interpolation in that range, between its two AQI values: the low bound gives the low AQI,
   * the high bound the high AQI, and the open top range exactly its low AQI.
   */
  lemma {:induction false} SubIndexInRange(bps: seq<Breakpoint>, v: real, k: nat)
    requires Chained(bps) && k < |bps| && Holds(bps[k], v)
    ensures SubIndexIn(bps, v).Some?
    ensures bps[k].aqiLow <= SubIndexIn(bps, v).value <= bps[k].aqiHigh
    ensures v == bps[k].bpLow ==> SubIndexIn(bps, v).value == bps[k].aqiLow
    ensures bps[k].bpHigh == Finite(v) ==> SubIndexIn(bps, v).value == bps[k].aqiHigh
    ensures bps[k].bpHigh.Unbounded? ==> SubIndexIn(bps, v).value == bps[k].aqiLow
  {
    FirstHoldingIsTheHoldingRange(bps, v, k);
    ChainedNonDegenerate(bps, k);
    var bp := bps[k];
    var x := Interpolate(bp, v);
    assert SubIndexIn(bps, v) == Some(RoundHalfEven(x));
    InterpolateWithin(bp, v);
    RoundWithin(x, bp.aqiLow, bp.aqiHigh);
    if bp.bpHigh.Finite? {
      InterpolateEndpoints(bp);
    }
    RoundIntegral(bp.aqiLow);
    RoundIntegral(bp.aqiHigh);
  }

  /** A value no range holds (a negative one, or one in a gap between ranges) has no sub-index. */
  lemma {:induction false} SubIndexNoneIff(bps: seq<Breakpoint>, v: real)
    requires WellFormed(bps)
    ensures SubIndexIn(bps, v).None? <==> forall k :: 0 <= k < |bps| ==> !Holds(bps[k], v)
    ensures v < 0.0 ==> SubIndexIn(bps, v).None?
  {
    if v < 0.0 {
      forall k | 0 <= k < |bps| ensures !Holds(bps[k], v) {
        if k > 0 {
          ChainedAscending(bps, 0, k);
        }
      }
    }
  }

  /** Every sub-index from a well-formed table lies on the AQI scale 0 to 500. */
  lemma {:induction false} SubIndexBounded(bps: seq<Breakpoint>, v: real)
    requires WellFormed(bps)
    ensures SubIndexIn(bps, v).Some? ==> 0 <= SubIndexIn(bps, v).value <= 500
  {
    var f := FirstHolding(bps, v, 0);
    if f.Some? {
      var k := f.value;
      SubIndexInRange(bps, v, k);
      if k > 0 {
        ChainedAscending(bps, 0, k);
      }
      if k < |bps| - 1 {
        ChainedAscending(bps, k, |bps| - 1);
        ChainedNonDegenerate(bps, |bps| - 1);
      }
    }
  }

  /**
   * `calculate_sub_index` gives a number exactly when the value is present, the pollutant
   * (in any letter case) has a table, and some range of that table holds the value; the
   * number is on the AQI scale, and the letter case of the pollutant name does not matter.
   */
  lemma SubIndexMeaning(value: Option<real>, pollutant: string)
    ensures var t := BreakpointsFor(Lower(pollutant));
      CalculateSubIndex(value, pollutant).Some?
      <==> value.Some? && t.Some? && exists k :: 0 <= k < |t.value| && Holds(t.value[k], value.value)
    ensures CalculateSubIndex(value, pollutant).Some? ==> 0 <= CalculateSubIndex(value, pollutant).value <= 500
    ensures CalculateSubIndex(value, pollutant) == CalculateSubIndex(value, Lower(pollutant))
  {
    var key := Lower(pollutant);
    LowerIdempotent(pollutant);
    if value.Some? && BreakpointsFor(key).Some? {
      var bps := BreakpointsFor(key).value;
      TableWellFormed(key);
      SubIndexNoneIff(bps, value.value);
      SubIndexBounded(bps, value.value);
    }
  }

  /** Every pollutant's table is well formed. */
  lemma TableWellFormed(key: string)
    requires BreakpointsFor(key).Some?
    ensures WellFormed(BreakpointsFor(key).value)
  {
    if key == "pm10" {
      Pm10WellFormed();
    } else if key == "pm25" {
      Pm25WellFormed();
    } else if key == "no2" {
      No2WellFormed();
    } else if key == "o3" {
      O3WellFormed();
    } else if key == "co" {
      CoWellFormed();
    } else if key == "so2" {
      So2WellFormed();
    } else {
      Nh3WellFormed();
    }
  }

  lemma Pm10WellFormed() ensures WellFormed(PM10) {}
  lemma Pm25WellFormed() ensures WellFormed(PM25) {}
  lemma No2WellFormed() ensures WellFormed(NO2) {}
  lemma O3WellFormed() ensures WellFormed(O3) {}
  lemma CoWellFormed() ensures WellFormed(CO) {}
  lemma So2WellFormed() ensures WellFormed(SO2) {}
  lemma Nh3WellFormed() ensures WellFormed(NH3) {}

  /** Examples of tests/health_rules/test_calculator.py for PM2.5: inside a range, and above the last closed one. */
  lemma Pm25Examples()
    ensures CalculateSubIndex(Some(75.0), "pm25") == Some(149)
    ensures CalculateSubIndex(Some(300.0), "pm25") == Some(401)
  {
    assert Lower("pm25") == "pm25";
    Pm25WellFormed();
    FirstHoldingIsTheHoldingRange(PM25, 75.0, 2);
    ChainedNonDegenerate(PM25, 2);
    var x := Interpolate(PM25[2], 75.0);
    assert x == (99.0 / 29.0) * 14.0 + 101.0;
    RoundNear(x, 149);
    FirstHoldingIsTheHoldingRange(PM25, 300.0, 5);
    ChainedNonDegenerate(PM25, 5);
    assert Interpolate(PM25[5], 300.0) == 401.0;
    RoundIntegral(401);
  }

  /** Examples for CO, whose ranges leave gaps of 0.1 between them. */
  lemma CoExamples()
    ensures CalculateSubIndex(Some(1.5), "co") == Some(73)
    ensures CalculateSubIndex(Some(1.05), "co") == None
  {
    assert Lower("co") == "co";
    CoWellFormed();
    FirstHoldingIsTheHoldingRange(CO, 1.5, 1);
    ChainedNonDegenerate(CO, 1);
    var x := Interpolate(CO[1], 1.5);
    assert x == (49.0 / 0.9) * 0.4 + 51.0;
    RoundNear(x, 73);
    SubIndexNoneIff(CO, 1.05);
  }

  /** A negative concentration and an unknown pollutant give no sub-index. */
  lemma RejectedExamples()
    ensures CalculateSubIndex(Some(-10.0), "pm10") == None
    ensures CalculateSubIndex(Some(100.0), "xyz") == None
  {
    assert Lower("pm10") == "pm10" && Lower("xyz") == "xyz";
    Pm10WellFormed();
    SubIndexNoneIff(PM10, -10.0);
  }

  /** The data-row columns and the table keys they map to, in `pollutant_map` order. */
  const POLLUTANT_MAP: seq<(string, string)> :=
    [("PM2.5", "pm25"), ("PM10", "pm10"), ("NO2", "no2"), ("O3", "o3"), ("CO", "co"), ("SO2", "so2"), ("NH3", "nh3")]

  /** The sub-index column `i` of `pollutant_map` contributes: none when the row lacks the column. */
  function ColumnSubIndex(row: map<string, Option<real>>, i: nat): Option<int>
    requires i < |POLLUTANT_MAP|
  {
    var (column, key) := POLLUTANT_MAP[i];
    if column in row then CalculateSubIndex(row[column], key) else None
  }

  /** The sub-indices of the first `n` mapped columns, in order, skipping the missing ones. */
  function SubIndices(row: map<string, Option<real>>, n: nat): (s: seq<int>)
    requires n <= |POLLUTANT_MAP|
    ensures forall x :: x in s <==> exists i :: 0 <= i < n && ColumnSubIndex(row, i) == Some(x)
  {
    if n == 0 then []
    else
      var s := SubIndices(row, n - 1);
      match ColumnSubIndex(row, n - 1)
      case Some(x) => s + [x]
      case None => s
  }

  /** Python's `max` of a non-empty list. */
  function MaxOf(s: seq<int>): (m: int)
    requires |s| > 0
    ensures m in s && forall x :: x in s ==> x <= m
  {
    if |s| == 1 then s[0]
    else
      var m := MaxOf(s[..|s| - 1]);
      assert forall x :: x in s ==> x in s[..|s| - 1] || x == s[|s| - 1];
      if s[|s| - 1] > m then s[|s| - 1] else m
  }

  /**
   * `calculate_aqi_from_pollutants(data_row)`: the largest sub-index over the mapped columns
   * present in the row, or `None` when no column yields one.
   */
  method CalculateAqiFromPollutants(row: map<string, Option<real>>) returns (aqi: Option<int>)
    ensures aqi.None? <==> forall i :: 0 <= i < |POLLUTANT_MAP| ==> ColumnSubIndex(row, i).None?
    ensures aqi.Some? ==> exists i :: 0 <= i < |POLLUTANT_MAP| && ColumnSubIndex(row, i) == aqi
    ensures aqi.Some? ==> forall i :: 0 <= i < |POLLUTANT_MAP| && ColumnSubIndex(row, i).Some? ==>
      ColumnSubIndex(row, i).value <= aqi.value
  {
    var subIndices: seq<int> := [];
    for i := 0 to |POLLUTANT_MAP|
      invariant subIndices == SubIndices(row, i)
    {
      var (column, key) := POLLUTANT_MAP[i];
      if column in row {
        var subIndex := CalculateSubIndex(row[column], key);
        if subIndex.Some? {
          subIndices := subIndices + [subIndex.value];
        }
      }
    }
    if |subIndices| == 0 {
      assert forall i :: 0 <= i < |POLLUTANT_MAP| && ColumnSubIndex(row, i).Some? ==> ColumnSubIndex(row, i).value in subIndices;
      return None;
    }
    aqi := Some(MaxOf(subIndices));
    assert forall i :: 0 <= i < |POLLUTANT_MAP| && ColumnSubIndex(row, i).Some? ==> ColumnSubIndex(row, i).value in subIndices;
  }
}
