/**
 * Health-risk warnings from individual pollutant readings: for each pollutant of the
 * threshold table, the warning of the highest threshold its reading reaches.
 */
module Interpreter {
  import opened Wrappers
  import opened PyText
  import opened PyJson

  /** One `{"threshold", "risk", "severity"}` entry. */
  datatype Level = Level(threshold: real, risk: string, severity: string)

  const SEVERE_RISK: string := "Serious respiratory impact on healthy people. Serious aggravation of heart or lung disease."
  const CO_SEVERE_RISK: string := "Serious aggravation of heart or lung disease; may cause respiratory effects even during light activity."
  const VERY_POOR_RISK: string := "Respiratory illness on prolonged exposure. Effect may be pronounced in people with heart/lung diseases."
  const POOR_RISK: string := "Breathing discomfort to people on prolonged exposure, and discomfort to people with heart disease."
  const MODERATE_RISK: string := "Breathing discomfort to people with lung disease (e.g., asthma) and heart disease, children, older adults."

  /** The four levels of one pollutant, from its Severe, Very Poor, Poor and Moderate thresholds. */
  function Levels(severe: real, veryPoor: real, poor: real, moderate: real, severeRisk: string := SEVERE_RISK): (ls: seq<Level>)
    ensures |ls| == 4
  {
    [Level(severe, severeRisk, "Severe"), Level(veryPoor, VERY_POOR_RISK, "Very Poor"),
     Level(poor, POOR_RISK, "Poor"), Level(moderate, MODERATE_RISK, "Moderate")]
  }

  /** `POLLUTANT_HEALTH_THRESHOLDS`, in the dict's insertion order. */
  const POLLUTANT_HEALTH_THRESHOLDS: seq<(string, seq<Level>)> := [
    ("pm25", Levels(251.0, 121.0, 91.0, 61.0)),
    ("pm10", Levels(431.0, 351.0, 251.0, 101.0)),
    ("o3", Levels(749.0, 209.0, 169.0, 101.0)),
    ("no2", Levels(401.0, 281.0, 181.0, 81.0)),
    ("so2", Levels(1601.0, 801.0, 381.0, 81.0)),
    ("co", Levels(34.1, 17.1, 10.1, 2.1, CO_SEVERE_RISK))]

  /** Thresholds never rise along the list. */
  predicate NonIncreasing(ls: seq<Level>) {
    forall i, j :: 0 <= i < j < |ls| ==> ls[i].threshold >= ls[j].threshold
  }

  /** Thresholds fall strictly along the list. */
  predicate Decreasing(ls: seq<Level>) {
    forall i, j :: 0 <= i < j < |ls| ==> ls[i].threshold > ls[j].threshold
  }

  /** Places `x` after every entry whose threshold is at least its own, as a stable sort does. */
  function Insert(ls: seq<Level>, x: Level): (r: seq<Level>)
    ensures multiset(r) == multiset(ls) + multiset{x}
    ensures |r| == |ls| + 1
  {
    if ls == [] then [x]
    else if ls[0].threshold >= x.threshold then
      assert ls == [ls[0]] + ls[1..];
      [ls[0]] + Insert(ls[1..], x)
    else [x] + ls
  }

  /** `sorted(thresholds, key=lambda x: x['threshold'], reverse=True)`: a stable sort, highest threshold first. */
  function SortByThresholdDesc(ls: seq<Level>): (r: seq<Level>)
    ensures multiset(r) == multiset(ls)
    ensures |r| == |ls|
  {
    if ls == [] then []
    else
      assert ls == ls[..|ls| - 1] + [ls[|ls| - 1]];
      Insert(SortByThresholdDesc(ls[..|ls| - 1]), ls[|ls| - 1])
  }

  lemma {:induction false} InsertKeepsOrder(ls: seq<Level>, x: Level)
    requires NonIncreasing(ls)
    ensures NonIncreasing(Insert(ls, x))
    decreases |ls|
  {
    if ls != [] && ls[0].threshold >= x.threshold {
      InsertKeepsOrder(ls[1..], x);
      var r := Insert(ls, x);
      var tail := Insert(ls[1..], x);
      assert r == [ls[0]] + tail;
      forall j | 0 < j < |r| ensures r[0].threshold >= r[j].threshold {
        assert r[j] in multiset(tail);
        assert r[j] in multiset(ls[1..]) + multiset{x};
        if r[j] in multiset(ls[1..]) {
          var m :| 0 <= m < |ls[1..]| && ls[1..][m] == r[j];
          assert ls[m + 1] == r[j];
        }
      }
    }
  }

  /** The sort keeps exactly the levels it was given. */
  lemma SortKeepsLevels(ls: seq<Level>)
    ensures forall l :: l in ls <==> l in SortByThresholdDesc(ls)
  {
    var r := SortByThresholdDesc(ls);
    assert forall l :: l in ls <==> l in multiset(ls);
    assert forall l :: l in r <==> l in multiset(r);
  }

  /** The sort puts the thresholds in non-increasing order. */
  lemma {:induction false} SortIsOrdered(ls: seq<Level>)
    ensures NonIncreasing(SortByThresholdDesc(ls))
    decreases |ls|
  {
    if ls != [] {
      SortIsOrdered(ls[..|ls| - 1]);
      InsertKeepsOrder(SortByThresholdDesc(ls[..|ls| - 1]), ls[|ls| - 1]);
    }
  }

  lemma {:induction false} InsertLowest(ls: seq<Level>, x: Level)
    requires forall i :: 0 <= i < |ls| ==> ls[i].threshold >= x.threshold
    ensures Insert(ls, x) == ls + [x]
    decreases |ls|
  {
    if ls != [] {
      InsertLowest(ls[1..], x);
      assert [ls[0]] + (ls[1..] + [x]) == ls + [x];
    }
  }

  /** A list already in strictly decreasing order is its own sort. */
  lemma {:induction false} SortOfDecreasing(ls: seq<Level>)
    requires Decreasing(ls)
    ensures SortByThresholdDesc(ls) == ls
    decreases |ls|
  {
    if ls != [] {
      var front := ls[..|ls| - 1];
      assert Decreasing(front);
      SortOfDecreasing(front);
      InsertLowest(front, ls[|ls| - 1]);
      assert front + [ls[|ls| - 1]] == ls;
    }
  }

  /** The `for ... break` loop over the sorted levels from position `j`: the first level the value reaches. */
  function FirstReached(ls: seq<Level>, v: real, j: nat): (r: Option<nat>)
    requires j <= |ls|
    ensures r.Some? ==> j <= r.value < |ls| && v >= ls[r.value].threshold
    ensures r.Some? ==> forall m :: j <= m < r.value ==> v < ls[m].threshold
    ensures r.None? ==> forall m :: j <= m < |ls| ==> v < ls[m].threshold
    decreases |ls| - j
  {
    if j == |ls| then None
    else if v >= ls[j].threshold then Some(j)
    else FirstReached(ls, v, j + 1)
  }

  /** `f"{pollutant.upper()} ({severity}): {risk}"` */
  function Message(pollutant: string, level: Level): (m: string)
    ensures |m| >= 5
  {
    Upper(pollutant) + " (" + level.severity + "): " + level.risk
  }

  /** The warning one table entry contributes for a reading, if any. Entries that are not dicts,
      lack `'v'`, or whose value `float` rejects with a `ValueError` or `TypeError` contribute nothing. */
  function RiskOf(iaqi: map<string, Json>, pollutant: string, thresholds: seq<Level>): (r: Option<string>)
    ensures r.Some? ==> pollutant in iaqi && iaqi[pollutant].JObj? && "v" in iaqi[pollutant].fields
    ensures r.Some? ==> PyFloat(iaqi[pollutant].fields["v"]).Ok?
  {
    if pollutant in iaqi && iaqi[pollutant].JObj? && "v" in iaqi[pollutant].fields then
      match PyFloat(iaqi[pollutant].fields["v"])
      case Err(_) => None
      case Ok(v) => RiskForValue(pollutant, thresholds, v)
    else None
  }

  /** The warning for a parsed reading: that of the first threshold, highest first, the value reaches. */
  function RiskForValue(pollutant: string, thresholds: seq<Level>, v: real): Option<string> {
    var ordered := SortByThresholdDesc(thresholds);
    match FirstReached(ordered, v, 0)
    case None => None
    case Some(k) => Some(Message(pollutant, ordered[k]))
  }

  /** What each table entry contributes, in table order. */
  function Contributions(table: seq<(string, seq<Level>)>, iaqi: map<string, Json>): (cs: seq<Option<string>>)
    ensures |cs| == |table|
  {
    seq(|table|, i requires 0 <= i < |table| => RiskOf(iaqi, table[i].0, table[i].1))
  }

  /** The present values of a list of optional warnings, in order. */
  function Kept(cs: seq<Option<string>>): (rs: seq<string>)
    ensures |rs| <= |cs|
  {
    if cs == [] then []
    else
      var rs := Kept(cs[..|cs| - 1]);
      match cs[|cs| - 1]
      case None => rs
      case Some(m) => rs + [m]
  }

  /** The result of `interpret_pollutant_risks` for a whole input under a given table. */
  function ExpectedRisksIn(table: seq<(string, seq<Level>)>, iaqiData: Json): (rs: seq<string>)
    ensures |rs| <= |table|
  {
    if !IsTruthy(iaqiData) || !iaqiData.JObj? then [] else Kept(Contributions(table, iaqiData.fields))
  }

  /**
   * `interpret_pollutant_risks(iaqi_data)`: one warning per pollutant of the table whose
   * reading reaches one of its thresholds, in table order.
   */
  method InterpretPollutantRisks(iaqiData: Json) returns (triggeredRisks: seq<string>)
    ensures triggeredRisks == ExpectedRisksIn(POLLUTANT_HEALTH_THRESHOLDS, iaqiData)
    ensures |triggeredRisks| <= |POLLUTANT_HEALTH_THRESHOLDS|
  {
    triggeredRisks := [];
    if !IsTruthy(iaqiData) || !iaqiData.JObj? {
      return;
    }
    var iaqi := iaqiData.fields;
    ghost var cs := Contributions(POLLUTANT_HEALTH_THRESHOLDS, iaqi);
    for i := 0 to |POLLUTANT_HEALTH_THRESHOLDS|
      invariant triggeredRisks == Kept(cs[..i])
    {
      var (pollutant, thresholds) := POLLUTANT_HEALTH_THRESHOLDS[i];
      assert cs[..i + 1][..i] == cs[..i];
      assert cs[i] == RiskOf(iaqi, pollutant, thresholds);
      if pollutant in iaqi && iaqi[pollutant].JObj? && "v" in iaqi[pollutant].fields {
        match PyFloat(iaqi[pollutant].fields["v"]) {
          case Err(_) =>
            // float() raised a ValueError or TypeError: skip this pollutant
          case Ok(value) =>
            var highestRiskFound := HighestRiskFound(pollutant, thresholds, value);
            if highestRiskFound.Some? && highestRiskFound.value != [] {
              triggeredRisks := triggeredRisks + [highestRiskFound.value];
            }
        }
      }
    }
    assert cs[..|cs|] == cs;
  }

  /** The inner loop: the warning of the first threshold, highest first, that `value` reaches. */
  method HighestRiskFound(pollutant: string, thresholds: seq<Level>, value: real) returns (highestRiskFound: Option<string>)
    ensures highestRiskFound == RiskForValue(pollutant, thresholds, value)
  {
    highestRiskFound := None;
    var ordered := SortByThresholdDesc(thresholds);
    var j := 0;
    while j < |ordered|
      invariant 0 <= j <= |ordered|
      invariant FirstReached(ordered, value, 0) == FirstReached(ordered, value, j)
      invariant highestRiskFound.None?
    {
      if value >= ordered[j].threshold {
        highestRiskFound := Some(Message(pollutant, ordered[j]));
        break;
      }
      j := j + 1;
    }
  }

  /** A missing, empty or non-dict input gives no warnings. */
  lemma NoWarningsForInvalidInput(table: seq<(string, seq<Level>)>, iaqiData: Json)
    requires !IsTruthy(iaqiData) || !iaqiData.JObj?
    ensures ExpectedRisksIn(table, iaqiData) == []
  {
  }

  /**
   * A parsed reading warns exactly when it reaches some threshold, and the warning names the
   * highest threshold it reaches (a threshold counts as reached when equal), whatever the order
   * of the thresholds in the table.
   */
  lemma RiskForValueIsHighestReached(pollutant: string, thresholds: seq<Level>, v: real)
    ensures RiskForValue(pollutant, thresholds, v).Some? <==> exists l :: l in thresholds && l.threshold <= v
    ensures RiskForValue(pollutant, thresholds, v).Some? ==>
      exists l :: l in thresholds && RiskForValue(pollutant, thresholds, v) == Some(Message(pollutant, l))
        && l.threshold <= v
        && forall l' :: l' in thresholds && l'.threshold <= v ==> l'.threshold <= l.threshold
  {
    var ordered := SortByThresholdDesc(thresholds);
    SortIsOrdered(thresholds);
    SortKeepsLevels(thresholds);
    match FirstReached(ordered, v, 0)
    case None =>
      forall l | l in thresholds ensures l.threshold > v {
        var m :| 0 <= m < |ordered| && ordered[m] == l;
      }
    case Some(k) =>
      var l := ordered[k];
      forall l' | l' in thresholds && l'.threshold <= v ensures l'.threshold <= l.threshold {
        var m :| 0 <= m < |ordered| && ordered[m] == l';
      }
  }

  /**
   * The warnings are those of the contributing entries, one per entry and in order:
   * entry `idx[m]` gives the `m`-th warning, and the indices strictly increase.
   */
  lemma {:induction false} KeptInOrder(cs: seq<Option<string>>) returns (idx: seq<nat>)
    ensures |idx| == |Kept(cs)|
    ensures forall m :: 0 <= m < |idx| ==> idx[m] < |cs| && cs[idx[m]] == Some(Kept(cs)[m])
    ensures forall m, m' :: 0 <= m < m' < |idx| ==> idx[m] < idx[m']
    ensures forall i :: 0 <= i < |cs| && cs[i].Some? ==> i in idx
  {
    if cs == [] {
      idx := [];
    } else {
      var front := cs[..|cs| - 1];
      var prev := KeptInOrder(front);
      assert forall i :: 0 <= i < |front| ==> cs[i] == front[i];
      match cs[|cs| - 1]
      case None =>
        assert Kept(cs) == Kept(front);
        idx := prev;
      case Some(w) =>
        assert Kept(cs) == Kept(front) + [w];
        idx := prev + [|cs| - 1];
        assert forall m :: 0 <= m < |prev| ==> idx[m] == prev[m];
        assert forall i :: 0 <= i < |front| && cs[i].Some? ==> i in prev;
    }
  }

  /** A reading for a pollutant the table does not name changes nothing. */
  lemma UnknownPollutantIgnored(table: seq<(string, seq<Level>)>, fields: map<string, Json>, key: string, x: Json)
    requires forall i :: 0 <= i < |table| ==> table[i].0 != key
    ensures ExpectedRisksIn(table, JObj(fields[key := x])) == ExpectedRisksIn(table, JObj(fields))
  {
    var updated := fields[key := x];
    assert Contributions(table, updated) == Contributions(table, fields) by {
      forall i | 0 <= i < |table|
        ensures RiskOf(updated, table[i].0, table[i].1) == RiskOf(fields, table[i].0, table[i].1)
      {
      }
    }
    assert IsTruthy(JObj(updated)) by {
      assert key in updated;
    }
    if fields == map[] {
      NothingKept(Contributions(table, fields));
    }
  }

  /** Without readings no entry contributes. */
  lemma {:induction false} NothingKept(cs: seq<Option<string>>)
    requires forall i :: 0 <= i < |cs| ==> cs[i].None?
    ensures Kept(cs) == []
  {
    if cs != [] {
      NothingKept(cs[..|cs| - 1]);
    }
  }

  /** Every threshold list of the table is strictly decreasing, so its sort leaves it as written. */
  lemma TableIsSorted(i: nat)
    requires i < |POLLUTANT_HEALTH_THRESHOLDS|
    ensures SortByThresholdDesc(POLLUTANT_HEALTH_THRESHOLDS[i].1) == POLLUTANT_HEALTH_THRESHOLDS[i].1
  {
    SortOfDecreasing(POLLUTANT_HEALTH_THRESHOLDS[i].1);
  }

  /** Examples of tests/health_rules/test_interpreter.py for PM2.5: the Moderate threshold counts
      when met exactly, 130 is Very Poor, and a reading just below 61 warns of nothing. */
  lemma Pm25Examples()
    ensures RiskForValue("pm25", POLLUTANT_HEALTH_THRESHOLDS[0].1, 61.0) == Some(Message("pm25", Level(61.0, MODERATE_RISK, "Moderate")))
    ensures RiskForValue("pm25", POLLUTANT_HEALTH_THRESHOLDS[0].1, 130.0) == Some(Message("pm25", Level(121.0, VERY_POOR_RISK, "Very Poor")))
    ensures RiskForValue("pm25", POLLUTANT_HEALTH_THRESHOLDS[0].1, 60.9) == None
  {
    TableIsSorted(0);
    Pm25Reached(61.0, 3);
    Pm25Reached(130.0, 1);
    Pm25Reached(60.9, 4);
  }

  /** The first PM2.5 level, in falling threshold order, that a value reaches. */
  lemma Pm25Reached(v: real, k: nat)
    requires k == if v >= 251.0 then 0 else if v >= 121.0 then 1 else if v >= 91.0 then 2 else if v >= 61.0 then 3 else 4
    ensures var levels := POLLUTANT_HEALTH_THRESHOLDS[0].1;
      FirstReached(SortByThresholdDesc(levels), v, 0) == (if k == 4 then None else Some(k))
  {
    TableIsSorted(0);
    var ls := Levels(251.0, 121.0, 91.0, 61.0);
    assert POLLUTANT_HEALTH_THRESHOLDS[0].1 == ls;
    assert ls[0].threshold == 251.0 && ls[1].threshold == 121.0 && ls[2].threshold == 91.0 && ls[3].threshold == 61.0;
    assert FirstReached(ls, v, 4) == None;
    assert FirstReached(ls, v, 3) == (if v >= 61.0 then Some(3) else None);
    assert FirstReached(ls, v, 2) == (if v >= 91.0 then Some(2) else FirstReached(ls, v, 3));
    assert FirstReached(ls, v, 1) == (if v >= 121.0 then Some(1) else FirstReached(ls, v, 2));
  }

  /** The message of the test's boundary case. */
  lemma ModerateMessage()
    ensures Message("pm25", Level(61.0, MODERATE_RISK, "Moderate")) == "PM25 (Moderate): " + MODERATE_RISK
  {
    assert Upper("pm25") == "PM25";
  }

  /** "high" is not a number, so its pollutant is skipped. */
  lemma HighIsNotANumber()
    ensures PyFloat(JStr("high")).Err?
  {
    WordIsNoNumber("high");
  }
}
