/**
 * The CPCB National Air Quality Index scale (India) and the lookup that
 * classifies an AQI value into one of its six categories.
 * Each category's range is stored as text ("0-50"), and the lookup parses it
 * on every call, as the source does.
 */
module AqiInfo {
  import opened Wrappers
  import opened PyText

  /** One entry of the scale, with exactly the keys range, level, color and implications. */
  datatype Category = Category(range: string, level: string, color: string, implications: string)

  const AQI_SCALE: seq<Category> := [
    Category("0-50", "Good", "#228B22",
      "Minimal Impact. Air quality is considered satisfactory, and air pollution poses little or no risk."),
    Category("51-100", "Satisfactory", "#90EE90",
      "Minor breathing discomfort to sensitive people. Air quality is acceptable."),
    Category("101-200", "Moderate", "#FFD700",
      "Breathing discomfort to people with lung disease such as asthma, and discomfort to people with heart disease, children and older adults."),
    Category("201-300", "Poor", "#FFA500",
      "Breathing discomfort to people on prolonged exposure, and discomfort to people with heart disease."),
    Category("301-400", "Very Poor", "#FF0000",
      "Respiratory illness on prolonged exposure. Effect may be more pronounced in people with lung and heart diseases."),
    Category("401-500", "Severe", "#800000",
      "Affects healthy people and seriously impacts those with existing diseases. May cause respiratory impact even on light physical activity.")
  ]

  /** The bounds the six range texts spell, for stating properties. */
  const LOWS: seq<int> := [0, 51, 101, 201, 301, 401]
  const HIGHS: seq<int> := [50, 100, 200, 300, 400, 500]

  /** What `get_aqi_info` can be called with: `None`/NaN, a non-number, or an `int`/`float`. */
  datatype AqiInput = Missing | NotNumeric | Number(v: real)

  /** `low, high = map(int, rng.split('-'))`; `None` stands for the `ValueError`. */
  function ParseRange(rng: string): Option<(int, int)>
  {
    var parts := Split(rng, '-');
    if |parts| != 2 then None
    else match (ParseInt(parts[0]), ParseInt(parts[1]))
      case (Some(lo), Some(hi)) => Some((lo, hi))
      case _ => None
  }

  /** The bounds the loop reads off a category: `None` when the range has no dash
      (the category is passed over) or does not parse (the `ValueError` is swallowed). */
  function RangeOf(c: Category): Option<(int, int)> {
    if '-' in c.range then ParseRange(c.range) else None
  }

  /** The bounds of every category of `scale`, in order. Parsing has no effect, so reading
      them all before the scan selects the same category as reading each one in turn. */
  function RangesOf(scale: seq<Category>): (r: seq<Option<(int, int)>>)
    ensures |r| == |scale|
  {
    if scale == [] then [] else [RangeOf(scale[0])] + RangesOf(scale[1..])
  }

  /** `low <= aqi_value <= high` for a category whose bounds were read. */
  predicate InRange(b: Option<(int, int)>, v: real) {
    b.Some? && b.value.0 as real <= v <= b.value.1 as real
  }

  /** The `for category in AQI_SCALE` loop from position `i`: the index of the first category holding `v`. */
  function ScanFrom(bounds: seq<Option<(int, int)>>, v: real, i: nat): (r: Option<nat>)
    requires i <= |bounds|
    ensures r.Some? ==> i <= r.value < |bounds| && InRange(bounds[r.value], v)
    ensures r.Some? ==> forall j :: i <= j < r.value ==> !InRange(bounds[j], v)
    ensures r.None? ==> forall j :: i <= j < |bounds| ==> !InRange(bounds[j], v)
    decreases |bounds| - i
  {
    if i == |bounds| then None
    else if InRange(bounds[i], v) then Some(i)
    else ScanFrom(bounds, v, i + 1)
  }

  /** The fall-back after the loop: a value above the last range's upper bound gets the last category. */
  function AboveTop(scale: seq<Category>, v: real): (r: Option<Category>)
    ensures r.Some? ==> |scale| > 0 && r.value == scale[|scale| - 1]
  {
    if |scale| > 0 && '-' in scale[|scale| - 1].range then
      var parts := Split(scale[|scale| - 1].range, '-');
      if |parts| < 2 then None
      else match ParseInt(parts[1])
        case None => None
        case Some(lastHigh) => if v > lastHigh as real then Some(scale[|scale| - 1]) else None
    else None
  }

  /** The loop over `scale` followed by the fall-back, for a non-negative number. */
  function LookupIn(scale: seq<Category>, v: real): (r: Option<Category>)
    ensures r.Some? ==> r.value in scale
  {
    match ScanFrom(RangesOf(scale), v, 0)
    case Some(k) => Some(scale[k])
    case None => AboveTop(scale, v)
  }

  /** `get_aqi_info(aqi_value)` */
  function GetAqiInfo(x: AqiInput): (r: Option<Category>)
    ensures r.Some? ==> x.Number? && x.v >= 0.0 && r.value in AQI_SCALE
  {
    match x
    case Missing => None
    case NotNumeric => None
    case Number(v) => if v < 0.0 then None else LookupIn(AQI_SCALE, v)
  }

  /** The scale's category index for a non-negative integer, by the published boundaries. */
  function CategoryIndex(n: int): (k: nat)
    ensures k < 6
  {
    if n <= 50 then 0 else if n <= 100 then 1 else if n <= 200 then 2
    else if n <= 300 then 3 else if n <= 400 then 4 else 5
  }

  /** The published CPCB level names, written independently of the table. */
  function CpcbLevel(n: int): string {
    if n <= 50 then "Good" else if n <= 100 then "Satisfactory" else if n <= 200 then "Moderate"
    else if n <= 300 then "Poor" else if n <= 400 then "Very Poor" else "Severe"
  }

  /** The range text of category `k` spells its two bounds. */
  lemma RangeText(k: nat)
    requires k < 6
    ensures AQI_SCALE[k].range == NatToString(LOWS[k]) + "-" + NatToString(HIGHS[k])
  {
    if k == 0 { RangeText0(); }
    else if k == 1 { RangeText1(); }
    else if k == 2 { RangeText2(); }
    else if k == 3 { RangeText3(); }
    else if k == 4 { RangeText4(); }
    else { RangeText5(); }
  }

  lemma RangeText0()
    ensures AQI_SCALE[0].range == NatToString(0) + "-" + NatToString(50)
  {
    assert NatToString(5) == "5" && NatToString(50) == "50";
  }

  lemma RangeText1()
    ensures AQI_SCALE[1].range == NatToString(51) + "-" + NatToString(100)
  {
    assert NatToString(5) == "5" && NatToString(51) == "51" && NatToString(10) == "10" && NatToString(100) == "100";
  }

  lemma RangeText2()
    ensures AQI_SCALE[2].range == NatToString(101) + "-" + NatToString(200)
  {
    assert NatToString(10) == "10" && NatToString(101) == "101" && NatToString(20) == "20" && NatToString(200) == "200";
  }

  lemma RangeText3()
    ensures AQI_SCALE[3].range == NatToString(201) + "-" + NatToString(300)
  {
    assert NatToString(20) == "20" && NatToString(201) == "201" && NatToString(30) == "30" && NatToString(300) == "300";
  }

  lemma RangeText4()
    ensures AQI_SCALE[4].range == NatToString(301) + "-" + NatToString(400)
  {
    assert NatToString(30) == "30" && NatToString(301) == "301" && NatToString(40) == "40" && NatToString(400) == "400";
  }

  lemma RangeText5()
    ensures AQI_SCALE[5].range == NatToString(401) + "-" + NatToString(500)
  {
    assert NatToString(40) == "40" && NatToString(401) == "401" && NatToString(50) == "50" && NatToString(500) == "500";
  }



  /** A range text written as two numbers around a dash splits into those numbers' texts and parses to them. */
  lemma RangeParses(lo: nat, hi: nat)
    ensures var s := NatToString(lo) + "-" + NatToString(hi);
      && '-' in s
      && Split(s, '-') == [NatToString(lo), NatToString(hi)]
      && ParseRange(s) == Some((lo, hi))
  {
    var x, y := NatToString(lo), NatToString(hi);
    assert '-' !in x && '-' !in y;
    SplitOfJoin(x, '-', y);
    ParseIntOfNatToString(lo);
    ParseIntOfNatToString(hi);
    assert (x + "-" + y)[|x|] == '-';
  }

  /** `RangesOf` reads each category's bounds at its own position. */
  lemma {:induction false} RangesOfAt(scale: seq<Category>, k: nat)
    requires k < |scale|
    ensures RangesOf(scale)[k] == RangeOf(scale[k])
    decreases k
  {
    if k > 0 {
      RangesOfAt(scale[1..], k - 1);
    }
  }

  /** Bounds that are, position by position, the six the scale's texts spell. */
  predicate SpellsBounds(bounds: seq<Option<(int, int)>>) {
    |bounds| == 6 && forall k | 0 <= k < 6 :: bounds[k] == Some((LOWS[k], HIGHS[k]))
  }

  /** Category `k` of the scale is read as the bounds its text spells. */
  lemma ScaleRangeAt(k: nat)
    requires k < 6
    ensures RangesOf(AQI_SCALE)[k] == Some((LOWS[k], HIGHS[k]))
  {
    RangeText(k);
    RangeParses(LOWS[k], HIGHS[k]);
    RangesOfAt(AQI_SCALE, k);
  }

  /** Every range text of the scale holds a dash and is read as the bounds it spells. */
  lemma ScaleRangesParse()
    ensures SpellsBounds(RangesOf(AQI_SCALE))
  {
    forall k | 0 <= k < 6 ensures RangesOf(AQI_SCALE)[k] == Some((LOWS[k], HIGHS[k])) {
      ScaleRangeAt(k);
    }
  }

  /** Bounds the scale's texts spell are contiguous integer ranges from 0 to 500, in increasing order. */
  lemma {:induction false} SpelledBoundsContiguous(bounds: seq<Option<(int, int)>>)
    requires SpellsBounds(bounds)
    ensures forall k | 0 <= k < 6 :: bounds[k].Some? && bounds[k].value.0 <= bounds[k].value.1
    ensures bounds[0].value.0 == 0 && bounds[5].value.1 == 500
    ensures forall k | 0 <= k < 5 :: bounds[k + 1].value.0 == bounds[k].value.1 + 1
  {
    forall k | 0 <= k < 5 ensures bounds[k + 1].value.0 == bounds[k].value.1 + 1 {
      assert bounds[k] == Some((LOWS[k], HIGHS[k]));
      assert bounds[k + 1] == Some((LOWS[k + 1], HIGHS[k + 1]));
    }
  }

  /** The ranges read off the scale are contiguous integer ranges from 0 to 500, in increasing order. */
  lemma ScaleIsContiguous()
    ensures var bounds := RangesOf(AQI_SCALE);
      && (forall k | 0 <= k < 6 :: bounds[k].Some? && bounds[k].value.0 <= bounds[k].value.1)
      && bounds[0].value.0 == 0 && bounds[5].value.1 == 500
      && (forall k | 0 <= k < 5 :: bounds[k + 1].value.0 == bounds[k].value.1 + 1)
  {
    ScaleRangesParse();
    SpelledBoundsContiguous(RangesOf(AQI_SCALE));
  }

  /** The fall-back fires exactly above 500, the upper bound the last text spells. */
  lemma AboveTopOfScale(v: real)
    ensures AboveTop(AQI_SCALE, v) == (if v > 500.0 then Some(AQI_SCALE[5]) else None)
  {
    RangeText(5);
    RangeParses(401, 500);
    ParseIntOfNatToString(500);
  }

  /** `v` lies within one of the six ranges' bounds. */
  predicate Covered(v: real) {
    exists k | 0 <= k < 6 :: LOWS[k] as real <= v <= HIGHS[k] as real
  }

  /** The range whose bounds hold `v`, or 6 when none does. */
  function CoveringIndex(v: real): (k: nat)
    ensures k <= 6
    ensures k < 6 ==> LOWS[k] as real <= v <= HIGHS[k] as real
    ensures k == 6 <==> !Covered(v)
  {
    if 0.0 <= v <= 50.0 then 0 else if 51.0 <= v <= 100.0 then 1
    else if 101.0 <= v <= 200.0 then 2 else if 201.0 <= v <= 300.0 then 3
    else if 301.0 <= v <= 400.0 then 4 else if 401.0 <= v <= 500.0 then 5
    else 6
  }

  /** The scan over bounds the scale's texts spell finds the range holding `v`, if any. */
  lemma {:induction false} ScanBounds(bounds: seq<Option<(int, int)>>, v: real)
    requires SpellsBounds(bounds)
    ensures ScanFrom(bounds, v, 0) == if CoveringIndex(v) < 6 then Some(CoveringIndex(v)) else None
  {
    var k := CoveringIndex(v);
    if k < 6 {
      assert InRange(bounds[k], v);
      assert forall j :: 0 <= j < 6 && j != k ==> !InRange(bounds[j], v);
    } else {
      assert forall j :: 0 <= j < 6 ==> !InRange(bounds[j], v);
    }
  }

  /** Among bounds the scale's texts spell, an integer from 0 to 500 lies in exactly one. */
  lemma {:induction false} ExactlyOneIn(bounds: seq<Option<(int, int)>>, n: int)
    requires SpellsBounds(bounds) && 0 <= n <= 500
    ensures forall k :: 0 <= k < 6 ==> (InRange(bounds[k], n as real) <==> k == CategoryIndex(n))
  {
    forall k | 0 <= k < 6 ensures InRange(bounds[k], n as real) <==> k == CategoryIndex(n) {
      assert bounds[k] == Some((LOWS[k], HIGHS[k]));
    }
  }

  /** Every integer from 0 to 500 lies in exactly one category of the scale. */
  lemma ExactlyOneCategory(n: int)
    requires 0 <= n <= 500
    ensures forall k :: 0 <= k < 6 ==> (InRange(RangesOf(AQI_SCALE)[k], n as real) <==> k == CategoryIndex(n))
  {
    ScaleRangesParse();
    ExactlyOneIn(RangesOf(AQI_SCALE), n);
  }

  /** The lookup in a scale whose texts spell the six ranges: the range holding `v`, else the fall-back. */
  lemma {:induction false} LookupSpelled(scale: seq<Category>, v: real)
    requires |scale| == 6 && SpellsBounds(RangesOf(scale))
    ensures CoveringIndex(v) < 6 ==> LookupIn(scale, v) == Some(scale[CoveringIndex(v)])
    ensures CoveringIndex(v) == 6 ==> LookupIn(scale, v) == AboveTop(scale, v)
  {
    ScanBounds(RangesOf(scale), v);
    if CoveringIndex(v) < 6 {
      assert ScanFrom(RangesOf(scale), v, 0) == Some(CoveringIndex(v));
    } else {
      assert ScanFrom(RangesOf(scale), v, 0) == None;
    }
  }

  /** `get_aqi_info` on a number: the category whose range holds it, Severe above 500, otherwise nothing. */
  lemma GetAqiInfoOfNumber(v: real)
    ensures GetAqiInfo(Number(v)) ==
      if v < 0.0 then None
      else if CoveringIndex(v) < 6 then Some(AQI_SCALE[CoveringIndex(v)])
      else if v > 500.0 then Some(AQI_SCALE[5]) else None
  {
    ScaleRangesParse();
    AboveTopOfScale(v);
    LookupSpelled(AQI_SCALE, v);
  }

  /**
   * Every non-negative integer is classified, by the published boundaries
   * (50/51, 100/101, 200/201, 300/301, 400/401), with anything above 500 Severe.
   */
  lemma ClassifiesNonNegativeIntegers(n: int)
    requires n >= 0
    ensures GetAqiInfo(Number(n as real)) == Some(AQI_SCALE[CategoryIndex(n)])
    ensures GetAqiInfo(Number(n as real)).value.level == CpcbLevel(n)
  {
    GetAqiInfoOfNumber(n as real);
    IntegerCovering(n);
    LevelNames(CategoryIndex(n));
  }

  /** An integer from 0 to 500 is held by the range the published boundaries give it. */
  lemma IntegerCovering(n: int)
    requires n >= 0
    ensures n <= 500 ==> CoveringIndex(n as real) == CategoryIndex(n)
    ensures n > 500 ==> CoveringIndex(n as real) == 6 && CategoryIndex(n) == 5
  {
  }

  /** The level names of the scale, position by position, are the published ones. */
  lemma LevelNames(k: nat)
    requires k < 6
    ensures AQI_SCALE[k].level == CpcbLevel(LOWS[k])
    ensures forall n :: k == CategoryIndex(n) ==> CpcbLevel(n) == AQI_SCALE[k].level
  {
  }

  /**
   * A number gets a category exactly when it is non-negative and either lies in
   * a range or is above 500: a fraction strictly between two ranges gets none.
   */
  lemma ClassifiedIff(v: real)
    ensures GetAqiInfo(Number(v)).Some? <==> v >= 0.0 && (v > 500.0 || Covered(v))
  {
    GetAqiInfoOfNumber(v);
  }

  /** 100.4 and 100.5 lie between the Satisfactory and Moderate ranges, so both get no category
      (tests/health_rules/test_info.py expects Satisfactory and Moderate). */
  lemma FractionsBetweenRangesUnclassified()
    ensures GetAqiInfo(Number(100.4)) == None
    ensures GetAqiInfo(Number(100.5)) == None
  {
    FractionUnclassified(100.4);
    FractionUnclassified(100.5);
  }

  /** A value strictly between the Satisfactory and Moderate ranges falls in no range. */
  lemma FractionUnclassified(v: real)
    requires 100.0 < v < 101.0
    ensures GetAqiInfo(Number(v)) == None
  {
    assert CoveringIndex(v) == 6;
    GetAqiInfoOfNumber(v);
  }
}
