/** `BollingerBandsIndicator` of python-indicators/standard/bollinger.py:
    a moving average with bands a number of standard deviations above and
    below it, three lines on the main chart.  `floatText` is Python's
    `str` of a float, used when the deviation appears in a title. */
module Bollinger {
  import opened Wrappers
  import opened Strings
  import opened Json
  import opened IndicatorInterface
  import opened TalibWrapper
  import opened Standard

  const Name := "bollinger"
  const Version := "1.0.0"

  const ParamDefs: seq<ParamDef> := [
    NumberParam("period", "Period", JInt(20), JInt(5), JInt(50), JInt(1), "Number of periods for moving average"),
    NumberParam("stdDev", "Standard Deviation", JInt(2), JInt(1), JInt(3), JFloat(0.1), "Number of standard deviations"),
    ColorParam("upperColor", "Upper Band Color", "#FF5252", "Upper band color"),
    ColorParam("middleColor", "Middle Band Color", "#2196F3", "Middle band (MA) color"),
    ColorParam("lowerColor", "Lower Band Color", "#66BB6A", "Lower band color"),
    NumberParam("lineWidth", "Line Width", JInt(2), JInt(1), JInt(5), JInt(1), "Line thickness")]

  /** `get_metadata()`. */
  function Describe(): Fields {
    Metadata(Name, "Bollinger Bands", Version, "multi-line", "main", ParamDefs,
             "Volatility bands placed above and below a moving average")
  }

  function Period(params: Fields): Json { Param(params, "period", JInt(20)) }
  function StdDev(params: Fields): Json { Param(params, "stdDev", JInt(2)) }

  predicate ValidParams(params: Fields) {
    PyIsInt(Period(params)) && PyIntValue(Period(params)) >= 1 &&
    PyIsNumber(StdDev(params)) && PyNumberValue(StdDev(params)) > 0.0
  }

  /** `validate_params`: a Python int period of at least 1 and a positive
      int or float deviation. */
  function Validate(params: Json): Result<bool, PyExc> {
    if !params.JObj? then Err(NoGet(params))
    else if !(PyIsInt(Period(params.fields)) && PyIntValue(Period(params.fields)) >= 1) then Ok(false)
    else if !(PyIsNumber(StdDev(params.fields)) && PyNumberValue(StdDev(params.fields)) > 0.0) then Ok(false)
    else Ok(true)
  }

  /** `f'{v}'` of an int or float parameter. */
  function NumberText(v: Json, floatText: real -> string): string
    requires PyIsNumber(v)
  {
    if v.JFloat? then floatText(v.r) else PyIntText(v)
  }

  /** The lock-step loop: wherever the middle band is defined, a point is
      added to each of the three lines. */
  method KeepBands(times: seq<int>, upper: Series, middle: Series, lower: Series)
    returns (upperValues: seq<Json>, middleValues: seq<Json>, lowerValues: seq<Json>)
    requires |times| == |middle| && LockStep((upper, middle, lower), |times|)
    ensures upperValues == Defined(times, upper)
    ensures middleValues == Defined(times, middle)
    ensures lowerValues == Defined(times, lower)
  {
    upperValues, middleValues, lowerValues := [], [], [];
    var i := 0;
    while i < |times|
      invariant 0 <= i <= |times|
      invariant upperValues == Defined(times, upper[..i])
      invariant middleValues == Defined(times, middle[..i])
      invariant lowerValues == Defined(times, lower[..i])
    {
      assert upper[..i + 1][..i] == upper[..i] && middle[..i + 1][..i] == middle[..i];
      assert lower[..i + 1][..i] == lower[..i];
      if middle[i].Some? {
        upperValues := upperValues + [Point(times[i], upper[i].value)];
        middleValues := middleValues + [Point(times[i], middle[i].value)];
        lowerValues := lowerValues + [Point(times[i], lower[i].value)];
      }
      i := i + 1;
    }
    assert upper[..i] == upper && middle[..i] == middle && lower[..i] == lower;
  }

  function LineConfig(color: Json, lineWidth: Json, title: string): Fields {
    [("color", color), ("lineWidth", lineWidth), ("title", JStr(title))]
  }

  function BandsMetadata(params: Fields, points: nat): Fields {
    [("period", Period(params)), ("stdDev", StdDev(params)), ("calculatedPoints", JInt(points))]
  }

  /** The result document: Upper, Middle and Lower lines, each titled with
      the period (and the bands with the deviation), and the metadata
      counting the middle line's points. */
  function Document(upperValues: seq<Json>, middleValues: seq<Json>, lowerValues: seq<Json>, params: Fields,
                    floatText: real -> string): Fields
    requires ValidParams(params)
  {
    var p := PyIntText(Period(params));
    var sd := NumberText(StdDev(params), floatText);
    var lineWidth := Param(params, "lineWidth", JInt(2));
    MultiLine(
      [Line("Upper", upperValues, LineConfig(Param(params, "upperColor", JStr("#FF5252")), lineWidth,
                                             "BB Upper(" + p + "," + sd + ")")),
       Line("Middle", middleValues, LineConfig(Param(params, "middleColor", JStr("#2196F3")), lineWidth,
                                               "BB Middle(" + p + ")")),
       Line("Lower", lowerValues, LineConfig(Param(params, "lowerColor", JStr("#66BB6A")), lineWidth,
                                             "BB Lower(" + p + "," + sd + ")"))],
      BandsMetadata(params, |middleValues|))
  }

  /** `calculate`: BBANDS through the wrapper with the deviation on both
      sides, then the lock-step lines. */
  function Calculate(b: Backend, candles: seq<Json>, params: Json, floatText: real -> string): Result<Fields, PyExc> {
    if !params.JObj? then Err(NoGet(params))
    else if !HasCloseColumn(candles) then Err(MissingClose)
    else if !ValidParams(params.fields) then Err(Unvalidated)
    else
      var sd := PyNumberValue(StdDev(params.fields));
      var (upper, middle, lower) := BBANDS(b, Closes(candles), PyIntValue(Period(params.fields)), sd, sd);
      var times := Times(candles);
      Ok(Document(Defined(times, upper), Defined(times, middle), Defined(times, lower), params.fields, floatText))
  }

  function Script(b: Backend, floatText: real -> string): Indicator {
    Indicator(Name, Version, Describe(), Validate, (candles, params) => Calculate(b, candles, params, floatText))
  }

  /** The defaults lie within their bounds and pass validation; validation
      accepts exactly the parameter sets described by `ValidParams`. */
  lemma DefaultsAreValid(params: Fields)
    ensures DefaultsInRange(ParamDefs)
    ensures Validate(JObj([])) == Ok(true)
    ensures Validate(JObj(params)) == Ok(true) <==> ValidParams(params)
  {
  }

  /** Once validated, calculate fails only on a frame without a close
      column, with the KeyError; otherwise it succeeds, and the three lines
      have the same number of points, at the same times. */
  lemma ValidatedCalculation(b: Backend, candles: seq<Json>, params: Json, k: nat)
    requires Validate(params) == Ok(true)
    ensures Calculate(b, candles, params, floatText := x => "").Ok? <==> HasCloseColumn(candles)
    ensures !HasCloseColumn(candles) ==> Calculate(b, candles, params, floatText := x => "") == Err(MissingClose)
    ensures var sd := PyNumberValue(StdDev(params.fields));
      var bands := BBANDS(b, Closes(candles), PyIntValue(Period(params.fields)), sd, sd);
      var times := Times(candles);
      |Defined(times, bands.0)| == |Defined(times, bands.1)| == |Defined(times, bands.2)| &&
      (k < |Defined(times, bands.1)| ==>
         Get(Defined(times, bands.0)[k], "time") == Get(Defined(times, bands.1)[k], "time") &&
         Get(Defined(times, bands.2)[k], "time") == Get(Defined(times, bands.1)[k], "time"))
  {
    var sd := PyNumberValue(StdDev(params.fields));
    var closes := Closes(candles);
    var bands := BBANDS(b, closes, PyIntValue(Period(params.fields)), sd, sd);
    BandsInLockStep(b, closes, PyIntValue(Period(params.fields)), sd, sd);
    var times := Times(candles);
    SameShapeCount(bands.1, bands.0);
    SameShapeCount(bands.1, bands.2);
    if k < |Defined(times, bands.1)| {
      SameShapeSameTimes(times, bands.1, bands.0, k);
      SameShapeSameTimes(times, bands.1, bands.2, k);
    }
  }

  /** The document counts the middle line's points and titles the lines
      with the period and deviation. */
  lemma DocumentLookups(upperValues: seq<Json>, middleValues: seq<Json>, lowerValues: seq<Json>, params: Fields,
                        floatText: real -> string)
    requires ValidParams(params)
    ensures var doc := Document(upperValues, middleValues, lowerValues, params, floatText);
      Lookup(doc, "metadata") == Some(JObj(BandsMetadata(params, |middleValues|)))
  {
    var doc := Document(upperValues, middleValues, lowerValues, params, floatText);
    MultiLineLookups(doc[2].1.items, BandsMetadata(params, |middleValues|));
  }

  /** The metadata counts the points of the middle band. */
  lemma MetadataCountsPoints(params: Fields, points: nat)
    ensures Lookup(BandsMetadata(params, points), "calculatedPoints") == Some(JInt(points))
  {
    var meta := BandsMetadata(params, points);
    assert meta[0].0[0] == 'p' && meta[1].0[0] == 's';
    LookupFirst(meta, "calculatedPoints", 2);
  }

  /** Without TA-Lib, n candles and a period p give n-p+1 points per line
      when p <= n. */
  lemma FallbackPointCount(b: Backend, candles: seq<Json>, p: int, sd: real)
    requires !b.available && p >= 1
    ensures |Defined(Times(candles), BBANDS(b, Closes(candles), p, sd, sd).1)| ==
      if p <= |candles| then |candles| - p + 1 else 0
  {
    SmaLayout(Closes(candles), p);
  }
}
