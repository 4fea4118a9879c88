/** `RSIIndicator` of python-indicators/standard/rsi.py: the relative
    strength index of the closing prices, one line on a sub-chart with
    overbought and oversold levels and a reading of the latest value. */
module Rsi {
  import opened Wrappers
  import opened Json
  import opened IndicatorInterface
  import opened TalibWrapper
  import opened Standard

  const Name := "rsi"
  const Version := "1.0.0"

  const ParamDefs: seq<ParamDef> := [
    NumberParam("period", "Period", JInt(14), JInt(2), JInt(50), JInt(1), "Number of periods for RSI calculation"),
    ColorParam("color", "Line Color", "#9C27B0", "RSI line color"),
    NumberParam("lineWidth", "Line Width", JInt(2), JInt(1), JInt(5), JInt(1), "Line thickness"),
    NumberParam("overbought", "Overbought Level", JInt(70), JInt(50), JInt(90), JInt(5), "Overbought threshold line"),
    NumberParam("oversold", "Oversold Level", JInt(30), JInt(10), JInt(50), JInt(5), "Oversold threshold line")]

  /** `get_metadata()`. */
  function Describe(): Fields {
    Metadata(Name, "Relative Strength Index (RSI)", Version, "single-line", "sub", ParamDefs,
             "Momentum oscillator measuring speed and magnitude of price changes")
  }

  /** `params.get('period', 14)`. */
  function Period(params: Fields): Json {
    Param(params, "period", JInt(14))
  }

  /** `validate_params`: the period must be a Python int of at least 1. */
  function Validate(params: Json): Result<bool, PyExc> {
    if !params.JObj? then Err(NoGet(params))
    else Ok(PyIsInt(Period(params.fields)) && PyIntValue(Period(params.fields)) >= 1)
  }

  const OverboughtText := "Overbought (買われすぎ)"
  const OversoldText := "Oversold (売られすぎ)"
  const NeutralText := "Neutral (中立)"

  /** `_interpret_rsi`: fixed thresholds of 70 and 30, whatever levels the
      parameters draw. */
  function InterpretRsi(rsi: real): string {
    if rsi > 70.0 then OverboughtText else if rsi < 30.0 then OversoldText else NeutralText
  }

  /** The three readings split the line: above 70, below 30, in between. */
  lemma ReadingsPartition(rsi: real)
    ensures InterpretRsi(rsi) == OverboughtText <==> rsi > 70.0
    ensures InterpretRsi(rsi) == OversoldText <==> rsi < 30.0
    ensures InterpretRsi(rsi) == NeutralText <==> 30.0 <= rsi <= 70.0
  {
    assert OverboughtText[4] != OversoldText[4] && OverboughtText[0] != NeutralText[0];
    assert OversoldText[0] != NeutralText[0];
  }

  /** `current_rsi`: the last RSI value, None when it is NaN; an empty series
      has no last element. */
  function Current(series: Series): Result<Option<real>, PyExc> {
    if |series| == 0 then Err(IndexError(-1, 0)) else Ok(series[|series| - 1])
  }

  /** `self._interpret_rsi(current_rsi) if current_rsi else None` as written:
      Python's truthiness also turns an RSI of exactly 0.0 into None. */
  function InterpretationAsWritten(current: Option<real>): Json {
    if current.Some? && current.value != 0.0 then JStr(InterpretRsi(current.value)) else JNull
  }

  /** The reading as intended: every defined RSI value is interpreted. */
  function Interpretation(current: Option<real>): Json {
    if current.Some? then JStr(InterpretRsi(current.value)) else JNull
  }

  /** An RSI of 0.0 (every move in the window was a loss) is the most
      oversold reading there is, yet the code as written reports no
      interpretation for it; the corrected reading calls it oversold.  The
      two agree on every other input. */
  lemma ZeroRsiLosesItsReading(current: Option<real>)
    ensures InterpretationAsWritten(Some(0.0)) == JNull
    ensures Interpretation(Some(0.0)) == JStr(OversoldText)
    ensures current != Some(0.0) ==> InterpretationAsWritten(current) == Interpretation(current)
  {
  }

  function Level(value: Json, color: string, style: string): Json {
    JObj([("value", value), ("color", JStr(color)), ("style", JStr(style))])
  }

  function FloatOrNone(v: Option<real>): Json {
    if v.Some? then JFloat(v.value) else JNull
  }

  /** The `metadata` part of the result, with the corrected reading: it
      differs from the code as written only for an RSI of exactly 0.0. */
  function RsiMetadata(period: Json, overbought: Json, oversold: Json, current: Option<real>, points: nat): Fields {
    [("period", period), ("overbought", overbought), ("oversold", oversold),
     ("currentValue", FloatOrNone(current)), ("calculatedPoints", JInt(points)),
     ("interpretation", Interpretation(current))]
  }

  /** The result document: the points, the line's style, the three levels
      and the metadata. */
  function Document(values: seq<Json>, color: Json, lineWidth: Json, period: Json, overbought: Json,
                    oversold: Json, current: Option<real>): Fields
    requires PyIsInt(period)
  {
    [("success", JBool(true)), ("displayType", JStr("single-line")), ("values", JArr(values)),
     ("lineConfig", JObj([("color", color), ("lineWidth", lineWidth), ("lineStyle", JStr("solid")),
                          ("title", JStr("RSI(" + PyIntText(period) + ")"))])),
     ("levels", JArr([Level(overbought, "#ef5350", "dashed"), Level(JInt(50), "#666", "solid"),
                      Level(oversold, "#66BB6A", "dashed")])),
     ("metadata", JObj(RsiMetadata(period, overbought, oversold, current, |values|)))]
  }

  /** `calculate`: the RSI through the wrapper, one point per defined value,
      the three levels, and the latest value with its reading. */
  function Calculate(b: Backend, candles: seq<Json>, params: Json): Result<Fields, PyExc> {
    if !params.JObj? then Err(NoGet(params))
    else if !HasCloseColumn(candles) then Err(MissingClose)
    else
      var period := Period(params.fields);
      if !(PyIsInt(period) && PyIntValue(period) >= 1) then Err(Unvalidated)
      else
        PublicFunctionsKeepLength(b, Closes(candles), PyIntValue(period), 1, 1, 1, 0.0, 0.0);
        match RSI(b, Closes(candles), PyIntValue(period))
        case Err(e) => Err(e)
        case Ok(series) =>
          match Current(series)
          case Err(e) => Err(e)
          case Ok(current) =>
            Ok(Document(Defined(Times(candles), series), Param(params.fields, "color", JStr("#9C27B0")),
                        Param(params.fields, "lineWidth", JInt(2)), period,
                        Param(params.fields, "overbought", JInt(70)), Param(params.fields, "oversold", JInt(30)),
                        current))
  }

  /** The document shows the points, the levels in the order overbought,
      middle, oversold, and the metadata. */
  lemma DocumentLookups(values: seq<Json>, color: Json, lineWidth: Json, period: Json, overbought: Json,
                        oversold: Json, current: Option<real>)
    requires PyIsInt(period)
    ensures var doc := JObj(Document(values, color, lineWidth, period, overbought, oversold, current));
      Get(doc, "values") == Some(JArr(values)) &&
      Get(doc, "levels") == Some(JArr([Level(overbought, "#ef5350", "dashed"), Level(JInt(50), "#666", "solid"),
                                       Level(oversold, "#66BB6A", "dashed")])) &&
      Get(doc, "metadata") == Some(JObj(RsiMetadata(period, overbought, oversold, current, |values|)))
  {
    DocumentValues(values, color, lineWidth, period, overbought, oversold, current);
    DocumentLevels(values, color, lineWidth, period, overbought, oversold, current);
    DocumentMetadata(values, color, lineWidth, period, overbought, oversold, current);
  }

  lemma DocumentValues(values: seq<Json>, color: Json, lineWidth: Json, period: Json, overbought: Json,
                        oversold: Json, current: Option<real>)
    requires PyIsInt(period)
    ensures Lookup(Document(values, color, lineWidth, period, overbought, oversold, current), "values") ==
      Some(JArr(values))
  {
    LookupFirst(Document(values, color, lineWidth, period, overbought, oversold, current), "values", 2);
  }

  lemma DocumentLevels(values: seq<Json>, color: Json, lineWidth: Json, period: Json, overbought: Json,
                        oversold: Json, current: Option<real>)
    requires PyIsInt(period)
    ensures Lookup(Document(values, color, lineWidth, period, overbought, oversold, current), "levels") ==
      Some(JArr([Level(overbought, "#ef5350", "dashed"), Level(JInt(50), "#666", "solid"),
                 Level(oversold, "#66BB6A", "dashed")]))
  {
    assert "levels"[1] != "lineConfig"[1];
    LookupFirst(Document(values, color, lineWidth, period, overbought, oversold, current), "levels", 4);
  }

  lemma DocumentMetadata(values: seq<Json>, color: Json, lineWidth: Json, period: Json, overbought: Json,
                        oversold: Json, current: Option<real>)
    requires PyIsInt(period)
    ensures Lookup(Document(values, color, lineWidth, period, overbought, oversold, current), "metadata") ==
      Some(JObj(RsiMetadata(period, overbought, oversold, current, |values|)))
  {
    LookupFirst(Document(values, color, lineWidth, period, overbought, oversold, current), "metadata", 5);
  }

  function Script(b: Backend): Indicator {
    Indicator(Name, Version, Describe(), Validate, (candles, params) => Calculate(b, candles, params))
  }

  /** The declared defaults lie within their bounds and pass validation.
      Validation is looser than the definition: it accepts a period of 1,
      below the declared minimum of 2. */
  lemma DefaultsAreValid(p: int)
    ensures DefaultsInRange(ParamDefs)
    ensures Validate(JObj([])) == Ok(true)
    ensures 1 <= p <= 50 ==> Validate(JObj([("period", JInt(p))])) == Ok(true)
    ensures ParamDefs[0].min == JInt(2) && Validate(JObj([("period", JInt(1))])) == Ok(true)
  {
  }

  /** A validated calculation fails on a frame without a close column,
      with the KeyError.  Otherwise it fails only without TA-Lib, when the
      period is not below the number of candles: the fallback's IndexError.
      Otherwise it succeeds with the series' last value as the current one;
      the reading uses the fixed thresholds, whatever levels were asked
      for. */
  lemma ValidatedCalculation(b: Backend, candles: seq<Json>, params: Json)
    requires Validate(params) == Ok(true)
    ensures !HasCloseColumn(candles) ==> Calculate(b, candles, params) == Err(MissingClose)
    ensures var period := PyIntValue(Period(params.fields));
      HasCloseColumn(candles) && !b.available && period >= |candles| ==>
      Calculate(b, candles, params) == Err(IndexError(period, |candles|))
    ensures var period := PyIntValue(Period(params.fields));
      HasCloseColumn(candles) && (b.available || period < |candles|) ==>
      RSI(b, Closes(candles), period).Ok? &&
      var series := RSI(b, Closes(candles), period).value;
      |series| == |candles| &&
      Calculate(b, candles, params) ==
        Ok(Document(Defined(Times(candles), series), Param(params.fields, "color", JStr("#9C27B0")),
                    Param(params.fields, "lineWidth", JInt(2)), Period(params.fields),
                    Param(params.fields, "overbought", JInt(70)), Param(params.fields, "oversold", JInt(30)),
                    series[|candles| - 1]))
  {
    PublicFunctionsKeepLength(b, Closes(candles), PyIntValue(Period(params.fields)), 1, 1, 1, 0.0, 0.0);
    RsiFailsOnShortInput(b, Closes(candles), PyIntValue(Period(params.fields)));
  }

  /** The metadata reports the latest value and its reading. */
  lemma MetadataReading(period: Json, overbought: Json, oversold: Json, current: Option<real>, points: nat)
    ensures var m := RsiMetadata(period, overbought, oversold, current, points);
      Lookup(m, "currentValue") == Some(FloatOrNone(current)) &&
      Lookup(m, "calculatedPoints") == Some(JInt(points)) &&
      Lookup(m, "interpretation") == Some(if current.Some? then JStr(InterpretRsi(current.value)) else JNull)
    ensures current != Some(0.0) ==>
      Lookup(RsiMetadata(period, overbought, oversold, current, points), "interpretation") ==
      Some(InterpretationAsWritten(current))
  {
    MetadataCurrent(period, overbought, oversold, current, points);
    MetadataPoints(period, overbought, oversold, current, points);
    MetadataInterpretation(period, overbought, oversold, current, points);
  }

  lemma MetadataCurrent(period: Json, overbought: Json, oversold: Json, current: Option<real>, points: nat)
    ensures Lookup(RsiMetadata(period, overbought, oversold, current, points), "currentValue") ==
      Some(FloatOrNone(current))
  {
    assert "overbought"[0] != "currentValue"[0] && "oversold"[0] != "currentValue"[0];
    LookupFirst(RsiMetadata(period, overbought, oversold, current, points), "currentValue", 3);
  }

  lemma MetadataPoints(period: Json, overbought: Json, oversold: Json, current: Option<real>, points: nat)
    ensures Lookup(RsiMetadata(period, overbought, oversold, current, points), "calculatedPoints") ==
      Some(JInt(points))
  {
    assert "currentValue"[1] != "calculatedPoints"[1];
    LookupFirst(RsiMetadata(period, overbought, oversold, current, points), "calculatedPoints", 4);
  }

  lemma MetadataInterpretation(period: Json, overbought: Json, oversold: Json, current: Option<real>, points: nat)
    ensures Lookup(RsiMetadata(period, overbought, oversold, current, points), "interpretation") ==
      Some(Interpretation(current))
    ensures current != Some(0.0) ==>
      Lookup(RsiMetadata(period, overbought, oversold, current, points), "interpretation") ==
      Some(InterpretationAsWritten(current))
  {
    ZeroRsiLosesItsReading(current);
    assert "interpretation"[0] == 'i';
    LookupFirst(RsiMetadata(period, overbought, oversold, current, points), "interpretation", 5);
  }

  /** With no candles the frame has no columns: once the parameters are
      read, `df['close']` raises, before any RSI is computed, whatever the
      backend and whatever the period. */
  lemma NoCandlesNoCloseColumn(b: Backend, params: Json)
    ensures params.JObj? ==> Calculate(b, [], params) == Err(MissingClose)
    ensures !params.JObj? ==> Calculate(b, [], params) == Err(NoGet(params))
  {
  }
}
