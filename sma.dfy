/** `SMAIndicator` of python-indicators/standard/sma.py: the simple moving
    average of the closing prices, drawn as one line on the main chart. */
module Sma {
  import opened Wrappers
  import opened Json
  import opened IndicatorInterface
  import opened TalibWrapper
  import opened Standard

  const Name := "sma"
  const Version := "1.0.0"

  const ParamDefs: seq<ParamDef> := [
    NumberParam("period", "Period", JInt(20), JInt(1), JInt(200), JInt(1), "Number of periods for moving average"),
    ColorParam("color", "Line Color", "#2196F3", "Line color on chart"),
    NumberParam("lineWidth", "Line Width", JInt(2), JInt(1), JInt(5), JInt(1), "Line thickness")]

  /** `get_metadata()`. */
  function Describe(): Fields {
    Metadata(Name, "Simple Moving Average (SMA)", Version, "single-line", "main", ParamDefs,
             "Calculate simple moving average of closing prices")
  }

  /** `params.get('period', 20)`. */
  function Period(params: Fields): Json {
    Param(params, "period", JInt(20))
  }

  /** `validate_params`: the period must be a Python int (a bool is one) of
      at least 1. */
  function Validate(params: Json): Result<bool, PyExc> {
    if !params.JObj? then Err(NoGet(params))
    else Ok(PyIsInt(Period(params.fields)) && PyIntValue(Period(params.fields)) >= 1)
  }

  /** `calculate`: the SMA of the closes through the wrapper, one point per
      defined value, the line's style and the period in the title. */
  function Calculate(b: Backend, candles: seq<Json>, params: Json): Result<Fields, PyExc> {
    if !params.JObj? then Err(NoGet(params))
    else if !HasCloseColumn(candles) then Err(MissingClose)
    else
      var period := Period(params.fields);
      var color := Param(params.fields, "color", JStr("#2196F3"));
      var lineWidth := Param(params.fields, "lineWidth", JInt(2));
      if !(PyIsInt(period) && PyIntValue(period) >= 1) then Err(Unvalidated)
      else
        PublicFunctionsKeepLength(b, Closes(candles), PyIntValue(period), 1, 1, 1, 0.0, 0.0);
        var values := Defined(Times(candles), SMA(b, Closes(candles), PyIntValue(period)));
        Ok(SingleLine(values, color, lineWidth, "SMA(" + PyIntText(period) + ")",
                      [("period", period), ("calculatedPoints", JInt(|values|))]))
  }

  /** The script as `run` sees it. */
  function Script(b: Backend): Indicator {
    Indicator(Name, Version, Describe(), Validate, (candles, params) => Calculate(b, candles, params))
  }

  /** The declared defaults lie within their bounds, an empty parameter
      object passes validation, and so does every period the definition
      allows. */
  lemma DefaultsAreValid(p: int)
    ensures DefaultsInRange(ParamDefs)
    ensures Validate(JObj([])) == Ok(true)
    ensures 1 <= p <= 200 ==> Validate(JObj([("period", JInt(p))])) == Ok(true)
  {
  }

  /** A float period such as 20.0 and a period below 1 are rejected, and
      parameters that are not a dict raise as `params.get` would. */
  lemma RejectedParameters(r: real, p: int, v: Json)
    ensures Validate(JObj([("period", JFloat(r))])) == Ok(false)
    ensures p < 1 ==> Validate(JObj([("period", JInt(p))])) == Ok(false)
    ensures !v.JObj? ==> Validate(v).Err?
  {
  }

  /** Once validated, calculate fails only on a frame without a close
      column (for what `run` passes: no candles at all), with the
      KeyError.  Otherwise its points are the defined SMA values with their
      candles' times, `calculatedPoints` counts them and the title names
      the period. */
  lemma ValidatedCalculation(b: Backend, candles: seq<Json>, params: Json)
    requires Validate(params) == Ok(true)
    ensures Calculate(b, candles, params).Ok? <==> HasCloseColumn(candles)
    ensures !HasCloseColumn(candles) ==> Calculate(b, candles, params) == Err(MissingClose)
    ensures HasCloseColumn(candles) ==>
      var doc := JObj(Calculate(b, candles, params).value);
      var period := Period(params.fields);
      var values := Defined(Times(candles), SMA(b, Closes(candles), PyIntValue(period)));
      Get(doc, "values") == Some(JArr(values)) &&
      Get(doc, "metadata") == Some(JObj([("period", period), ("calculatedPoints", JInt(|values|))])) &&
      Get(Get(doc, "lineConfig").GetOr(JNull), "title") == Some(JStr("SMA(" + PyIntText(period) + ")"))
  {
    var period := Period(params.fields);
    PublicFunctionsKeepLength(b, Closes(candles), PyIntValue(period), 1, 1, 1, 0.0, 0.0);
    var values := Defined(Times(candles), SMA(b, Closes(candles), PyIntValue(period)));
    SingleLineLookups(values, Param(params.fields, "color", JStr("#2196F3")),
                      Param(params.fields, "lineWidth", JInt(2)), "SMA(" + PyIntText(period) + ")",
                      [("period", period), ("calculatedPoints", JInt(|values|))]);
  }

  /** Without TA-Lib, n candles and a period p give n-p+1 points when
      p <= n and none otherwise. */
  lemma FallbackPointCount(b: Backend, candles: seq<Json>, p: int)
    requires !b.available && p >= 1
    ensures var values := Defined(Times(candles), SMA(b, Closes(candles), p));
      |values| == if p <= |candles| then |candles| - p + 1 else 0
  {
    SmaLayout(Closes(candles), p);
  }
}
