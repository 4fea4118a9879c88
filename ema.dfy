/** `EMAIndicator` of python-indicators/standard/ema.py: the exponential
    moving average of the closing prices, one line on the main chart.  The
    code after the first `return` in `calculate` is unreachable and is not
    part of the model. */
module Ema {
  import opened Wrappers
  import opened Json
  import opened IndicatorInterface
  import opened TalibWrapper
  import opened Standard

  const Name := "ema"
  const Version := "1.0.0"

  const ParamDefs: seq<ParamDef> := [
    NumberParam("period", "Period", JInt(20), JInt(1), JInt(200), JInt(1), "Number of periods for moving average"),
    ColorParam("color", "Line Color", "#FF6B35", "Line color on chart"),
    NumberParam("lineWidth", "Line Width", JInt(2), JInt(1), JInt(5), JInt(1), "Line thickness")]

  /** `get_metadata()`. */
  function Describe(): Fields {
    Metadata(Name, "Exponential Moving Average (EMA)", Version, "single-line", "main", ParamDefs,
             "Calculate exponential moving average with more weight on recent prices")
  }

  /** `params.get('period', 20)`. */
  function Period(params: Fields): Json {
    Param(params, "period", JInt(20))
  }

  /** `validate_params`: the period must be a Python int of at least 1. */
  function Validate(params: Json): Result<bool, PyExc> {
    if !params.JObj? then Err(NoGet(params))
    else Ok(PyIsInt(Period(params.fields)) && PyIntValue(Period(params.fields)) >= 1)
  }

  /** `calculate`: the EMA of the closes through the wrapper (whose fallback
      raises when the period exceeds the number of candles), one point per
      defined value. */
  function Calculate(b: Backend, candles: seq<Json>, params: Json): Result<Fields, PyExc> {
    if !params.JObj? then Err(NoGet(params))
    else if !HasCloseColumn(candles) then Err(MissingClose)
    else
      var period := Period(params.fields);
      var color := Param(params.fields, "color", JStr("#FF6B35"));
      var lineWidth := Param(params.fields, "lineWidth", JInt(2));
      if !(PyIsInt(period) && PyIntValue(period) >= 1) then Err(Unvalidated)
      else
        PublicFunctionsKeepLength(b, Closes(candles), PyIntValue(period), 1, 1, 1, 0.0, 0.0);
        match EMA(b, Closes(candles), PyIntValue(period))
        case Err(e) => Err(e)
        case Ok(series) =>
          var values := Defined(Times(candles), series);
          Ok(SingleLine(values, color, lineWidth, "EMA(" + PyIntText(period) + ")",
                        [("period", period), ("calculatedPoints", JInt(|values|))]))
  }

  function Script(b: Backend): Indicator {
    Indicator(Name, Version, Describe(), Validate, (candles, params) => Calculate(b, candles, params))
  }

  /** The declared defaults lie within their bounds and pass validation, as
      does every period the definition allows. */
  lemma DefaultsAreValid(p: int)
    ensures DefaultsInRange(ParamDefs)
    ensures Validate(JObj([])) == Ok(true)
    ensures 1 <= p <= 200 ==> Validate(JObj([("period", JInt(p))])) == Ok(true)
  {
  }

  /** A validated calculation fails on a frame without a close column,
      with the KeyError, and otherwise only without TA-Lib and with more
      periods than candles, with the fallback's IndexError. */
  lemma ValidatedCalculation(b: Backend, candles: seq<Json>, params: Json)
    requires Validate(params) == Ok(true)
    ensures var p := PyIntValue(Period(params.fields));
      Calculate(b, candles, params).Err? <==> !HasCloseColumn(candles) || (!b.available && p > |candles|)
    ensures var p := PyIntValue(Period(params.fields));
      Calculate(b, candles, params).Err? ==>
        Calculate(b, candles, params).error ==
          if HasCloseColumn(candles) then IndexError(p - 1, |candles|) else MissingClose
  {
  }

  /** Without TA-Lib, candles that all close at the same price give a flat
      line at that price, with n-p+1 points. */
  lemma FlatPricesFlatLine(b: Backend, candles: seq<Json>, p: int, c: real, k: nat)
    requires !b.available && 1 <= p <= |candles|
    requires forall i :: 0 <= i < |candles| ==> CloseOf(candles[i]) == c
    ensures EMA(b, Closes(candles), p).Ok?
    ensures var values := Defined(Times(candles), EMA(b, Closes(candles), p).value);
      |values| == |candles| - p + 1 &&
      (k < |values| ==> Get(values[k], "value") == Some(JFloat(c)))
  {
    var closes := Closes(candles);
    EmaDefinedCount(closes, p);
    var series := EmaSpec(closes, p).value;
    forall i | 0 <= i < |series| && series[i].Some? ensures series[i].value == c {
      EmaOfConstant(closes, p, c, i);
    }
    if k < |Defined(Times(candles), series)| {
      ConstantPoints(Times(candles), series, c, k);
    }
  }
}
