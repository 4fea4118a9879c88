/** `MACDIndicator` of python-indicators/standard/macd.py: the MACD line,
    its signal line and their histogram, three lines on a sub-chart. */
module Macd {
  import opened Wrappers
  import opened Json
  import opened IndicatorInterface
  import opened TalibWrapper
  import opened Standard

  const Name := "macd"
  const Version := "1.0.0"

  const ParamDefs: seq<ParamDef> := [
    NumberParam("fastPeriod", "Fast Period", JInt(12), JInt(5), JInt(50), JInt(1), "Fast EMA period"),
    NumberParam("slowPeriod", "Slow Period", JInt(26), JInt(10), JInt(100), JInt(1), "Slow EMA period"),
    NumberParam("signalPeriod", "Signal Period", JInt(9), JInt(2), JInt(50), JInt(1), "Signal line period"),
    ColorParam("macdColor", "MACD Line Color", "#2196F3", "MACD line color"),
    ColorParam("signalColor", "Signal Line Color", "#FF6B35", "Signal line color"),
    ColorParam("histogramColor", "Histogram Color", "#9C27B0", "Histogram color"),
    NumberParam("lineWidth", "Line Width", JInt(2), JInt(1), JInt(5), JInt(1), "Line thickness")]

  /** `get_metadata()`. */
  function Describe(): Fields {
    Metadata(Name, "MACD", Version, "multi-line", "sub", ParamDefs,
             "Moving Average Convergence Divergence - trend-following momentum indicator")
  }

  function Fast(params: Fields): Json { Param(params, "fastPeriod", JInt(12)) }
  function Slow(params: Fields): Json { Param(params, "slowPeriod", JInt(26)) }
  function SignalPeriod(params: Fields): Json { Param(params, "signalPeriod", JInt(9)) }

  predicate PositiveInt(v: Json) {
    PyIsInt(v) && PyIntValue(v) > 0
  }

  /** The three periods are positive Python ints, fast below slow. */
  predicate ValidPeriods(params: Fields) {
    PositiveInt(Fast(params)) && PositiveInt(Slow(params)) && PositiveInt(SignalPeriod(params)) &&
    PyIntValue(Fast(params)) < PyIntValue(Slow(params))
  }

  /** `validate_params`. */
  function Validate(params: Json): Result<bool, PyExc> {
    if !params.JObj? then Err(NoGet(params))
    else if !(PositiveInt(Fast(params.fields)) && PositiveInt(Slow(params.fields)) &&
              PositiveInt(SignalPeriod(params.fields))) then Ok(false)
    else if PyIntValue(Fast(params.fields)) >= PyIntValue(Slow(params.fields)) then Ok(false)
    else Ok(true)
  }

  /** The loop over the candles that adds a point to each line wherever
      that line is defined, independently of the other two. */
  method KeepLines(times: seq<int>, macd: Series, signal: Series, histogram: Series)
    returns (macdValues: seq<Json>, signalValues: seq<Json>, histogramValues: seq<Json>)
    requires |macd| == |signal| == |histogram| == |times|
    ensures macdValues == Defined(times, macd)
    ensures signalValues == Defined(times, signal)
    ensures histogramValues == Defined(times, histogram)
  {
    macdValues, signalValues, histogramValues := [], [], [];
    var i := 0;
    while i < |times|
      invariant 0 <= i <= |times|
      invariant macdValues == Defined(times, macd[..i])
      invariant signalValues == Defined(times, signal[..i])
      invariant histogramValues == Defined(times, histogram[..i])
    {
      assert macd[..i + 1][..i] == macd[..i] && signal[..i + 1][..i] == signal[..i];
      assert histogram[..i + 1][..i] == histogram[..i];
      if macd[i].Some? {
        macdValues := macdValues + [Point(times[i], macd[i].value)];
      }
      if signal[i].Some? {
        signalValues := signalValues + [Point(times[i], signal[i].value)];
      }
      if histogram[i].Some? {
        histogramValues := histogramValues + [Point(times[i], histogram[i].value)];
      }
      i := i + 1;
    }
    assert macd[..i] == macd && signal[..i] == signal && histogram[..i] == histogram;
  }

  /** The result document: three named lines (the histogram drawn thin and
      as bars) and the periods, counting the MACD line's points. */
  function Document(macdValues: seq<Json>, signalValues: seq<Json>, histogramValues: seq<Json>,
                    params: Fields): Fields
  {
    var lineWidth := Param(params, "lineWidth", JInt(2));
    MultiLine(
      [Line("MACD", macdValues, [("color", Param(params, "macdColor", JStr("#2196F3"))),
                                 ("lineWidth", lineWidth), ("title", JStr("MACD"))]),
       Line("Signal", signalValues, [("color", Param(params, "signalColor", JStr("#FF6B35"))),
                                     ("lineWidth", lineWidth), ("title", JStr("Signal"))]),
       Line("Histogram", histogramValues, [("color", Param(params, "histogramColor", JStr("#9C27B0"))),
                                           ("lineWidth", JInt(1)), ("title", JStr("Histogram")),
                                           ("style", JStr("histogram"))])],
      MacdMetadata(params, |macdValues|))
  }

  function MacdMetadata(params: Fields, points: nat): Fields {
    [("fastPeriod", Fast(params)), ("slowPeriod", Slow(params)), ("signalPeriod", SignalPeriod(params)),
     ("calculatedPoints", JInt(points))]
  }

  /** `calculate`: MACD through the wrapper (whose fallback raises when a
      period exceeds the number of candles), then one line per series. */
  function Calculate(b: Backend, candles: seq<Json>, params: Json): Result<Fields, PyExc> {
    if !params.JObj? then Err(NoGet(params))
    else if !HasCloseColumn(candles) then Err(MissingClose)
    else if !(PositiveInt(Fast(params.fields)) && PositiveInt(Slow(params.fields)) &&
              PositiveInt(SignalPeriod(params.fields))) then Err(Unvalidated)
    else
      var closes := Closes(candles);
      var fast, slow, signal := PyIntValue(Fast(params.fields)), PyIntValue(Slow(params.fields)),
                                PyIntValue(SignalPeriod(params.fields));
      PublicFunctionsKeepLength(b, closes, 1, fast, slow, signal, 0.0, 0.0);
      match MACD(b, closes, fast, slow, signal)
      case Err(e) => Err(e)
      case Ok((m, s, h)) =>
        var times := Times(candles);
        Ok(Document(Defined(times, m), Defined(times, s), Defined(times, h), params.fields))
  }

  function Script(b: Backend): Indicator {
    Indicator(Name, Version, Describe(), Validate, (candles, params) => Calculate(b, candles, params))
  }

  /** The defaults lie within their bounds and pass validation, and
      validation accepts exactly the parameter sets with positive int
      periods and fast below slow. */
  lemma DefaultsAreValid(params: Fields)
    ensures DefaultsInRange(ParamDefs)
    ensures Validate(JObj([])) == Ok(true)
    ensures Validate(JObj(params)) == Ok(true) <==> ValidPeriods(params)
  {
  }

  /** The declared ranges overlap: a fast period of 50 and a slow period of
      10 are both within bounds, yet validation rejects them. */
  lemma DeclaredRangesAdmitRejectedPairs()
    ensures ParamDefs[0].min == JInt(5) && ParamDefs[0].max == JInt(50)
    ensures ParamDefs[1].min == JInt(10) && ParamDefs[1].max == JInt(100)
    ensures Validate(JObj([("fastPeriod", JInt(50)), ("slowPeriod", JInt(10))])) == Ok(false)
  {
    var p := [("fastPeriod", JInt(50)), ("slowPeriod", JInt(10))];
    LookupFirst(p, "slowPeriod", 1);
  }

  /** Once validated, calculate fails on a frame without a close column,
      and otherwise only without TA-Lib and with fewer candles than the
      slow period. */
  lemma ValidatedCalculation(b: Backend, candles: seq<Json>, params: Json)
    requires Validate(params) == Ok(true)
    ensures Calculate(b, candles, params).Err? <==>
      !HasCloseColumn(candles) || (!b.available && PyIntValue(Slow(params.fields)) > |candles|)
  {
    CalculateFailsWithMacd(b, candles, params);
    MacdFailure(b, Closes(candles), PyIntValue(Fast(params.fields)), PyIntValue(Slow(params.fields)),
                PyIntValue(SignalPeriod(params.fields)));
  }

  /** The failure is the KeyError of a frame without a close column, or
      else the fallback's IndexError for the first EMA that does not fit. */
  lemma ValidatedCalculationError(b: Backend, candles: seq<Json>, params: Json)
    requires Validate(params) == Ok(true) && Calculate(b, candles, params).Err?
    ensures var fast, slow := PyIntValue(Fast(params.fields)), PyIntValue(Slow(params.fields));
      Calculate(b, candles, params).error ==
        (if !HasCloseColumn(candles) then MissingClose
         else if fast > |candles| then IndexError(fast - 1, |candles|) else IndexError(slow - 1, |candles|))
  {
    CalculateFailsWithMacd(b, candles, params);
    if HasCloseColumn(candles) {
      MacdFailure(b, Closes(candles), PyIntValue(Fast(params.fields)), PyIntValue(Slow(params.fields)),
                  PyIntValue(SignalPeriod(params.fields)));
    }
  }

  /** MACD fails only in the fallback, exactly when the slow period does not fit. */
  lemma MacdFailure(b: Backend, closes: seq<real>, fast: int, slow: int, signal: int)
    requires 1 <= fast < slow && signal >= 1
    ensures MACD(b, closes, fast, slow, signal).Err? <==> !b.available && slow > |closes|
    ensures MACD(b, closes, fast, slow, signal).Err? ==>
      MACD(b, closes, fast, slow, signal).error ==
        (if fast > |closes| then IndexError(fast - 1, |closes|) else IndexError(slow - 1, |closes|))
  {
    FallbackFits(closes, fast, slow, signal);
  }

  /** Past validation, calculate fails with the KeyError on a frame without
      a close column, and otherwise exactly when MACD does, with its error. */
  lemma CalculateFailsWithMacd(b: Backend, candles: seq<Json>, params: Json)
    requires Validate(params) == Ok(true)
    ensures var fast, slow, signal := PyIntValue(Fast(params.fields)), PyIntValue(Slow(params.fields)),
                                      PyIntValue(SignalPeriod(params.fields));
      |Closes(candles)| == |candles| &&
      fast >= 1 && slow >= 1 && signal >= 1 &&
      (Calculate(b, candles, params).Err? <==>
         !HasCloseColumn(candles) || MACD(b, Closes(candles), fast, slow, signal).Err?) &&
      (Calculate(b, candles, params).Err? ==>
         Calculate(b, candles, params).error ==
           if HasCloseColumn(candles) then MACD(b, Closes(candles), fast, slow, signal).error else MissingClose)
  {
  }

  /** `_macd_fallback` fails exactly when the slow period exceeds the
      number of prices, on the first EMA that does not fit. */
  lemma FallbackFits(closes: seq<real>, fast: int, slow: int, signal: int)
    requires 1 <= fast < slow && signal >= 1
    ensures MacdSpec(closes, fast, slow, signal).Err? <==> slow > |closes|
    ensures MacdSpec(closes, fast, slow, signal).Err? ==>
      MacdSpec(closes, fast, slow, signal).error ==
        (if fast > |closes| then IndexError(fast - 1, |closes|) else IndexError(slow - 1, |closes|))
  {
  }

  /** Without TA-Lib and with n candles, n >= slow: the MACD line has
      n-slow+1 points, and the signal line and histogram each have
      n-slow-signal+2 points, or none when that is not positive. */
  lemma FallbackPointCounts(closes: seq<real>, fast: int, slow: int, signal: int)
    requires 1 <= fast < slow <= |closes| && signal >= 1
    ensures MacdSpec(closes, fast, slow, signal).Ok?
    ensures var (m, s, h) := MacdSpec(closes, fast, slow, signal).value;
      var k := |closes| - slow + 1;
      CountDefined(m) == k &&
      CountDefined(s) == (if k >= signal then k - signal + 1 else 0) &&
      CountDefined(h) == CountDefined(s)
  {
    var n := |closes|;
    var emaFast := EmaSpec(closes, fast).value;
    var emaSlow := EmaSpec(closes, slow).value;
    var m := seq(n, i requires 0 <= i < n => Sub(emaFast[i], emaSlow[i]));
    assert forall i :: 0 <= i < n ==> (m[i].Some? <==> i >= slow - 1);
    CountDefinedFrom(m, slow - 1);
    var k := n - slow + 1;
    var (s, h) := SignalOf(m, signal);
    if k >= signal {
      MacdSignalDefinedFrom(m, signal);
      CountDefinedFrom(s, n - (k - signal + 1));
      forall i | 0 <= i < n ensures h[i].Some? <==> i >= n - (k - signal + 1) {
        MacdSignalRightAligned(m, signal, i);
      }
      CountDefinedFrom(h, n - (k - signal + 1));
    } else {
      CountDefinedFrom(s, n);
      CountDefinedFrom(h, n);
    }
  }

  lemma MacdSignalDefinedFrom(m: Series, signal: int)
    requires signal >= 1 && |Compact(m)| >= signal
    ensures var k := |Compact(m)| - signal + 1;
      forall i :: 0 <= i < |m| ==> (SignalOf(m, signal).0[i].Some? <==> i >= |m| - k)
  {
    forall i | 0 <= i < |m| ensures SignalOf(m, signal).0[i].Some? <==> i >= |m| - (|Compact(m)| - signal + 1) {
      MacdSignalRightAligned(m, signal, i);
    }
  }

  /** The document lists the lines in the order MACD, Signal, Histogram and
      counts the MACD line's points. */
  lemma DocumentLookups(macdValues: seq<Json>, signalValues: seq<Json>, histogramValues: seq<Json>,
                        params: Fields)
    ensures var doc := Document(macdValues, signalValues, histogramValues, params);
      Lookup(doc, "lines").Some? && Lookup(doc, "lines").value.JArr? &&
      |Lookup(doc, "lines").value.items| == 3 &&
      Get(Lookup(doc, "lines").value.items[0], "values") == Some(JArr(macdValues)) &&
      Get(Lookup(doc, "lines").value.items[1], "values") == Some(JArr(signalValues)) &&
      Get(Lookup(doc, "lines").value.items[2], "values") == Some(JArr(histogramValues))
  {
    var lineWidth := Param(params, "lineWidth", JInt(2));
    var lines :=
      [Line("MACD", macdValues, [("color", Param(params, "macdColor", JStr("#2196F3"))),
                                 ("lineWidth", lineWidth), ("title", JStr("MACD"))]),
       Line("Signal", signalValues, [("color", Param(params, "signalColor", JStr("#FF6B35"))),
                                     ("lineWidth", lineWidth), ("title", JStr("Signal"))]),
       Line("Histogram", histogramValues, [("color", Param(params, "histogramColor", JStr("#9C27B0"))),
                                           ("lineWidth", JInt(1)), ("title", JStr("Histogram")),
                                           ("style", JStr("histogram"))])];
    MultiLineLookups(lines, [("fastPeriod", Fast(params)), ("slowPeriod", Slow(params)),
                             ("signalPeriod", SignalPeriod(params)), ("calculatedPoints", JInt(|macdValues|))]);
    LineLookups("MACD", macdValues, lines[0].fields[2].1.fields);
    LineLookups("Signal", signalValues, lines[1].fields[2].1.fields);
    LineLookups("Histogram", histogramValues, lines[2].fields[2].1.fields);
  }

  lemma DocumentCount(macdValues: seq<Json>, signalValues: seq<Json>, histogramValues: seq<Json>,
                      params: Fields)
    ensures var doc := Document(macdValues, signalValues, histogramValues, params);
      Lookup(doc, "metadata") == Some(JObj(MacdMetadata(params, |macdValues|))) &&
      Lookup(MacdMetadata(params, |macdValues|), "calculatedPoints") == Some(JInt(|macdValues|))
  {
    var lines := Document(macdValues, signalValues, histogramValues, params)[2].1.items;
    MultiLineLookups(lines, MacdMetadata(params, |macdValues|));
    MetadataCount(params, |macdValues|);
  }

  lemma MetadataCount(params: Fields, points: nat)
    ensures Lookup(MacdMetadata(params, points), "calculatedPoints") == Some(JInt(points))
  {
    var meta := MacdMetadata(params, points);
    assert meta[0].0[0] == 'f' && meta[1].0[1] == 'l' && meta[2].0[1] == 'i';
    LookupFirst(meta, "calculatedPoints", 3);
  }
}
