/** What the five scripts under python-indicators/standard/ share: the
    parameter definitions their `get_metadata` lists, the columns they read
    out of the coerced candles, and the loop that turns a numpy series into
    the `{time, value}` points of a chart line, skipping NaN. */
module Standard {
  import opened Wrappers
  import opened Strings
  import opened Json
  import opened IndicatorInterface
  import opened TalibWrapper

  // ---------------------------------------------------------------------
  // Metadata

  /** An entry of `get_parameter_definitions()`: a number with its default,
      bounds and step, or a colour with its default. */
  datatype ParamDef =
    | NumberParam(name: string, displayName: string, default: Json, min: Json, max: Json, step: Json,
                  description: string)
    | ColorParam(name: string, displayName: string, colour: string, description: string)

  function ParamJson(d: ParamDef): Json {
    match d
    case NumberParam(name, displayName, default, min, max, step, description) =>
      JObj([("name", JStr(name)), ("displayName", JStr(displayName)), ("type", JStr("number")),
            ("default", default), ("min", min), ("max", max), ("step", step),
            ("description", JStr(description))])
    case ColorParam(name, displayName, colour, description) =>
      JObj([("name", JStr(name)), ("displayName", JStr(displayName)), ("type", JStr("color")),
            ("default", JStr(colour)), ("description", JStr(description))])
  }

  function ParamsJson(defs: seq<ParamDef>): (r: seq<Json>)
    ensures |r| == |defs|
  {
    seq(|defs|, i requires 0 <= i < |defs| => ParamJson(defs[i]))
  }

  /** A script's `get_metadata()`. */
  function Metadata(name: string, displayName: string, version: string, displayType: string,
                    chartType: string, defs: seq<ParamDef>, description: string): Fields
  {
    [("name", JStr(name)), ("displayName", JStr(displayName)), ("version", JStr(version)),
     ("displayType", JStr(displayType)), ("chartType", JStr(chartType)),
     ("parameters", JArr(ParamsJson(defs))), ("description", JStr(description))]
  }

  /** The metadata names the script and lists its parameter definitions. */
  lemma MetadataLookups(name: string, displayName: string, version: string, displayType: string,
                        chartType: string, defs: seq<ParamDef>, description: string)
    ensures var m := Metadata(name, displayName, version, displayType, chartType, defs, description);
      Lookup(m, "name") == Some(JStr(name)) && Lookup(m, "displayName") == Some(JStr(displayName)) &&
      Lookup(m, "parameters") == Some(JArr(ParamsJson(defs)))
  {
    var m := Metadata(name, displayName, version, displayType, chartType, defs, description);
    LookupFirst(m, "name", 0);
    LookupFirst(m, "displayName", 1);
    assert "parameters"[0] == 'p';
    LookupFirst(m, "parameters", 5);
  }

  /** It states where the script draws: its display and chart types. */
  lemma MetadataPlacement(name: string, displayName: string, version: string, displayType: string,
                          chartType: string, defs: seq<ParamDef>, description: string)
    ensures var m := Metadata(name, displayName, version, displayType, chartType, defs, description);
      Lookup(m, "displayType") == Some(JStr(displayType)) && Lookup(m, "chartType") == Some(JStr(chartType))
  {
    var m := Metadata(name, displayName, version, displayType, chartType, defs, description);
    LookupFirst(m, "displayType", 3);
    LookupFirst(m, "chartType", 4);
  }

  /** Every numeric parameter's default is an integer or float within its
      declared bounds. */
  predicate DefaultsInRange(defs: seq<ParamDef>) {
    forall i :: 0 <= i < |defs| && defs[i].NumberParam? ==>
      PyIsNumber(defs[i].default) && PyIsNumber(defs[i].min) && PyIsNumber(defs[i].max) &&
      PyNumberValue(defs[i].min) <= PyNumberValue(defs[i].default) <= PyNumberValue(defs[i].max)
  }

  /** `params.get(key, default)` on a dict. */
  function Param(params: Fields, key: string, default: Json): Json {
    Lookup(params, key).GetOr(default)
  }

  /** `f'{v}'` of a Python int; `True` and `False` print as words. */
  function PyIntText(v: Json): string
    requires PyIsInt(v)
  {
    if v.JBool? then (if v.b then "True" else "False") else IntToString(v.i)
  }

  /** Stands for whatever TA-Lib or numpy raise on parameters that
      `validate_params` would have rejected; `run` never gets there. */
  const Unvalidated := PyExc("TypeError", "parameters rejected by validate_params")

  // ---------------------------------------------------------------------
  // Result documents

  /** The document of a single-line script: `success`, `displayType`, the
      points, the line's style and the script's own metadata. */
  function SingleLine(values: seq<Json>, color: Json, lineWidth: Json, title: string, metadata: Fields): Fields {
    [("success", JBool(true)), ("displayType", JStr("single-line")), ("values", JArr(values)),
     ("lineConfig", JObj([("color", color), ("lineWidth", lineWidth), ("lineStyle", JStr("solid")),
                          ("title", JStr(title))])),
     ("metadata", JObj(metadata))]
  }

  lemma SingleLineLookups(values: seq<Json>, color: Json, lineWidth: Json, title: string, metadata: Fields)
    ensures var doc := JObj(SingleLine(values, color, lineWidth, title, metadata));
      Get(doc, "success") == Some(JBool(true)) && Get(doc, "values") == Some(JArr(values)) &&
      Get(doc, "metadata") == Some(JObj(metadata)) &&
      Get(Get(doc, "lineConfig").GetOr(JNull), "title") == Some(JStr(title))
  {
    var doc := SingleLine(values, color, lineWidth, title, metadata);
    LookupFirst(doc, "values", 2);
    LookupFirst(doc, "lineConfig", 3);
    LookupFirst(doc, "metadata", 4);
    var config := [("color", color), ("lineWidth", lineWidth), ("lineStyle", JStr("solid")), ("title", JStr(title))];
    assert "lineWidth"[4] != "lineStyle"[4];
    LookupLeadingFour(config);
  }

  /** A line of a multi-line document: its name, points and style. */
  function Line(name: string, values: seq<Json>, config: Fields): Json {
    JObj([("name", JStr(name)), ("values", JArr(values)), ("config", JObj(config))])
  }

  /** The document of a multi-line script. */
  function MultiLine(lines: seq<Json>, metadata: Fields): Fields {
    [("success", JBool(true)), ("displayType", JStr("multi-line")), ("lines", JArr(lines)),
     ("metadata", JObj(metadata))]
  }

  lemma LineLookups(name: string, values: seq<Json>, config: Fields)
    ensures Get(Line(name, values, config), "name") == Some(JStr(name))
    ensures Get(Line(name, values, config), "values") == Some(JArr(values))
    ensures Get(Line(name, values, config), "config") == Some(JObj(config))
  {
    LookupFirst(Line(name, values, config).fields, "values", 1);
    LookupFirst(Line(name, values, config).fields, "config", 2);
  }

  lemma MultiLineLookups(lines: seq<Json>, metadata: Fields)
    ensures Lookup(MultiLine(lines, metadata), "success") == Some(JBool(true))
    ensures Lookup(MultiLine(lines, metadata), "lines") == Some(JArr(lines))
    ensures Lookup(MultiLine(lines, metadata), "metadata") == Some(JObj(metadata))
  {
    LookupFirst(MultiLine(lines, metadata), "lines", 2);
    LookupFirst(MultiLine(lines, metadata), "metadata", 3);
  }

  // ---------------------------------------------------------------------
  // Candle columns

  /** `int(candle['time'])` of a coerced candle. */
  function TimeOf(candle: Json): int {
    match Get(candle, "time")
    case Some(JInt(t)) => t
    case _ => 0
  }

  /** `pd.DataFrame(candle_data)['close']` of a coerced candle. */
  function CloseOf(candle: Json): real {
    match Get(candle, "close")
    case Some(JFloat(r)) => r
    case _ => 0.0
  }

  function Times(candles: seq<Json>): (r: seq<int>)
    ensures |r| == |candles|
  {
    seq(|candles|, i requires 0 <= i < |candles| => TimeOf(candles[i]))
  }

  function Closes(candles: seq<Json>): (r: seq<real>)
    ensures |r| == |candles|
  {
    seq(|candles|, i requires 0 <= i < |candles| => CloseOf(candles[i]))
  }

  /** `pd.DataFrame(candle_data)` has a `close` column when some candle
      carries that key; built from no candles it has no columns at all. */
  predicate HasCloseColumn(candles: seq<Json>) {
    exists i :: 0 <= i < |candles| && Get(candles[i], "close").Some?
  }

  /** `df['close']` on a frame without that column: `KeyError('close')`,
      whose text is the key in quotes. */
  const MissingClose := PyExc("KeyError", "'close'")

  /** What `run` passes to `calculate` has a close column exactly when
      there is at least one candle, since the coercion writes `close` into
      each of them. */
  lemma CoercedCloseColumn(candles: seq<Json>, num: Numerics)
    requires CoerceAll(candles, num).Ok?
    ensures |CoerceAll(candles, num).value| == |candles|
    ensures HasCloseColumn(CoerceAll(candles, num).value) <==> |candles| > 0
  {
    var coerced := CoerceAll(candles, num).value;
    if |candles| > 0 {
      assert coerced[0] == CoerceCandle(candles[0], num).value;
      CoercedClose(candles[0], num);
    }
  }

  /** The time column reads back exactly the integer coercion stored. */
  lemma CoercedTime(candle: Json, num: Numerics)
    requires CoerceCandle(candle, num).Ok?
    ensures var c := CoerceCandle(candle, num).value; Get(c, "time") == Some(JInt(TimeOf(c)))
  {
    CoercedCandle(candle, num, "time");
  }

  /** The close column reads back exactly the float coercion stored. */
  lemma CoercedClose(candle: Json, num: Numerics)
    requires CoerceCandle(candle, num).Ok?
    ensures var c := CoerceCandle(candle, num).value; Get(c, "close") == Some(JFloat(CloseOf(c)))
  {
    CoercedCandle(candle, num, "close");
  }

  // ---------------------------------------------------------------------
  // Shaping a series into chart points

  /** `{'time': int(candle['time']), 'value': float(value)}`. */
  function Point(time: int, value: real): Json {
    JObj([("time", JInt(time)), ("value", JFloat(value))])
  }

  /** The points of a line: one per defined entry of the series, in order,
      carrying the time of the candle at the same index. */
  function Defined(times: seq<int>, xs: Series): (r: seq<Json>)
    requires |xs| <= |times|
    ensures |r| == CountDefined(xs)
  {
    if xs == [] then []
    else
      var i := |xs| - 1;
      Defined(times, xs[..i]) + (if xs[i].Some? then [Point(times[i], xs[i].value)] else [])
  }

  /** The loop `for i, value in enumerate(series): if not np.isnan(value):
      values.append(...)`. */
  method KeepDefined(times: seq<int>, xs: Series) returns (values: seq<Json>)
    requires |xs| <= |times|
    ensures values == Defined(times, xs)
  {
    values := [];
    var i := 0;
    while i < |xs|
      invariant 0 <= i <= |xs|
      invariant values == Defined(times, xs[..i])
    {
      assert xs[..i + 1][..i] == xs[..i];
      if xs[i].Some? {
        values := values + [Point(times[i], xs[i].value)];
      }
      i := i + 1;
    }
    assert xs[..|xs|] == xs;
  }

  /** The indices of the defined entries, in increasing order. */
  function DefinedIndices(xs: Series): (ix: seq<int>)
    ensures |ix| == CountDefined(xs)
    ensures forall k :: 0 <= k < |ix| ==> 0 <= ix[k] < |xs| && xs[ix[k]].Some?
    ensures forall k, l :: 0 <= k < l < |ix| ==> ix[k] < ix[l]
    ensures forall i :: 0 <= i < |xs| && xs[i].Some? ==> i in ix
  {
    if xs == [] then []
    else
      var i := |xs| - 1;
      var front := DefinedIndices(xs[..i]);
      assert forall j :: 0 <= j < i ==> xs[..i][j] == xs[j];
      front + (if xs[i].Some? then [i] else [])
  }

  /** The k-th point of a line is the k-th defined entry with its candle's
      time: no NaN is plotted, no defined value is dropped, order is kept. */
  lemma {:induction false} DefinedAtIndices(times: seq<int>, xs: Series, k: nat)
    requires |xs| <= |times| && k < CountDefined(xs)
    ensures var i := DefinedIndices(xs)[k];
      Defined(times, xs)[k] == Point(times[i], xs[i].value)
  {
    var n := |xs| - 1;
    if k < CountDefined(xs[..n]) {
      DefinedAtIndices(times, xs[..n], k);
    }
  }

  /** A series whose defined entries all equal c draws every point at c. */
  lemma ConstantPoints(times: seq<int>, xs: Series, c: real, k: nat)
    requires |xs| <= |times| && k < |Defined(times, xs)|
    requires forall i :: 0 <= i < |xs| && xs[i].Some? ==> xs[i].value == c
    ensures Get(Defined(times, xs)[k], "value") == Some(JFloat(c))
  {
    DefinedAtIndices(times, xs, k);
    var i := DefinedIndices(xs)[k];
    var pt := Point(times[i], c);
    assert pt.fields[1].0 == "value" && pt.fields[0].0[0] != "value"[0];
    LookupFirst(pt.fields, "value", 1);
    assert Defined(times, xs)[k] == pt;
  }

  /** A series defined at every index keeps one point per candle. */
  lemma {:induction false} DefinedEverywhere(times: seq<int>, xs: Series)
    requires |xs| <= |times|
    requires forall i :: 0 <= i < |xs| ==> xs[i].Some?
    ensures |Defined(times, xs)| == |xs|
  {
    if xs != [] {
      DefinedEverywhere(times, xs[..|xs| - 1]);
    }
  }

  /** Lines that are defined at the same indices get their points at the
      same times: the lock-step loop of the Bollinger script. */
  lemma {:induction false} SameShapeSameTimes(times: seq<int>, xs: Series, ys: Series, k: nat)
    requires |xs| == |ys| <= |times|
    requires forall i :: 0 <= i < |xs| ==> (xs[i].Some? <==> ys[i].Some?)
    requires k < |Defined(times, xs)|
    ensures |Defined(times, ys)| == |Defined(times, xs)|
    ensures Get(Defined(times, ys)[k], "time") == Get(Defined(times, xs)[k], "time")
  {
    var n := |xs| - 1;
    assert forall i :: 0 <= i < n ==> xs[..n][i] == xs[i] && ys[..n][i] == ys[i];
    SameShapeCount(xs, ys);
    if k < |Defined(times, xs[..n])| {
      SameShapeSameTimes(times, xs[..n], ys[..n], k);
    }
  }

  lemma {:induction false} SameShapeCount(xs: Series, ys: Series)
    requires |xs| == |ys|
    requires forall i :: 0 <= i < |xs| ==> (xs[i].Some? <==> ys[i].Some?)
    ensures CountDefined(xs) == CountDefined(ys)
  {
    if xs != [] {
      var n := |xs| - 1;
      assert forall i :: 0 <= i < n ==> xs[..n][i] == xs[i] && ys[..n][i] == ys[i];
      SameShapeCount(xs[..n], ys[..n]);
    }
  }
}
