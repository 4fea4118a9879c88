/** The legacy calculator python-indicators/calculate.py: one script for all
    five indicators, run by src/services/indicator.service.ts.  It reads
    `{indicator, candles, parameters}` on stdin, builds a pandas frame from
    the candles, calls TA-Lib directly (there is no fallback on this path)
    and prints one document with a value, or None for NaN, per candle. */
module LegacyCalculate {
  import opened Wrappers
  import opened Json
  import opened IndicatorInterface
  import opened TalibWrapper

  /** A TA-Lib function with one output, called on the close column and the
      caller's period: the output, one entry per candle, or the text of the
      exception it raises. */
  type Direct = f: (seq<Json>, Json) -> Result<Series, string>
    | forall column, period :: f(column, period).Ok? ==> |f(column, period).value| == |column|
    witness (column: seq<Json>, period: Json) => Err("")

  predicate SameLengths(out: (Series, Series, Series), n: nat) {
    |out.0| == n && |out.1| == n && |out.2| == n
  }

  /** A TA-Lib function with three outputs (MACD, BBANDS) and three
      parameters. */
  type DirectTriple = f: (seq<Json>, Json, Json, Json) -> Result<(Series, Series, Series), string>
    | forall column, a, b, c :: f(column, a, b, c).Ok? ==> SameLengths(f(column, a, b, c).value, |column|)
    witness (column: seq<Json>, a: Json, b: Json, c: Json) => Err("")

  datatype Talib = Talib(sma: Direct, ema: Direct, rsi: Direct, macd: DirectTriple, bbands: DirectTriple)

  /** Python's `str` of a decoded value; a string is its own text. */
  type PyStr = f: Json -> string | forall s :: f(JStr(s)) == s
    witness (v: Json) => if v.JStr? then v.s else ""

  /** `pd.DataFrame(candles)` as rows: a list is taken row by row, anything
      else either becomes some rows or raises with the given text. */
  type Frame = f: Json -> Result<seq<Json>, string> | forall items :: f(JArr(items)) == Ok(items)
    witness (v: Json) => if v.JArr? then Ok(v.items) else Err("")

  /** What the interpreter contributes: `json.loads` (the document or the
      text of its error), `str`, the frame constructor, and the text of the
      TypeError raised by `data['indicator']` when `data` is not a dict. */
  datatype Python = Python(loads: string -> Result<Json, string>, str: PyStr, frame: Frame,
                           subscriptError: Json -> string)

  // ---------------------------------------------------------------------
  // Columns

  /** The columns read before any dispatch, in the order they are read. */
  const ColumnNames: seq<string> := ["close", "high", "low", "open", "volume"]

  /** A frame has a column when some row carries that key. */
  predicate HasColumn(rows: seq<Json>, key: string) {
    exists i :: 0 <= i < |rows| && Get(rows[i], key).Some?
  }

  /** `df[key].values`, a missing cell read as null. */
  function Column(rows: seq<Json>, key: string): (column: seq<Json>)
    ensures |column| == |rows|
  {
    seq(|rows|, i requires 0 <= i < |rows| => Get(rows[i], key).GetOr(JNull))
  }

  /** The first column `df[...]` fails on, if any. */
  function MissingColumn(rows: seq<Json>): (r: Option<string>)
    ensures r.Some? ==> r.value in ColumnNames && !HasColumn(rows, r.value)
    ensures r.None? <==> forall k :: k in ColumnNames ==> HasColumn(rows, k)
  {
    if !HasColumn(rows, "close") then Some("close")
    else if !HasColumn(rows, "high") then Some("high")
    else if !HasColumn(rows, "low") then Some("low")
    else if !HasColumn(rows, "open") then Some("open")
    else if !HasColumn(rows, "volume") then Some("volume")
    else None
  }

  /** `str(KeyError(key))`: the key in quotes. */
  function KeyErrorText(key: string): string {
    "'" + key + "'"
  }

  // ---------------------------------------------------------------------
  // Documents

  predicate Succeeded(doc: Json) {
    Get(doc, "success") == Some(JBool(true))
  }

  /** `{'success': False, 'error': str(e)}`. */
  function Failure(message: string): (r: Json)
    ensures Get(r, "success") == Some(JBool(false)) && !Succeeded(r)
    ensures Get(r, "error") == Some(JStr(message))
  {
    var fields := [("success", JBool(false)), ("error", JStr(message))];
    LookupFirst(fields, "success", 0);
    assert "error"[0] != "success"[0];
    LookupFirst(fields, "error", 1);
    JObj(fields)
  }

  /** `[None if np.isnan(v) else float(v) for v in values]`. */
  function Nullable(xs: Series): (vs: seq<Json>)
    ensures |vs| == |xs|
  {
    seq(|xs|, i requires 0 <= i < |xs| => if xs[i].Some? then JFloat(xs[i].value) else JNull)
  }

  /** The entries of a list that are not null. */
  function NonNullCount(vs: seq<Json>): nat {
    if vs == [] then 0 else NonNullCount(vs[..|vs| - 1]) + (if vs[|vs| - 1] != JNull then 1 else 0)
  }

  /** `calculatedPoints`, counted over the series, is the number of
      non-null entries of the printed list. */
  lemma {:induction false} NullableCount(xs: Series)
    ensures NonNullCount(Nullable(xs)) == CountDefined(xs)
  {
    if xs != [] {
      var n := |xs| - 1;
      assert Nullable(xs)[..n] == Nullable(xs[..n]);
      NullableCount(xs[..n]);
    }
  }

  function Style(color: string, lineWidth: int): Json {
    JObj([("color", JStr(color)), ("lineWidth", JInt(lineWidth))])
  }

  /** The layout every successful answer shares. */
  function Answer(displayType: string, values: Json, lineConfig: Json, metadata: Fields): (r: Json)
    ensures Succeeded(r) && Get(r, "values") == Some(values) && Get(r, "metadata") == Some(JObj(metadata))
  {
    var fields := [("success", JBool(true)), ("displayType", JStr(displayType)), ("values", values),
                   ("lineConfig", lineConfig), ("metadata", JObj(metadata))];
    LookupFirst(fields, "success", 0);
    assert "values"[0] !in {"success"[0], "displayType"[0]};
    LookupFirst(fields, "values", 2);
    assert "metadata"[0] !in {"success"[0], "displayType"[0], "values"[0], "lineConfig"[0]};
    LookupFirst(fields, "metadata", 4);
    JObj(fields)
  }

  function MetadataOf(doc: Json): Json {
    Get(doc, "metadata").GetOr(JNull)
  }

  /** The metadata of sma, ema and rsi. */
  function SingleMeta(name: string, period: Json, points: nat, n: nat): (meta: Fields)
    ensures Lookup(meta, "period") == Some(period)
    ensures Lookup(meta, "calculatedPoints") == Some(JInt(points))
    ensures Lookup(meta, "dataPoints") == Some(JInt(n))
  {
    var meta := [("period", period), ("calculatedPoints", JInt(points)), ("indicator", JStr(name)),
                 ("version", JStr("1.0.0")), ("dataPoints", JInt(n))];
    LookupFirst(meta, "period", 0);
    assert "calculatedPoints"[0] != "period"[0];
    LookupFirst(meta, "calculatedPoints", 1);
    assert "dataPoints"[0] !in {"period"[0], "calculatedPoints"[0], "indicator"[0], "version"[0]};
    LookupFirst(meta, "dataPoints", 4);
    meta
  }

  function MacdMeta(fast: Json, slow: Json, signal: Json, n: nat): (meta: Fields)
    ensures Lookup(meta, "fastPeriod") == Some(fast)
    ensures Lookup(meta, "slowPeriod") == Some(slow)
    ensures Lookup(meta, "signalPeriod") == Some(signal)
    ensures Lookup(meta, "dataPoints") == Some(JInt(n))
  {
    var meta := [("fastPeriod", fast), ("slowPeriod", slow), ("signalPeriod", signal),
                 ("indicator", JStr("macd")), ("version", JStr("1.0.0")), ("dataPoints", JInt(n))];
    LookupFirst(meta, "fastPeriod", 0);
    assert "slowPeriod"[0] != "fastPeriod"[0];
    LookupFirst(meta, "slowPeriod", 1);
    assert "signalPeriod"[1] != "slowPeriod"[1] && "signalPeriod"[0] != "fastPeriod"[0];
    LookupFirst(meta, "signalPeriod", 2);
    assert "dataPoints"[0] !in {"fastPeriod"[0], "slowPeriod"[0], "signalPeriod"[0], "indicator"[0], "version"[0]};
    LookupFirst(meta, "dataPoints", 5);
    meta
  }

  function BandMeta(period: Json, stdDev: Json, n: nat): (meta: Fields)
    ensures Lookup(meta, "period") == Some(period)
    ensures Lookup(meta, "stdDev") == Some(stdDev)
    ensures Lookup(meta, "dataPoints") == Some(JInt(n))
  {
    var meta := [("period", period), ("stdDev", stdDev), ("indicator", JStr("bollinger")),
                 ("version", JStr("1.0.0")), ("dataPoints", JInt(n))];
    LookupFirst(meta, "period", 0);
    assert "stdDev"[0] != "period"[0];
    LookupFirst(meta, "stdDev", 1);
    assert "dataPoints"[0] !in {"period"[0], "stdDev"[0], "indicator"[0], "version"[0]};
    LookupFirst(meta, "dataPoints", 4);
    meta
  }

  /** The answer for sma, ema and rsi. */
  function SingleDoc(name: string, color: string, period: Json, xs: Series, n: nat): Json {
    Answer("single-line", JArr(Nullable(xs)), Style(color, 2), SingleMeta(name, period, CountDefined(xs), n))
  }

  function MacdDoc(fast: Json, slow: Json, signal: Json, out: (Series, Series, Series), n: nat): Json {
    Answer("multi-line",
           JObj([("macd", JArr(Nullable(out.0))), ("signal", JArr(Nullable(out.1))),
                 ("histogram", JArr(Nullable(out.2)))]),
           JObj([("macd", Style("#2196F3", 2)), ("signal", Style("#FF6B35", 2)), ("histogram", Style("#4CAF50", 1))]),
           MacdMeta(fast, slow, signal, n))
  }

  function BandDoc(period: Json, stdDev: Json, out: (Series, Series, Series), n: nat): Json {
    Answer("band",
           JObj([("upper", JArr(Nullable(out.0))), ("middle", JArr(Nullable(out.1))), ("lower", JArr(Nullable(out.2)))]),
           JObj([("upper", Style("#2196F3", 1)), ("middle", Style("#FFC107", 2)), ("lower", Style("#2196F3", 1))]),
           BandMeta(period, stdDev, n))
  }

  // ---------------------------------------------------------------------
  // calculate_indicator

  /** `parameters.get(key, default)`; None when `parameters` has no `get`. */
  function GetParam(parameters: Json, key: string, default: Json): Option<Json> {
    if parameters.JObj? then Some(Lookup(parameters.fields, key).GetOr(default)) else None
  }

  function SingleLine(f: Direct, name: string, color: string, default: int, close: seq<Json>,
                      parameters: Json, n: nat): Json
  {
    match GetParam(parameters, "period", JInt(default))
    case None => Failure(NoGet(parameters).message)
    case Some(period) =>
      match f(close, period)
      case Err(m) => Failure(m)
      case Ok(xs) => SingleDoc(name, color, period, xs, n)
  }

  function Macd(f: DirectTriple, close: seq<Json>, parameters: Json, n: nat): Json {
    if !parameters.JObj? then Failure(NoGet(parameters).message)
    else
      var fast := Lookup(parameters.fields, "fastPeriod").GetOr(JInt(12));
      var slow := Lookup(parameters.fields, "slowPeriod").GetOr(JInt(26));
      var signal := Lookup(parameters.fields, "signalPeriod").GetOr(JInt(9));
      match f(close, fast, slow, signal)
      case Err(m) => Failure(m)
      case Ok(out) => MacdDoc(fast, slow, signal, out, n)
  }

  function Bands(f: DirectTriple, close: seq<Json>, parameters: Json, n: nat): Json {
    if !parameters.JObj? then Failure(NoGet(parameters).message)
    else
      var period := Lookup(parameters.fields, "period").GetOr(JInt(20));
      var stdDev := Lookup(parameters.fields, "stdDev").GetOr(JInt(2));
      match f(close, period, stdDev, stdDev)
      case Err(m) => Failure(m)
      case Ok(out) => BandDoc(period, stdDev, out, n)
  }

  /** The dispatch on the indicator's name, once the columns are read. */
  function Dispatch(talib: Talib, str: PyStr, indicator: Json, close: seq<Json>, parameters: Json): Json {
    var n := |close|;
    if indicator == JStr("sma") then SingleLine(talib.sma, "sma", "#2196F3", 20, close, parameters, n)
    else if indicator == JStr("ema") then SingleLine(talib.ema, "ema", "#FF6B35", 20, close, parameters, n)
    else if indicator == JStr("rsi") then SingleLine(talib.rsi, "rsi", "#9C27B0", 14, close, parameters, n)
    else if indicator == JStr("macd") then Macd(talib.macd, close, parameters, n)
    else if indicator == JStr("bollinger") then Bands(talib.bbands, close, parameters, n)
    else Failure("Unknown indicator: " + str(indicator))
  }

  /** `calculate_indicator`: the five columns are read first, then the name
      is dispatched; every exception becomes `{success: False, error}`. */
  function CalculateIndicator(talib: Talib, str: PyStr, indicator: Json, rows: seq<Json>, parameters: Json): Json {
    match MissingColumn(rows)
    case Some(key) => Failure(KeyErrorText(key))
    case None => Dispatch(talib, str, indicator, Column(rows, "close"), parameters)
  }

  /** What the script leaves behind: its exit status and the printed document. */
  datatype Exit = Exit(code: int, doc: Json)

  /** The request as `__main__` reads it: the name, the candles and the
      parameters (`{}` when absent), or the text of what reading raised. */
  function ReadRequest(py: Python, input: string): Result<(Json, Json, Json), string> {
    match py.loads(input)
    case Err(m) => Err(m)
    case Ok(data) =>
      if !data.JObj? then Err(py.subscriptError(data))
      else
        match Lookup(data.fields, "indicator")
        case None => Err(KeyErrorText("indicator"))
        case Some(indicator) =>
          match Lookup(data.fields, "candles")
          case None => Err(KeyErrorText("candles"))
          case Some(candles) => Ok((indicator, candles, Lookup(data.fields, "parameters").GetOr(JObj([]))))
  }

  /** The `__main__` block: a request that cannot be read (bad JSON, not an
      object, no `indicator` or `candles`) exits 1; everything else, an
      unknown indicator and a failed calculation included, exits 0. */
  function Main(py: Python, talib: Talib, input: string): Exit {
    match ReadRequest(py, input)
    case Err(m) => Exit(1, Failure(m))
    case Ok((indicator, candles, parameters)) =>
      Exit(0, match py.frame(candles)
              case Err(m) => Failure(m)
              case Ok(rows) => CalculateIndicator(talib, py.str, indicator, rows, parameters))
  }

  // ---------------------------------------------------------------------
  // Properties

  /** Without candles the frame has no columns: every request, whatever the
      indicator, fails on the close column. */
  lemma NoCandlesFailOnClose(talib: Talib, str: PyStr, indicator: Json, parameters: Json)
    ensures CalculateIndicator(talib, str, indicator, [], parameters) == Failure("'close'")
  {
    assert !HasColumn([], "close");
    assert MissingColumn([]) == Some("close");
    assert KeyErrorText("close") == "'close'";
  }

  lemma DispatchUnknown(talib: Talib, str: PyStr, name: string, close: seq<Json>, parameters: Json)
    requires name !in {"sma", "ema", "rsi", "macd", "bollinger"}
    ensures Dispatch(talib, str, JStr(name), close, parameters) == Failure("Unknown indicator: " + name)
  {
    assert JStr(name) != JStr("sma") && JStr(name) != JStr("ema") && JStr(name) != JStr("rsi");
    assert JStr(name) != JStr("macd") && JStr(name) != JStr("bollinger");
    assert str(JStr(name)) == name;
  }

  /** An unknown name answers `success: False` with the name in the
      message, and the script still exits 0. */
  lemma UnknownIndicator(py: Python, talib: Talib, input: string, name: string, candles: Json, parameters: Json)
    requires ReadRequest(py, input) == Ok((JStr(name), candles, parameters))
    requires name !in {"sma", "ema", "rsi", "macd", "bollinger"}
    requires py.frame(candles).Ok? && MissingColumn(py.frame(candles).value).None?
    ensures Main(py, talib, input) == Exit(0, Failure("Unknown indicator: " + name))
  {
    var rows := py.frame(candles).value;
    DispatchUnknown(talib, py.str, name, Column(rows, "close"), parameters);
    assert Main(py, talib, input) == Exit(0, CalculateIndicator(talib, py.str, JStr(name), rows, parameters));
  }

  /** The single-line answer: one entry per candle, null where TA-Lib gave
      NaN; `calculatedPoints` counts the non-null entries and `dataPoints`
      the candles. */
  lemma SingleLineShape(f: Direct, name: string, color: string, default: int, close: seq<Json>, parameters: Json)
    requires Succeeded(SingleLine(f, name, color, default, close, parameters, |close|))
    ensures var doc := SingleLine(f, name, color, default, close, parameters, |close|);
      Get(doc, "values").Some? && Get(doc, "values").value.JArr? &&
      var vs := Get(doc, "values").value.items;
      |vs| == |close| &&
      Get(MetadataOf(doc), "calculatedPoints") == Some(JInt(NonNullCount(vs))) &&
      Get(MetadataOf(doc), "dataPoints") == Some(JInt(|close|))
  {
    var period := GetParam(parameters, "period", JInt(default)).value;
    NullableCount(f(close, period).value);
  }

  /** sma, ema and rsi keep one value per candle and count the defined ones. */
  lemma SingleLineIndicators(talib: Talib, str: PyStr, name: string, rows: seq<Json>, parameters: Json)
    requires name in {"sma", "ema", "rsi"}
    requires Succeeded(CalculateIndicator(talib, str, JStr(name), rows, parameters))
    ensures var doc := CalculateIndicator(talib, str, JStr(name), rows, parameters);
      Get(doc, "values").Some? && Get(doc, "values").value.JArr? &&
      var vs := Get(doc, "values").value.items;
      |vs| == |rows| &&
      Get(MetadataOf(doc), "calculatedPoints") == Some(JInt(NonNullCount(vs))) &&
      Get(MetadataOf(doc), "dataPoints") == Some(JInt(|rows|))
  {
    var close := Column(rows, "close");
    if name == "sma" {
      SingleLineShape(talib.sma, "sma", "#2196F3", 20, close, parameters);
    } else if name == "ema" {
      SingleLineShape(talib.ema, "ema", "#FF6B35", 20, close, parameters);
    } else {
      SingleLineShape(talib.rsi, "rsi", "#9C27B0", 14, close, parameters);
    }
  }

  /** Without parameters every indicator runs on its defaults (sma and ema
      20, rsi 14, macd 12/26/9, bollinger 20 and 2), which the metadata
      echoes next to the number of candles. */
  lemma DefaultsEchoed(talib: Talib, str: PyStr, name: string, close: seq<Json>)
    requires name in {"sma", "ema", "rsi", "macd", "bollinger"}
    requires Succeeded(Dispatch(talib, str, JStr(name), close, JObj([])))
    ensures var meta := MetadataOf(Dispatch(talib, str, JStr(name), close, JObj([])));
      Get(meta, "dataPoints") == Some(JInt(|close|)) &&
      (name in {"sma", "ema"} ==> Get(meta, "period") == Some(JInt(20))) &&
      (name == "rsi" ==> Get(meta, "period") == Some(JInt(14))) &&
      (name == "macd" ==> Get(meta, "fastPeriod") == Some(JInt(12)) && Get(meta, "slowPeriod") == Some(JInt(26)) &&
                          Get(meta, "signalPeriod") == Some(JInt(9))) &&
      (name == "bollinger" ==> Get(meta, "period") == Some(JInt(20)) && Get(meta, "stdDev") == Some(JInt(2)))
  {
    var n := |close|;
    if name == "sma" {
      assert Dispatch(talib, str, JStr(name), close, JObj([])) == SingleLine(talib.sma, "sma", "#2196F3", 20, close, JObj([]), n);
    } else if name == "ema" {
      assert Dispatch(talib, str, JStr(name), close, JObj([])) == SingleLine(talib.ema, "ema", "#FF6B35", 20, close, JObj([]), n);
    } else if name == "rsi" {
      assert Dispatch(talib, str, JStr(name), close, JObj([])) == SingleLine(talib.rsi, "rsi", "#9C27B0", 14, close, JObj([]), n);
    } else if name == "macd" {
      assert Dispatch(talib, str, JStr(name), close, JObj([])) == Macd(talib.macd, close, JObj([]), n);
    } else {
      assert Dispatch(talib, str, JStr(name), close, JObj([])) == Bands(talib.bbands, close, JObj([]), n);
    }
  }

  /** The exit status: 1 exactly when the request cannot be read, and then
      the document is a failure; a request that reads exits 0. */
  lemma ExitCodeRule(py: Python, talib: Talib, input: string)
    ensures var e := Main(py, talib, input);
      (e.code == 1 <==> ReadRequest(py, input).Err?) &&
      (e.code != 1 ==> e.code == 0) &&
      (e.code == 1 ==> !Succeeded(e.doc))
  {
  }

  /** Reading the request: each of its failures, in order. */
  lemma ReadFailures(py: Python, input: string)
    ensures py.loads(input).Err? ==> ReadRequest(py, input) == Err(py.loads(input).error)
    ensures py.loads(input).Ok? && py.loads(input).value.JObj? ==>
      var data := py.loads(input).value.fields;
      (Lookup(data, "indicator").None? ==> ReadRequest(py, input) == Err("'indicator'")) &&
      (Lookup(data, "indicator").Some? && Lookup(data, "candles").None? ==> ReadRequest(py, input) == Err("'candles'")) &&
      (Lookup(data, "indicator").Some? && Lookup(data, "candles").Some? ==>
         ReadRequest(py, input).Ok? && ReadRequest(py, input).value.2 == Lookup(data, "parameters").GetOr(JObj([])))
  {
    assert KeyErrorText("indicator") == "'indicator'";
    assert KeyErrorText("candles") == "'candles'";
  }

  /** A `parameters` entry that is present but null is not replaced by the
      default: `.get` on None raises inside the calculation, so the answer
      is a failure and the script still exits 0. */
  lemma NullParametersFailInside(talib: Talib, str: PyStr, name: string, close: seq<Json>)
    requires name in {"sma", "ema", "rsi", "macd", "bollinger"}
    ensures Dispatch(talib, str, JStr(name), close, JNull) == Failure(NoGet(JNull).message)
    ensures NoGet(JNull).typeName == "AttributeError" && PyTypeName(JNull) == "NoneType"
  {
    var n := |close|;
    var failure := Failure(NoGet(JNull).message);
    if name == "sma" {
      assert SingleLine(talib.sma, "sma", "#2196F3", 20, close, JNull, n) == failure;
    } else if name == "ema" {
      assert SingleLine(talib.ema, "ema", "#FF6B35", 20, close, JNull, n) == failure;
    } else if name == "rsi" {
      assert SingleLine(talib.rsi, "rsi", "#9C27B0", 14, close, JNull, n) == failure;
    } else if name == "macd" {
      assert Macd(talib.macd, close, JNull, n) == failure;
    } else {
      assert Bands(talib.bbands, close, JNull, n) == failure;
    }
  }
}
