/** The script side of the indicator protocol: `IndicatorBase.run` of
    python-indicators/indicator_interface.py.  A script reads one JSON request
    from stdin, answers a describe request with its metadata, otherwise
    validates the request, coerces every candle in place, validates the
    parameters, calculates and stamps the result's metadata; any exception
    becomes an error document and exit status 1. */
module IndicatorInterface {
  import opened Wrappers
  import opened Strings
  import opened Json

  /** A Python exception: `type(e).__name__` and `str(e)`. */
  datatype PyExc = PyExc(typeName: string, message: string)

  function ValueError(message: string): PyExc { PyExc("ValueError", message) }
  function TypeError(message: string): PyExc { PyExc("TypeError", message) }

  /** `type(v).__name__` of a decoded JSON value. */
  function PyTypeName(v: Json): string {
    match v
    case JNull => "NoneType"
    case JBool(_) => "bool"
    case JInt(_) => "int"
    case JFloat(_) => "float"
    case JStr(_) => "str"
    case JArr(_) => "list"
    case JObj(_) => "dict"
  }

  /** Calling `.get` on something that is not a dict. */
  function NoGet(v: Json): PyExc {
    PyExc("AttributeError", "'" + PyTypeName(v) + "' object has no attribute 'get'")
  }

  /** What the interpreter does with `int(s)` and `float(s)` for a string:
      the number, or the text of the ValueError it raises. */
  datatype Numerics = Numerics(parseInt: string -> Result<int, string>,
                               parseFloat: string -> Result<real, string>)

  /** `int(r)` for a float truncates toward zero. */
  function Truncate(r: real): (i: int)
    ensures r >= 0.0 ==> i as real <= r < i as real + 1.0
    ensures r < 0.0 ==> i as real - 1.0 < r <= i as real
  {
    if r >= 0.0 then r.Floor else -((-r).Floor)
  }

  /** The TypeErrors of `int(v)` and `float(v)` for a value that is neither
      a number nor a string. */
  function IntArgumentError(v: Json): PyExc {
    TypeError("int() argument must be a string, a bytes-like object or a real number, not '" + PyTypeName(v) + "'")
  }

  function FloatArgumentError(v: Json): PyExc {
    TypeError("float() argument must be a string or a real number, not '" + PyTypeName(v) + "'")
  }

  /** `int(v)`. */
  function PyInt(v: Json, num: Numerics): (r: Result<Json, PyExc>)
    ensures r.Ok? ==> r.value.JInt?
    ensures v.JInt? ==> r == Ok(v)
  {
    match v
    case JInt(i) => Ok(JInt(i))
    case JBool(b) => Ok(JInt(if b then 1 else 0))
    case JFloat(r) => Ok(JInt(Truncate(r)))
    case JStr(s) =>
      (match num.parseInt(s)
       case Ok(i) => Ok(JInt(i))
       case Err(m) => Err(ValueError(m)))
    case _ => Err(IntArgumentError(v))
  }

  /** `float(v)`. */
  function PyFloat(v: Json, num: Numerics): (r: Result<Json, PyExc>)
    ensures r.Ok? ==> r.value.JFloat?
    ensures v.JInt? ==> r == Ok(JFloat(v.i as real))
  {
    match v
    case JInt(i) => Ok(JFloat(i as real))
    case JBool(b) => Ok(JFloat(if b then 1.0 else 0.0))
    case JFloat(r) => Ok(JFloat(r))
    case JStr(s) =>
      (match num.parseFloat(s)
       case Ok(r) => Ok(JFloat(r))
       case Err(m) => Err(ValueError(m)))
    case _ => Err(FloatArgumentError(v))
  }

  /** The candle fields in the order the coercion loop rewrites them. */
  const CandleKeys: seq<string> := ["time", "open", "high", "low", "close", "volume"]

  /** `int` for the time, `float` for the prices and the volume. */
  function Convert(key: string, v: Json, num: Numerics): Result<Json, PyExc> {
    if key == "time" then PyInt(v, num) else PyFloat(v, num)
  }

  /** `candle[key] = conv(candle.get(key, 0))`. */
  function CoerceField(fields: Fields, key: string, num: Numerics): Result<Fields, PyExc> {
    match Convert(key, Lookup(fields, key).GetOr(JInt(0)), num)
    case Ok(x) => Ok(Put(fields, key, x))
    case Err(e) => Err(e)
  }

  function CoerceFields(fields: Fields, keys: seq<string>, num: Numerics): Result<Fields, PyExc>
    decreases |keys|
  {
    if keys == [] then Ok(fields)
    else match CoerceField(fields, keys[0], num)
      case Err(e) => Err(e)
      case Ok(next) => CoerceFields(next, keys[1..], num)
  }

  /** One candle of the coercion loop. */
  function CoerceCandle(candle: Json, num: Numerics): Result<Json, PyExc> {
    if !candle.JObj? then Err(NoGet(candle))
    else match CoerceFields(candle.fields, CandleKeys, num)
      case Err(e) => Err(e)
      case Ok(fields) => Ok(JObj(fields))
  }

  /** The candle coercion as a value, for the loops that apply it. */
  function Coercion(num: Numerics): Json -> Result<Json, PyExc> {
    c => CoerceCandle(c, num)
  }

  /** The first item at or after `from` on which `f` fails. */
  function FirstFailure(items: seq<Json>, f: Json -> Result<Json, PyExc>, from: nat): (r: Option<nat>)
    ensures r.Some? ==> from <= r.value < |items| && f(items[r.value]).Err?
    ensures r.Some? ==> forall j :: from <= j < r.value ==> f(items[j]).Ok?
    ensures r.None? ==> forall j :: from <= j < |items| ==> f(items[j]).Ok?
    decreases |items| - from
  {
    if from >= |items| then None
    else if f(items[from]).Err? then Some(from)
    else FirstFailure(items, f, from + 1)
  }

  /** `f` applied to every item, or the first failure. */
  function MapAll(items: seq<Json>, f: Json -> Result<Json, PyExc>): Result<seq<Json>, PyExc> {
    match FirstFailure(items, f, 0)
    case Some(k) => Err(f(items[k]).error)
    case None => Ok(seq(|items|, j requires 0 <= j < |items| => f(items[j]).value))
  }

  /** The whole coercion loop: every candle rewritten, or the first failure. */
  function CoerceAll(candles: seq<Json>, num: Numerics): Result<seq<Json>, PyExc> {
    MapAll(candles, Coercion(num))
  }

  predicate Distinct(keys: seq<string>) {
    forall i, j :: 0 <= i < j < |keys| ==> keys[i] != keys[j]
  }

  /** Coercing distinct keys one after another: each listed key holds the
      conversion of its original value (0 when absent) and every other key is
      untouched. */
  lemma {:induction false} CoerceFieldsLookup(fields: Fields, keys: seq<string>, num: Numerics, k: string)
    requires Distinct(keys)
    requires CoerceFields(fields, keys, num).Ok?
    ensures k !in keys ==> Lookup(CoerceFields(fields, keys, num).value, k) == Lookup(fields, k)
    ensures k in keys ==>
      var converted := Convert(k, Lookup(fields, k).GetOr(JInt(0)), num);
      converted.Ok? && Lookup(CoerceFields(fields, keys, num).value, k) == Some(converted.value)
    decreases |keys|
  {
    if keys != [] {
      var key := keys[0];
      var next := CoerceField(fields, key, num).value;
      var x := Convert(key, Lookup(fields, key).GetOr(JInt(0)), num).value;
      assert next == Put(fields, key, x);
      CoerceFieldsLookup(next, keys[1..], num, k);
      PutLookup(fields, key, x, k);
      if k == key {
        assert k !in keys[1..] by {
          forall i | 0 <= i < |keys[1..]| ensures keys[1..][i] != key {
            assert keys[1..][i] == keys[i + 1];
          }
        }
      } else {
        assert k in keys <==> k in keys[1..];
      }
    }
  }

  lemma CandleKeysDistinct()
    ensures Distinct(CandleKeys)
  {
    assert forall i :: 0 <= i < 6 ==> |CandleKeys[i]| >= 3;
    assert CandleKeys[1][0] == 'o' && CandleKeys[2][0] == 'h' && CandleKeys[3][0] == 'l';
    assert CandleKeys[4][0] == 'c' && CandleKeys[5][0] == 'v' && CandleKeys[0][0] == 't';
  }

  /** After coercion a candle carries an int `time` and float prices and
      volume, each the conversion of the original value, or zero for a
      missing field; any other field is left as it was. */
  lemma CoercedCandle(candle: Json, num: Numerics, k: string)
    requires CoerceCandle(candle, num).Ok?
    ensures candle.JObj? && CoerceCandle(candle, num).value.JObj?
    ensures var c := CoerceCandle(candle, num).value;
      k in CandleKeys ==>
        Get(c, k).Some? && (if k == "time" then Get(c, k).value.JInt? else Get(c, k).value.JFloat?) &&
        Convert(k, Get(candle, k).GetOr(JInt(0)), num) == Ok(Get(c, k).value)
    ensures var c := CoerceCandle(candle, num).value;
      k in CandleKeys && Get(candle, k).None? ==>
        Get(c, k) == Some(if k == "time" then JInt(0) else JFloat(0.0))
    ensures var c := CoerceCandle(candle, num).value;
      k !in CandleKeys ==> Get(c, k) == Get(candle, k)
  {
    var keys := CandleKeys;
    CandleKeysDistinct();
    var r := CoerceFields(candle.fields, keys, num);
    CoerceFieldsLookup(candle.fields, keys, num, k);
    assert CoerceCandle(candle, num).value == JObj(r.value);
  }

  /** Rewrites each item of the list where it stands, stopping at the
      first failure. */
  method RewriteAll(items: array<Json>, f: Json -> Result<Json, PyExc>) returns (failure: Option<PyExc>)
    modifies items
    ensures failure.None? ==> MapAll(old(items[..]), f) == Ok(items[..])
    ensures failure.Some? ==> MapAll(old(items[..]), f) == Err(failure.value)
  {
    ghost var original := items[..];
    var i := 0;
    while i < items.Length
      invariant 0 <= i <= items.Length
      invariant forall j :: 0 <= j < i ==> f(original[j]).Ok? && items[j] == f(original[j]).value
      invariant items[i..] == original[i..]
    {
      assert original[i] == items[i..][0];
      match f(items[i])
      case Err(e) =>
        return Some(e);
      case Ok(c) =>
        items[i] := c;
        i := i + 1;
    }
    assert items[..] == seq(|original|, j requires 0 <= j < |original| => f(original[j]).value);
    return None;
  }

  /** The coercion loop over the request's candle list. */
  method CoerceCandles(candles: array<Json>, num: Numerics) returns (failure: Option<PyExc>)
    modifies candles
    ensures failure.None? ==> CoerceAll(old(candles[..]), num) == Ok(candles[..])
    ensures failure.Some? ==> CoerceAll(old(candles[..]), num) == Err(failure.value)
  {
    failure := RewriteAll(candles, Coercion(num));
  }

  /** What an indicator script is made of: the attributes its constructor
      sets, what `get_metadata` returns, and the two methods a subclass
      overrides.  Either method may raise. */
  datatype Indicator = Indicator(
    name: string,
    version: string,
    describe: Fields,
    validate: Json -> Result<bool, PyExc>,
    calculate: (seq<Json>, Json) -> Result<Fields, PyExc>)

  /** The base class's `validate_params` accepts any parameters. */
  function BaseValidate(params: Json): Result<bool, PyExc> {
    Ok(true)
  }

  /** The base class's `get_metadata`, given the attributes and
      `get_parameter_definitions()` (which the base class leaves empty). */
  function BaseMetadata(name: string, version: string, displayType: string, chartType: string,
                        parameters: seq<Json>): Fields
  {
    [("name", JStr(name)), ("displayName", JStr(AsciiUpper(name))), ("version", JStr(version)),
     ("displayType", JStr(displayType)), ("chartType", JStr(chartType)),
     ("parameters", JArr(parameters)), ("description", JStr("No description available"))]
  }

  /** The base class's defaults: name, version, display and chart type. */
  const BaseName := "base_indicator"
  const BaseVersion := "1.0.0"
  const BaseDisplayType := "single-line"
  const BaseChartType := "main"

  /** An indicator that keeps the base `get_metadata` describes itself by
      its upper-cased name, lists no parameters, and accepts any params. */
  lemma BaseDescription(name: string, version: string, displayType: string, chartType: string, params: Json)
    ensures var m := JObj(BaseMetadata(name, version, displayType, chartType, []));
      Get(m, "name") == Some(JStr(name)) &&
      Get(m, "displayName") == Some(JStr(AsciiUpper(name))) &&
      Get(m, "parameters") == Some(JArr([])) &&
      Get(m, "description") == Some(JStr("No description available"))
    ensures BaseValidate(params) == Ok(true)
  {
    var m := BaseMetadata(name, version, displayType, chartType, []);
    LookupFirst(m, "name", 0);
    LookupFirst(m, "displayName", 1);
    LookupFirst(m, "parameters", 5);
    LookupFirst(m, "description", 6);
  }

  /** How a run ends: it printed a document and returned (exit status 0),
      or an exception reached the handler (exit status 1). */
  datatype ScriptRun = Printed(doc: Json) | Raised(exc: PyExc)

  function ExitCode(r: ScriptRun): nat {
    if r.Raised? then 1 else 0
  }

  /** The error document printed by the exception handler. */
  function ErrorDoc(name: string, e: PyExc): Json {
    JObj([("success", JBool(false)),
          ("error", JObj([("type", JStr(e.typeName)), ("message", JStr(e.message)),
                          ("indicator", JStr(name))]))])
  }

  /** The one document a run writes to stdout. */
  function Output(r: ScriptRun, name: string): Json {
    match r
    case Printed(doc) => doc
    case Raised(e) => ErrorDoc(name, e)
  }

  /** `result['metadata']`, stamped with the indicator, its version and the
      number of candles. */
  function Stamp(ind: Indicator, m: Fields, dataPoints: nat): Fields {
    Put(Put(Put(m, "indicator", JStr(ind.name)), "version", JStr(ind.version)), "dataPoints", JInt(dataPoints))
  }

  /** Item assignment on `result['metadata']`, creating the dict when the
      result has none; a metadata value that is not a dict raises. */
  function InjectMetadata(ind: Indicator, result: Fields, dataPoints: nat): ScriptRun {
    match Lookup(result, "metadata")
    case None => Printed(JObj(Put(result, "metadata", JObj(Stamp(ind, [], dataPoints)))))
    case Some(JObj(m)) => Printed(JObj(Put(result, "metadata", JObj(Stamp(ind, m, dataPoints)))))
    case Some(JArr(_)) => Raised(TypeError("list indices must be integers or slices, not str"))
    case Some(other) => Raised(TypeError("'" + PyTypeName(other) + "' object does not support item assignment"))
  }

  /** `run` once the request has been decoded. */
  function RunRequest(ind: Indicator, request: Json, num: Numerics): ScriptRun {
    if !request.JObj? then Raised(NoGet(request))
    else if Lookup(request.fields, "_mode") == Some(JStr("metadata")) then
      Printed(JObj(Put(ind.describe, "success", JBool(true))))
    else
      var candleData := Lookup(request.fields, "candleData");
      if candleData.None? || !PyTruthy(candleData.value) then Raised(ValueError("candleData is required"))
      else if !candleData.value.JArr? then Raised(ValueError("candleData must be an array"))
      else if |candleData.value.items| == 0 then Raised(ValueError("candleData must not be empty"))
      else
        Calculate(ind, candleData.value.items, Lookup(request.fields, "params").GetOr(JObj([])), num)
  }

  /** The rest of `run` once the request has passed its checks: coerce the
      candles, validate the parameters, calculate and stamp the metadata. */
  function Calculate(ind: Indicator, items: seq<Json>, params: Json, num: Numerics): ScriptRun {
    match CoerceAll(items, num)
    case Err(e) => Raised(e)
    case Ok(candles) =>
      match ind.validate(params)
      case Err(e) => Raised(e)
      case Ok(false) => Raised(ValueError("Invalid parameters"))
      case Ok(true) =>
        match ind.calculate(candles, params)
        case Err(e) => Raised(e)
        case Ok(result) => InjectMetadata(ind, result, |candles|)
  }

  /** `run`: decode stdin (`loads` gives the value or the decoder's message). */
  function RunSpec(ind: Indicator, input: string, loads: string -> Result<Json, string>, num: Numerics): ScriptRun {
    match loads(input)
    case Err(m) => Raised(PyExc("JSONDecodeError", m))
    case Ok(request) => RunRequest(ind, request, num)
  }

  /** `IndicatorBase.run` as the script executes it, candle loop included;
      `main_runner` constructs the indicator and calls this. */
  method Run(ind: Indicator, input: string, loads: string -> Result<Json, string>, num: Numerics)
    returns (out: ScriptRun)
    ensures out == RunSpec(ind, input, loads, num)
  {
    var decoded := loads(input);
    if decoded.Err? {
      return Raised(PyExc("JSONDecodeError", decoded.error));
    }
    var request := decoded.value;
    if !request.JObj? {
      return Raised(NoGet(request));
    }
    if Lookup(request.fields, "_mode") == Some(JStr("metadata")) {
      return Printed(JObj(Put(ind.describe, "success", JBool(true))));
    }
    var candleData := Lookup(request.fields, "candleData");
    if candleData.None? || !PyTruthy(candleData.value) {
      return Raised(ValueError("candleData is required"));
    }
    if !candleData.value.JArr? {
      return Raised(ValueError("candleData must be an array"));
    }
    var items := candleData.value.items;
    if |items| == 0 {
      return Raised(ValueError("candleData must not be empty"));
    }
    var params := Lookup(request.fields, "params").GetOr(JObj([]));
    var candles := new Json[|items|](i requires 0 <= i < |items| => items[i]);
    assert candles[..] == items;
    var failure := CoerceCandles(candles, num);
    if failure.Some? {
      return Raised(failure.value);
    }
    var ok := ind.validate(params);
    if ok.Err? {
      return Raised(ok.error);
    }
    if !ok.value {
      return Raised(ValueError("Invalid parameters"));
    }
    var result := ind.calculate(candles[..], params);
    if result.Err? {
      return Raised(result.error);
    }
    out := InjectMetadata(ind, result.value, candles.Length);
  }

  /** A describe request prints `get_metadata()` plus `success: True`, and
      looks at nothing else in the request. */
  lemma DescribeMode(ind: Indicator, request: Json, num: Numerics, k: string)
    requires request.JObj? && Lookup(request.fields, "_mode") == Some(JStr("metadata"))
    ensures var out := RunRequest(ind, request, num);
      out.Printed? && Get(out.doc, "success") == Some(JBool(true)) &&
      (k != "success" ==> Get(out.doc, k) == Lookup(ind.describe, k))
    ensures forall other: Json :: other.JObj? && Lookup(other.fields, "_mode") == Some(JStr("metadata")) ==>
      RunRequest(ind, other, num) == RunRequest(ind, request, num)
  {
    PutLookup(ind.describe, "success", JBool(true), k);
  }

  /** The request checks, in order: a missing or falsy `candleData` (an
      empty list included, so the emptiness check never fires), then one that
      is not a list. */
  lemma RequestChecks(ind: Indicator, request: Json, num: Numerics)
    requires request.JObj? && Lookup(request.fields, "_mode") != Some(JStr("metadata"))
    ensures var cd := Lookup(request.fields, "candleData");
      (cd.None? || cd == Some(JArr([])) || !PyTruthy(cd.value)) ==>
        RunRequest(ind, request, num) == Raised(ValueError("candleData is required"))
    ensures var cd := Lookup(request.fields, "candleData");
      cd.Some? && PyTruthy(cd.value) && !cd.value.JArr? ==>
        RunRequest(ind, request, num) == Raised(ValueError("candleData must be an array"))
    ensures var cd := Lookup(request.fields, "candleData");
      cd.Some? && PyTruthy(cd.value) && cd.value.JArr? ==>
        RunRequest(ind, request, num) ==
        Calculate(ind, cd.value.items, Lookup(request.fields, "params").GetOr(JObj([])), num)
  {
  }

  /** Parameters that fail validation stop the run before `calculate`: any
      calculation gives the same "Invalid parameters" failure. */
  lemma InvalidParamsStopBeforeCalculate(ind: Indicator, items: seq<Json>, params: Json, num: Numerics,
                                         anyCalculation: (seq<Json>, Json) -> Result<Fields, PyExc>)
    requires CoerceAll(items, num).Ok?
    requires ind.validate(params) == Ok(false)
    ensures Calculate(ind, items, params, num) == Raised(ValueError("Invalid parameters"))
    ensures Calculate(ind.(calculate := anyCalculation), items, params, num) == Calculate(ind, items, params, num)
  {
  }

  /** After a successful calculation the printed document carries a
      `metadata` dict whose `indicator`, `version` and `dataPoints` are the
      script's name, its version and the number of candles, whatever the
      calculation put there; every other key of the result is kept. */
  lemma InjectedMetadata(ind: Indicator, result: Fields, dataPoints: nat, k: string)
    requires InjectMetadata(ind, result, dataPoints).Printed?
    ensures var doc := InjectMetadata(ind, result, dataPoints).doc;
      Get(doc, "metadata").Some? && Get(doc, "metadata").value.JObj? &&
      Get(Get(doc, "metadata").value, "indicator") == Some(JStr(ind.name)) &&
      Get(Get(doc, "metadata").value, "version") == Some(JStr(ind.version)) &&
      Get(Get(doc, "metadata").value, "dataPoints") == Some(JInt(dataPoints))
    ensures k != "metadata" ==> Get(InjectMetadata(ind, result, dataPoints).doc, k) == Lookup(result, k)
  {
    var m := match Lookup(result, "metadata") case Some(JObj(m)) => m case _ => [];
    var s1 := Put(m, "indicator", JStr(ind.name));
    var s2 := Put(s1, "version", JStr(ind.version));
    StampLookups(s1, s2, m, ind, dataPoints);
    PutLookup(result, "metadata", JObj(Stamp(ind, m, dataPoints)), k);
  }

  lemma StampLookups(s1: Fields, s2: Fields, m: Fields, ind: Indicator, dataPoints: nat)
    requires s1 == Put(m, "indicator", JStr(ind.name))
    requires s2 == Put(s1, "version", JStr(ind.version))
    ensures Lookup(Stamp(ind, m, dataPoints), "indicator") == Some(JStr(ind.name))
    ensures Lookup(Stamp(ind, m, dataPoints), "version") == Some(JStr(ind.version))
    ensures Lookup(Stamp(ind, m, dataPoints), "dataPoints") == Some(JInt(dataPoints))
  {
    PutLookup(m, "indicator", JStr(ind.name), "version");
    PutLookup(s1, "version", JStr(ind.version), "indicator");
    PutLookup(s2, "dataPoints", JInt(dataPoints), "indicator");
    PutLookup(s2, "dataPoints", JInt(dataPoints), "version");
  }

  /** A run exits with status 1 exactly when it printed an error document. */
  lemma ExitStatusMatchesDocument(ind: Indicator, input: string, loads: string -> Result<Json, string>,
                                  num: Numerics)
    ensures var out := RunSpec(ind, input, loads, num);
      ExitCode(out) == 1 <==> exists e :: Output(out, ind.name) == ErrorDoc(ind.name, e)
  {
    var out := RunSpec(ind, input, loads, num);
    if out.Raised? {
      assert Output(out, ind.name) == ErrorDoc(ind.name, out.exc);
    } else {
      forall e ensures out.doc != ErrorDoc(ind.name, e) {
        var err := ErrorDoc(ind.name, e).fields;
        LookupFirst(err, "success", 0);
        assert Keys(err) == ["success", "error"];
        var request := loads(input).value;
        if Lookup(request.fields, "_mode") == Some(JStr("metadata")) {
          PutLookup(ind.describe, "success", JBool(true), "success");
        } else {
          var cd := Lookup(request.fields, "candleData").value.items;
          var candles := CoerceAll(cd, num).value;
          var params := Lookup(request.fields, "params").GetOr(JObj([]));
          assert out == Calculate(ind, cd, params, num);
          InjectedMetadata(ind, ind.calculate(candles, params).value, |candles|, "metadata");
        }
      }
    }
  }
}
