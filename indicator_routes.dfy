/** The four handlers of src/routes/indicator.ts, over the legacy service.
    A handler is a function from the request to the status and JSON body it
    answers; the service's `calculate` is given as the outcome it settles
    to for the request document it is handed. */
module IndicatorRoutes {
  import opened Wrappers
  import opened Json
  import opened PythonExecutor
  import opened IndicatorService
  import LegacyCalculate

  datatype Response = Response(status: int, body: Json)

  /** `res.status(status).json({success: false, error, message})`. */
  function Refusal(status: int, error: string, message: string): (r: Response)
    ensures r.status == status
    ensures Get(r.body, "success") == Some(JBool(false)) && Get(r.body, "error") == Some(JStr(error))
    ensures Get(r.body, "message") == Some(JStr(message))
  {
    var fields := [("success", JBool(false)), ("error", JStr(error)), ("message", JStr(message))];
    LookupFirst(fields, "success", 0);
    assert "error"[0] != "success"[0];
    LookupFirst(fields, "error", 1);
    assert "message"[0] !in {"success"[0], "error"[0]};
    LookupFirst(fields, "message", 2);
    Response(status, JObj(fields))
  }

  /** `res.json({success: true, data})`. */
  function Data(data: Json): (r: Response)
    ensures r.status == 200 && Get(r.body, "success") == Some(JBool(true)) && Get(r.body, "data") == Some(data)
  {
    var fields := [("success", JBool(true)), ("data", data)];
    LookupFirst(fields, "success", 0);
    assert "data"[0] != "success"[0];
    LookupFirst(fields, "data", 1);
    Response(200, JObj(fields))
  }

  /** GET /metadata: the whole table. */
  function MetadataRoute(): Response {
    Data(JObj(AllMetadata()))
  }

  /** The whole table is answered with 200, its five names in order. */
  lemma MetadataRouteIsTable()
    ensures MetadataRoute().status == 200
    ensures Get(MetadataRoute().body, "data") == Some(JObj(AllMetadata()))
    ensures Keys(AllMetadata()) == ["sma", "ema", "rsi", "macd", "bollinger"]
  {
    TableKeys();
  }

  function NotFound(name: string): Response {
    Refusal(404, "Indicator not found", "Indicator '" + name + "' does not exist")
  }

  // ---------------------------------------------------------------------
  // GET /metadata/:name

  /** What a plain object inherits from `Object.prototype`: reading one of
      these names yields a function, or, for `__proto__`, the prototype. */
  const InheritedNames: set<string> := {
    "constructor", "hasOwnProperty", "isPrototypeOf", "propertyIsEnumerable", "toLocaleString",
    "toString", "valueOf", "__defineGetter__", "__defineSetter__", "__lookupGetter__",
    "__lookupSetter__", "__proto__"}

  /** The handler as written: `if (!metadata[name])` also lets through every
      inherited name, whose value is truthy.  `res.json` then drops a
      function-valued `data` and prints the prototype as `{}`. */
  function MetadataByNameAsWritten(name: string): Response {
    match Lookup(AllMetadata(), name)
    case Some(entry) => Data(entry)
    case None =>
      if name == "__proto__" then Data(JObj([]))
      else if name in InheritedNames then Response(200, JObj([("success", JBool(true))]))
      else NotFound(name)
  }

  /** The handler as intended: only the table's own keys are found. */
  function MetadataByName(name: string): Response {
    match Lookup(AllMetadata(), name)
    case Some(entry) => Data(entry)
    case None => NotFound(name)
  }

  /** Inherited names pass the as-written check: `toString` answers 200
      with no data although no indicator has that name. */
  lemma InheritedNamePassesCheck()
    ensures "toString" !in Keys(AllMetadata())
    ensures MetadataByNameAsWritten("toString").status == 200
    ensures Get(MetadataByNameAsWritten("toString").body, "success") == Some(JBool(true))
    ensures Get(MetadataByNameAsWritten("toString").body, "data").None?
  {
    TableKeys();
  }

  /** The intended handler finds exactly the table's keys, answers with
      that key's entry, and answers 404 for every other name. */
  lemma MetadataByNameFindsOwnKeys(name: string)
    ensures MetadataByName(name).status == 200 <==> name in Keys(AllMetadata())
    ensures name in Keys(AllMetadata()) ==>
      Get(MetadataByName(name).body, "data") == Lookup(AllMetadata(), name)
    ensures name !in Keys(AllMetadata()) ==>
      (MetadataByName(name) == NotFound(name) && NotFound(name).status == 404 &&
       Get(NotFound(name).body, "error") == Some(JStr("Indicator not found")))
  {
  }

  /** The two handlers differ only on inherited names. */
  lemma HandlersAgreeOnOrdinaryNames(name: string)
    requires name !in InheritedNames
    ensures MetadataByNameAsWritten(name) == MetadataByName(name)
  {
  }

  // ---------------------------------------------------------------------
  // POST /calculate

  /** The request checks: a truthy `indicator` and an array `candles` (an
      array is always truthy). */
  predicate Acceptable(body: Json) {
    JsTruthy(Get(body, "indicator")) && Get(body, "candles").Some? && Get(body, "candles").value.JArr?
  }

  /** `res.json({success: true, ...result})`: the result's own fields are
      written over `success`. */
  function Spread(result: Json): Fields {
    Assign([("success", JBool(true))], SpreadFields(result))
  }

  /** POST /calculate; `calculate` is what the service settles to for the
      request document it sends to the script. */
  function CalculateRoute(body: Json, calculate: Json -> Outcome): Response {
    if !Acceptable(body) then Refusal(400, "Invalid request", "Missing required fields: indicator, candles")
    else
      var request := Request(Get(body, "indicator").value, Get(body, "candles").value, Get(body, "parameters"));
      match calculate(request)
      case Resolved(result) => Response(200, JObj(Spread(result)))
      case Rejected(err) => Refusal(500, "Failed to calculate indicator", err.message)
  }

  /** A malformed request is refused with 400 and the service is not asked:
      the answer is the same whatever the service would do. */
  lemma MalformedRequestRefused(body: Json, calculate: Json -> Outcome, other: Json -> Outcome)
    requires !Acceptable(body)
    ensures CalculateRoute(body, calculate).status == 400
    ensures CalculateRoute(body, calculate) == CalculateRoute(body, other)
  {
  }

  /** Because the spread comes last, the result's own `success` wins: a
      result that reports failure is answered with 200 and `success: false`;
      a result without `success` gets `true`. */
  lemma SpreadKeepsResultSuccess(body: Json, calculate: Json -> Outcome, fields: Fields)
    requires Acceptable(body) && UniqueKeys(fields)
    requires var request := Request(Get(body, "indicator").value, Get(body, "candles").value, Get(body, "parameters"));
      calculate(request) == Resolved(JObj(fields))
    ensures CalculateRoute(body, calculate).status == 200
    ensures Get(CalculateRoute(body, calculate).body, "success") ==
      (if "success" in Keys(fields) then Lookup(fields, "success") else Some(JBool(true)))
  {
    AssignLookup([("success", JBool(true))], fields, "success");
  }

  /** The legacy script's failure document (an unknown indicator, for one)
      is answered with status 200 and `success: false`. */
  lemma ScriptFailureAnswered200(body: Json, calculate: Json -> Outcome, message: string)
    requires Acceptable(body)
    requires var request := Request(Get(body, "indicator").value, Get(body, "candles").value, Get(body, "parameters"));
      calculate(request) == Resolved(LegacyCalculate.Failure(message))
    ensures CalculateRoute(body, calculate).status == 200
    ensures Get(CalculateRoute(body, calculate).body, "success") == Some(JBool(false))
    ensures Get(CalculateRoute(body, calculate).body, "error") == Some(JStr(message))
  {
    var fields := LegacyCalculate.Failure(message).fields;
    assert "success"[0] != "error"[0];
    SpreadKeepsResultSuccess(body, calculate, fields);
    AssignLookup([("success", JBool(true))], fields, "error");
  }

  /** A failure of the service answers 500 with the error's message. */
  lemma ServiceFailureAnswered500(body: Json, calculate: Json -> Outcome, err: Error)
    requires Acceptable(body)
    requires var request := Request(Get(body, "indicator").value, Get(body, "candles").value, Get(body, "parameters"));
      calculate(request) == Rejected(err)
    ensures CalculateRoute(body, calculate).status == 500
    ensures Get(CalculateRoute(body, calculate).body, "message") == Some(JStr(err.message))
  {
  }

  // ---------------------------------------------------------------------
  // GET /list

  function Summary(e: Entry): Json {
    JObj([("name", JStr(e.name)), ("fullName", JStr(e.fullName)), ("category", JStr(e.category)),
          ("description", JStr(e.description))])
  }

  /** GET /list: one summary per key of the table, and their number. */
  function ListRoute(): Response {
    var items := seq(|Table|, i requires 0 <= i < |Table| => Summary(Table[i]));
    Response(200, JObj([("success", JBool(true)), ("data", JArr(items)), ("count", JInt(|items|))]))
  }

  /** The list holds one summary per table key, in the table's order, each
      named by its key, and `count` is the list's length, five. */
  lemma ListMatchesTable(i: nat)
    requires i < |AllMetadata()|
    ensures var body := ListRoute().body;
      Get(body, "data").Some? && Get(body, "data").value.JArr? &&
      |Get(body, "data").value.items| == |AllMetadata()| &&
      Get(body, "count") == Some(JInt(|AllMetadata()|)) &&
      Get(Get(body, "data").value.items[i], "name") == Some(JStr(AllMetadata()[i].0))
    ensures |AllMetadata()| == 5
  {
    var body := ListRoute().body;
    LookupFirst(body.fields, "data", 1);
    assert "count"[0] !in {"success"[0], "data"[0]};
    LookupFirst(body.fields, "count", 2);
    LookupFirst(Summary(Table[i]).fields, "name", 0);
  }
}
