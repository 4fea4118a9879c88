/** The handlers of src/routes/vision.ts: `/analyze` and `/ask` check the
    request body field by field, call the vision service and wrap its
    result; `/health` answers a fixed document.  The service calls are
    parameters (Err is the message of the error they throw) and so is the
    ISO time stamp. */
module VisionRoutes {
  import opened Wrappers
  import opened Json

  datatype Reply = Reply(status: int, body: Json)

  /** A 400 answer: `{success: false, error}`. */
  function BadRequest(message: string): (r: Reply)
    ensures r.status == 400 && Get(r.body, "success") == Some(JBool(false))
    ensures Get(r.body, "error") == Some(JStr(message))
  {
    var fields := [("success", JBool(false)), ("error", JStr(message))];
    LookupFirst(fields, "success", 0);
    assert "error"[0] != "success"[0];
    LookupFirst(fields, "error", 1);
    Reply(400, JObj(fields))
  }

  /** The 500 answer of the `catch` block: the error's message, or a generic
      one when it is empty. */
  function Failure(message: string, timestamp: string): (r: Reply)
    ensures r.status == 500 && Get(r.body, "success") == Some(JBool(false))
    ensures Get(r.body, "error") == Some(JStr(if message != "" then message else "Internal server error"))
  {
    var text := if message != "" then message else "Internal server error";
    var fields := [("success", JBool(false)), ("error", JStr(text)), ("timestamp", JStr(timestamp))];
    LookupFirst(fields, "success", 0);
    assert "error"[0] != "success"[0];
    LookupFirst(fields, "error", 1);
    Reply(500, JObj(fields))
  }

  /** The 200 answer: `{success: true, data, timestamp}`. */
  function Success(data: Json, timestamp: string): (r: Reply)
    ensures r.status == 200 && Get(r.body, "success") == Some(JBool(true))
    ensures Get(r.body, "data") == Some(data)
  {
    var fields := [("success", JBool(true)), ("data", data), ("timestamp", JStr(timestamp))];
    LookupFirst(fields, "success", 0);
    assert "data"[0] != "success"[0];
    LookupFirst(fields, "data", 1);
    Reply(200, JObj(fields))
  }

  /** `x || []`. */
  function OrEmptyList(x: Option<Json>): Json {
    if JsTruthy(x) then x.value else JArr([])
  }

  /** `quickAnalysis(image, symbol, interval, indicators, technicalData)`. */
  type Analyzer = (Json, Json, Json, Json, Json) -> Result<Json, string>

  /** POST /analyze. */
  function Analyze(body: Json, analyze: Analyzer, timestamp: string): Reply {
    var image := Get(body, "image");
    var symbol := Get(body, "symbol");
    var interval := Get(body, "interval");
    var technicalData := Get(body, "technicalData");
    if !JsTruthy(image) then BadRequest("image (base64) is required")
    else if !JsTruthy(symbol) then BadRequest("symbol is required")
    else if !JsTruthy(interval) then BadRequest("interval is required")
    else if !JsTruthy(technicalData) then BadRequest("technicalData is required")
    else
      match analyze(image.value, symbol.value, interval.value, OrEmptyList(Get(body, "indicators")), technicalData.value)
      case Ok(result) => Success(result, timestamp)
      case Err(message) => Failure(message, timestamp)
  }

  /** The checks run in the order image, symbol, interval, technicalData;
      the first that fails decides the 400 message, and the service is not
      called (any two services give the same answer). */
  lemma AnalyzeValidationOrder(body: Json, a1: Analyzer, a2: Analyzer, timestamp: string)
    ensures !JsTruthy(Get(body, "image")) ==>
            Analyze(body, a1, timestamp) == BadRequest("image (base64) is required")
    ensures JsTruthy(Get(body, "image")) && !JsTruthy(Get(body, "symbol")) ==>
            Analyze(body, a1, timestamp) == BadRequest("symbol is required")
    ensures JsTruthy(Get(body, "image")) && JsTruthy(Get(body, "symbol")) && !JsTruthy(Get(body, "interval")) ==>
            Analyze(body, a1, timestamp) == BadRequest("interval is required")
    ensures JsTruthy(Get(body, "image")) && JsTruthy(Get(body, "symbol")) && JsTruthy(Get(body, "interval"))
            && !JsTruthy(Get(body, "technicalData")) ==>
            Analyze(body, a1, timestamp) == BadRequest("technicalData is required")
    ensures Analyze(body, a1, timestamp).status == 400 ==> Analyze(body, a1, timestamp) == Analyze(body, a2, timestamp)
  {
  }

  /** With every required field present the service is called, with `[]`
      for absent indicators, and its result or failure decides the answer. */
  lemma AnalyzeCallsService(body: Json, analyze: Analyzer, timestamp: string)
    requires JsTruthy(Get(body, "image")) && JsTruthy(Get(body, "symbol"))
    requires JsTruthy(Get(body, "interval")) && JsTruthy(Get(body, "technicalData"))
    ensures !JsTruthy(Get(body, "indicators")) ==>
            Analyze(body, analyze, timestamp) ==
            match analyze(Get(body, "image").value, Get(body, "symbol").value, Get(body, "interval").value,
                          JArr([]), Get(body, "technicalData").value)
            case Ok(result) => Success(result, timestamp)
            case Err(message) => Failure(message, timestamp)
    ensures Analyze(body, analyze, timestamp).status in {200, 500}
    ensures Analyze(body, analyze, timestamp).status == 200 <==>
            analyze(Get(body, "image").value, Get(body, "symbol").value, Get(body, "interval").value,
                    OrEmptyList(Get(body, "indicators")), Get(body, "technicalData").value).Ok?
  {
  }

  /** `askAI(image, question, context, conversationHistory)`. */
  type Asker = (Json, Json, Json, Json) -> Result<string, string>

  /** POST /ask. */
  function Ask(body: Json, ask: Asker, timestamp: string): Reply {
    var image := Get(body, "image");
    var question := Get(body, "question");
    var context := Get(body, "context");
    if !JsTruthy(image) then BadRequest("image (base64) is required")
    else if !JsTruthy(question) then BadRequest("question is required")
    else if !JsTruthy(context) || !JsTruthy(Get(context.value, "symbol")) || !JsTruthy(Get(context.value, "interval")) then
      BadRequest("context (symbol, interval) is required")
    else
      match ask(image.value, question.value, context.value, OrEmptyList(Get(body, "conversationHistory")))
      case Ok(answer) => Success(AskData(answer, question.value), timestamp)
      case Err(message) => Failure(message, timestamp)
  }

  /** The checks run in the order image, question, context; a context
      without a truthy symbol or interval is refused like a missing one, and
      the service is not called. */
  lemma AskValidationOrder(body: Json, a1: Asker, a2: Asker, timestamp: string)
    ensures !JsTruthy(Get(body, "image")) ==> Ask(body, a1, timestamp) == BadRequest("image (base64) is required")
    ensures JsTruthy(Get(body, "image")) && !JsTruthy(Get(body, "question")) ==>
            Ask(body, a1, timestamp) == BadRequest("question is required")
    ensures JsTruthy(Get(body, "image")) && JsTruthy(Get(body, "question")) &&
            (!JsTruthy(Get(body, "context")) || !JsTruthy(Get(Get(body, "context").value, "symbol"))
             || !JsTruthy(Get(Get(body, "context").value, "interval"))) ==>
            Ask(body, a1, timestamp) == BadRequest("context (symbol, interval) is required")
    ensures Ask(body, a1, timestamp).status == 400 ==> Ask(body, a1, timestamp) == Ask(body, a2, timestamp)
  {
  }

  /** The data of a successful ask: the answer and the question it answers. */
  function AskData(answer: string, question: Json): Json {
    JObj([("answer", JStr(answer)), ("question", question)])
  }

  /** Past validation the service decides: a 200 with the answer beside the
      question, or a 500 with its message; absent history is sent as `[]`. */
  lemma AskCallsService(body: Json, ask: Asker, timestamp: string)
    requires JsTruthy(Get(body, "image")) && JsTruthy(Get(body, "question")) && JsTruthy(Get(body, "context"))
    requires JsTruthy(Get(Get(body, "context").value, "symbol")) && JsTruthy(Get(Get(body, "context").value, "interval"))
    ensures !JsTruthy(Get(body, "conversationHistory")) ==>
            Ask(body, ask, timestamp) ==
            match ask(Get(body, "image").value, Get(body, "question").value, Get(body, "context").value, JArr([]))
            case Ok(answer) => Success(AskData(answer, Get(body, "question").value), timestamp)
            case Err(message) => Failure(message, timestamp)
    ensures Ask(body, ask, timestamp).status in {200, 500}
  {
  }

  /** The question is echoed back unchanged. */
  lemma AskDataEchoes(answer: string, question: Json)
    ensures Get(AskData(answer, question), "answer") == Some(JStr(answer))
    ensures Get(AskData(answer, question), "question") == Some(question)
  {
    var fields := [("answer", JStr(answer)), ("question", question)];
    LookupFirst(fields, "answer", 0);
    assert "question"[0] != "answer"[0];
    LookupFirst(fields, "question", 1);
  }

  /** GET /health. */
  function Health(timestamp: string): Reply {
    Reply(200, JObj([("success", JBool(true)), ("service", JStr("Vision API with ATR/ADX")),
                     ("status", JStr("healthy")), ("timestamp", JStr(timestamp))]))
  }

  /** Every answer of the three handlers reports `success` true exactly
      when its status is 200. */
  lemma AnalyzeSuccessFlag(body: Json, analyze: Analyzer, timestamp: string)
    ensures Get(Analyze(body, analyze, timestamp).body, "success") ==
            Some(JBool(Analyze(body, analyze, timestamp).status == 200))
  {
  }

  lemma AskSuccessFlag(body: Json, ask: Asker, timestamp: string)
    ensures Get(Ask(body, ask, timestamp).body, "success") == Some(JBool(Ask(body, ask, timestamp).status == 200))
  {
  }

  lemma HealthReport(timestamp: string)
    ensures Health(timestamp).status == 200 && Get(Health(timestamp).body, "success") == Some(JBool(true))
    ensures Get(Health(timestamp).body, "status") == Some(JStr("healthy"))
  {
    var fields := [("success", JBool(true)), ("service", JStr("Vision API with ATR/ADX")),
                   ("status", JStr("healthy")), ("timestamp", JStr(timestamp))];
    LookupFirst(fields, "success", 0);
    assert "status"[1] !in {"success"[1], "service"[1]};
    LookupFirst(fields, "status", 2);
  }
}
