/** How the two halves of the indicator protocol meet: what the gateway of
    src/services/python-executor.service.ts makes of the document and exit
    status that `IndicatorBase.run` leaves behind.  The script's stdout is
    one `print` of the serialised document; `dumps` is the serialiser. */
module Protocol {
  import opened Wrappers
  import opened Json
  import opened PythonExecutor
  import opened IndicatorInterface

  /** The callbacks the gateway sees for one run of a script: its printed
      line as a single chunk, then `close` with its exit status. */
  function ScriptEvents(run: ScriptRun, name: string, dumps: Json -> string): seq<Event> {
    [StdoutData(dumps(Output(run, name)) + "\n"), Close(Some(ExitCode(run)))]
  }

  lemma ReplayScriptEvents(run: ScriptRun, name: string, dumps: Json -> string, timeout: nat,
                           parse: string -> Option<Json>)
    ensures var text := dumps(Output(run, name)) + "\n";
      Replay(ScriptEvents(run, name, dumps), timeout, parse).settled ==
      Some(CloseOutcome(Some(ExitCode(run)), text, "", parse))
  {
    var text := dumps(Output(run, name)) + "\n";
    ReplayAppend([], StdoutData(text), timeout, parse);
    assert [] + [StdoutData(text)] == [StdoutData(text)];
    ReplayAppend([StdoutData(text)], Close(Some(ExitCode(run))), timeout, parse);
    assert [StdoutData(text)] + [Close(Some(ExitCode(run)))] == ScriptEvents(run, name, dumps);
    assert Replay([StdoutData(text)], timeout, parse) == Initial.(stdout := text);
  }

  /** A script that reports an error exits 1, so the launcher rejects with its
      printed line as the message and `execute` answers an ExecutionError:
      the script's own exception type survives only inside that text. */
  lemma ScriptErrorBecomesExecutionError(ind: Indicator, e: PyExc, dumps: Json -> string, timeout: nat,
                                         parse: string -> Option<Json>)
    ensures var text := dumps(ErrorDoc(ind.name, e)) + "\n";
      var r := ExecuteResult(Replay(ScriptEvents(Raised(e), ind.name, dumps), timeout, parse).settled);
      r.Some? && IsFailure(r.value, "ExecutionError", text)
  {
    ReplayScriptEvents(Raised(e), ind.name, dumps, timeout, parse);
    var text := dumps(ErrorDoc(ind.name, e)) + "\n";
    assert ExitMessage(Some(1), text, "") == text;
    ExecuteNeverRejects(Rejected(NewError(text)));
  }

  /** A script that finishes normally exits 0.  When its line parses back to
      the printed document, `execute` returns that document unchanged; a
      printed `null` becomes the ExecutionError of `result.success`. */
  lemma ScriptSuccessIsReturnedUnchanged(ind: Indicator, doc: Json, dumps: Json -> string, timeout: nat,
                                         parse: string -> Option<Json>)
    requires parse(dumps(doc) + "\n") == Some(doc)
    ensures doc != JNull ==>
      ExecuteResult(Replay(ScriptEvents(Printed(doc), ind.name, dumps), timeout, parse).settled) == Some(doc)
    ensures doc == JNull ==>
      var r := ExecuteResult(Replay(ScriptEvents(Printed(doc), ind.name, dumps), timeout, parse).settled);
      r.Some? && IsFailure(r.value, "ExecutionError", NullResultMessage)
  {
    ReplayScriptEvents(Printed(doc), ind.name, dumps, timeout, parse);
    ExecuteNeverRejects(Resolved(doc));
  }

  /** The request `getIndicatorMetadata` sends puts every script in
      describe mode: it prints its metadata with `success: True`. */
  lemma DescribeRequestIsDescribeMode(ind: Indicator, name: string, num: Numerics)
    ensures RunRequest(ind, DescribeRequest(name), num) == Printed(JObj(Put(ind.describe, "success", JBool(true))))
  {
    assert Get(DescribeRequest(name), "_mode") == Some(JStr("metadata"));
  }
}
