/** The legacy indicator service of src/services/indicator.service.ts: a
    fixed metadata table and `calculate`, which runs
    python-indicators/calculate.py once per request.  Unlike the launcher of
    the script gateway, `executePython` arms no timer: a child that never
    closes leaves the call pending forever. */
module IndicatorService {
  import opened Wrappers
  import opened Strings
  import opened Json
  import opened PythonExecutor
  import LegacyCalculate

  // ---------------------------------------------------------------------
  // The metadata table

  /** One numeric parameter of the table. */
  datatype ParamSpec = ParamSpec(name: string, default: int, min: int, max: int, description: string)

  datatype Entry = Entry(name: string, fullName: string, category: string, description: string,
                         parameters: seq<ParamSpec>)

  const Table: seq<Entry> := [
    Entry("sma", "Simple Moving Average", "trend", "指定期間の終値の単純平均を計算します",
          [ParamSpec("period", 20, 2, 200, "計算期間")]),
    Entry("ema", "Exponential Moving Average", "trend", "指数移動平均を計算します。直近の価格により大きな重みを置きます",
          [ParamSpec("period", 20, 2, 200, "計算期間")]),
    Entry("rsi", "Relative Strength Index", "momentum", "相対力指数。買われすぎ・売られすぎを判断する指標",
          [ParamSpec("period", 14, 2, 100, "計算期間")]),
    Entry("macd", "Moving Average Convergence Divergence", "momentum", "移動平均収束拡散法。トレンドの方向性と強さを示します",
          [ParamSpec("fastPeriod", 12, 2, 100, "短期EMA期間"), ParamSpec("slowPeriod", 26, 2, 100, "長期EMA期間"),
           ParamSpec("signalPeriod", 9, 2, 100, "シグナル線期間")]),
    Entry("bollinger", "Bollinger Bands", "volatility", "ボリンジャーバンド。価格の変動範囲を示します",
          [ParamSpec("period", 20, 2, 200, "計算期間"), ParamSpec("stdDev", 2, 1, 3, "標準偏差の倍数")])]

  function ParamJson(p: ParamSpec): Json {
    JObj([("name", JStr(p.name)), ("type", JStr("number")), ("default", JInt(p.default)),
          ("min", JInt(p.min)), ("max", JInt(p.max)), ("description", JStr(p.description))])
  }

  function EntryJson(e: Entry): Json {
    JObj([("name", JStr(e.name)), ("fullName", JStr(e.fullName)), ("category", JStr(e.category)),
          ("description", JStr(e.description)),
          ("parameters", JArr(seq(|e.parameters|, i requires 0 <= i < |e.parameters| => ParamJson(e.parameters[i]))))])
  }

  /** The table as the object `getAllMetadata` returns, keyed by name in
      declaration order. */
  function AllMetadata(): (fields: Fields)
    ensures |fields| == |Table|
    ensures forall i :: 0 <= i < |Table| ==> fields[i] == (Table[i].name, EntryJson(Table[i]))
  {
    seq(|Table|, i requires 0 <= i < |Table| => (Table[i].name, EntryJson(Table[i])))
  }

  /** Every declared default lies within its declared bounds. */
  predicate DefaultsWithinBounds(entries: seq<Entry>) {
    forall i, j :: 0 <= i < |entries| && 0 <= j < |entries[i].parameters| ==>
      entries[i].parameters[j].min <= entries[i].parameters[j].default <= entries[i].parameters[j].max
  }

  /** The five keys, in declaration order and unique. */
  lemma TableKeys()
    ensures Keys(AllMetadata()) == ["sma", "ema", "rsi", "macd", "bollinger"]
    ensures UniqueKeys(AllMetadata())
  {
    var ks := Keys(AllMetadata());
    assert ks[0] == "sma" && ks[1] == "ema" && ks[2] == "rsi" && ks[3] == "macd" && ks[4] == "bollinger";
    assert "sma"[0] !in {"ema"[0], "rsi"[0], "macd"[0], "bollinger"[0]};
    assert "ema"[0] !in {"rsi"[0], "macd"[0], "bollinger"[0]};
    assert "rsi"[0] !in {"macd"[0], "bollinger"[0]};
    assert "macd"[0] != "bollinger"[0];
  }

  /** Every default lies within its bounds, and macd's and bollinger's are
      the ones the legacy script falls back on. */
  lemma TableDefaults()
    ensures DefaultsWithinBounds(Table)
    ensures Table[3].parameters[0].default == 12 && Table[3].parameters[1].default == 26 &&
            Table[3].parameters[2].default == 9
    ensures Table[4].parameters[0].default == 20 && Table[4].parameters[1].default == 2
  {
  }

  // ---------------------------------------------------------------------
  // calculate

  /** `{indicator, candles, parameters: parameters || {}}`. */
  function Request(indicator: Json, candles: Json, parameters: Option<Json>): (r: Json)
    ensures Get(r, "indicator") == Some(indicator) && Get(r, "candles") == Some(candles)
    ensures Get(r, "parameters") == Some(if JsTruthy(parameters) then parameters.value else JObj([]))
  {
    var fields := [("indicator", indicator), ("candles", candles),
                   ("parameters", if JsTruthy(parameters) then parameters.value else JObj([]))];
    LookupFirst(fields, "indicator", 0);
    assert "candles"[0] != "indicator"[0];
    LookupFirst(fields, "candles", 1);
    assert "parameters"[0] !in {"indicator"[0], "candles"[0]};
    LookupFirst(fields, "parameters", 2);
    JObj(fields)
  }

  /** `env.pythonPath || 'python3'`. */
  function Interpreter(pythonPath: string): string {
    if pythonPath == "" then "python3" else pythonPath
  }

  /** The callbacks `executePython` listens to. */
  datatype Callback =
    | Out(chunk: string)          // 'data' on stdout
    | ErrOut(chunk: string)       // 'data' on stderr
    | Closed(code: Option<int>)   // 'close'
    | Failed(err: Error)          // 'error'

  datatype RunState = RunState(stdout: string, stderr: string, settled: Option<Outcome>)

  const Start := RunState("", "", None)

  function ParseFailure(): Error {
    NewError("Failed to parse indicator calculation result")
  }

  /** What 'close' decides: a code other than 0 (null included) rejects
      with the code and stderr; 0 resolves with the parsed stdout. */
  function Closing(code: Option<int>, stdout: string, stderr: string, parse: string -> Option<Json>): Outcome {
    if code != Some(0) then Rejected(NewError("Python process exited with code " + CodeText(code) + ": " + stderr))
    else match parse(stdout)
      case Some(doc) => Resolved(doc)
      case None => Rejected(ParseFailure())
  }

  function Next(s: RunState, c: Callback, parse: string -> Option<Json>): RunState {
    match c
    case Out(chunk) => s.(stdout := s.stdout + chunk)
    case ErrOut(chunk) => s.(stderr := s.stderr + chunk)
    case Closed(code) =>
      if s.settled.None? then s.(settled := Some(Closing(code, s.stdout, s.stderr, parse))) else s
    case Failed(err) => if s.settled.None? then s.(settled := Some(Rejected(err))) else s
  }

  function Run(cs: seq<Callback>, parse: string -> Option<Json>): RunState {
    if cs == [] then Start else Next(Run(cs[..|cs| - 1], parse), cs[|cs| - 1], parse)
  }

  lemma RunAppend(cs: seq<Callback>, c: Callback, parse: string -> Option<Json>)
    ensures Run(cs + [c], parse) == Next(Run(cs, parse), c, parse)
  {
    assert (cs + [c])[..|cs|] == cs;
  }

  predicate Ends(c: Callback) {
    c.Closed? || c.Failed?
  }

  /** No timeout on this path: the call settles exactly when the child has
      closed or failed to start, and stays pending otherwise, however much
      output arrives. */
  lemma {:induction false} SettlesOnlyOnClose(cs: seq<Callback>, parse: string -> Option<Json>)
    ensures Run(cs, parse).settled.Some? <==> exists i :: 0 <= i < |cs| && Ends(cs[i])
  {
    if cs != [] {
      var init := cs[..|cs| - 1];
      SettlesOnlyOnClose(init, parse);
      if exists i :: 0 <= i < |init| && Ends(init[i]) {
        var i :| 0 <= i < |init| && Ends(init[i]);
        assert cs[i] == init[i];
      }
      if exists i :: 0 <= i < |cs| && Ends(cs[i]) {
        var i :| 0 <= i < |cs| && Ends(cs[i]);
        if i < |init| {
          assert init[i] == cs[i];
        }
      }
    }
  }

  /** The first 'close' or 'error' decides; later ones change nothing. */
  lemma {:induction false} FirstEndDecides(before: seq<Callback>, after: seq<Callback>, parse: string -> Option<Json>)
    requires Run(before, parse).settled.Some?
    ensures Run(before + after, parse).settled == Run(before, parse).settled
    decreases |after|
  {
    if after == [] {
      assert before + after == before;
    } else {
      var init := after[..|after| - 1];
      FirstEndDecides(before, init, parse);
      assert before + after == (before + init) + [after[|after| - 1]];
      RunAppend(before + init, after[|after| - 1], parse);
    }
  }

  function OutOf(cs: seq<Callback>): string {
    if cs == [] then "" else OutOf(cs[..|cs| - 1]) + (if cs[|cs| - 1].Out? then cs[|cs| - 1].chunk else "")
  }

  function ErrOf(cs: seq<Callback>): string {
    if cs == [] then "" else ErrOf(cs[..|cs| - 1]) + (if cs[|cs| - 1].ErrOut? then cs[|cs| - 1].chunk else "")
  }

  /** The accumulators are the in-order concatenations of their stream. */
  lemma {:induction false} OutputAccumulates(cs: seq<Callback>, parse: string -> Option<Json>)
    ensures Run(cs, parse).stdout == OutOf(cs) && Run(cs, parse).stderr == ErrOf(cs)
  {
    if cs != [] {
      OutputAccumulates(cs[..|cs| - 1], parse);
    }
  }

  /** The closure state of one `executePython` call. */
  class PythonRun {
    const parse: string -> Option<Json>
    var stdout: string
    var stderr: string
    var settled: Option<Outcome>
    ghost var seen: seq<Callback>

    ghost predicate Valid()
      reads this
    {
      RunState(stdout, stderr, settled) == Run(seen, parse)
    }

    constructor(parse: string -> Option<Json>)
      ensures Valid() && seen == [] && this.parse == parse
      ensures stdout == "" && stderr == "" && settled == None
    {
      this.parse := parse;
      stdout, stderr, settled := "", "", None;
      seen := [];
    }

    method OnOut(chunk: string)
      requires Valid()
      modifies this
      ensures Valid() && seen == old(seen) + [Out(chunk)]
      ensures stdout == old(stdout) + chunk && stderr == old(stderr) && settled == old(settled)
    {
      RunAppend(seen, Out(chunk), parse);
      stdout := stdout + chunk;
      seen := seen + [Out(chunk)];
    }

    method OnErrOut(chunk: string)
      requires Valid()
      modifies this
      ensures Valid() && seen == old(seen) + [ErrOut(chunk)]
      ensures stderr == old(stderr) + chunk && stdout == old(stdout) && settled == old(settled)
    {
      RunAppend(seen, ErrOut(chunk), parse);
      stderr := stderr + chunk;
      seen := seen + [ErrOut(chunk)];
    }

    method OnClose(code: Option<int>)
      requires Valid()
      modifies this
      ensures Valid() && seen == old(seen) + [Closed(code)]
      ensures stdout == old(stdout) && stderr == old(stderr)
      ensures settled == if old(settled).None? then Some(Closing(code, stdout, stderr, parse)) else old(settled)
    {
      RunAppend(seen, Closed(code), parse);
      seen := seen + [Closed(code)];
      if settled.Some? {
        return;
      }
      if code != Some(0) {
        settled := Some(Rejected(NewError("Python process exited with code " + CodeText(code) + ": " + stderr)));
        return;
      }
      var doc := parse(stdout);
      if doc.Some? {
        settled := Some(Resolved(doc.value));
      } else {
        settled := Some(Rejected(ParseFailure()));
      }
    }

    method OnError(err: Error)
      requires Valid()
      modifies this
      ensures Valid() && seen == old(seen) + [Failed(err)]
      ensures stdout == old(stdout) && stderr == old(stderr)
      ensures settled == if old(settled).None? then Some(Rejected(err)) else old(settled)
    {
      RunAppend(seen, Failed(err), parse);
      seen := seen + [Failed(err)];
      if settled.None? {
        settled := Some(Rejected(err));
      }
    }
  }

  /** `calculate`: spawn `<python> <cwd>/python-indicators/calculate.py`,
      write the request, feed the child's callbacks to the run, and return
      what it settles to (None while pending); a rejection is rethrown
      unchanged. */
  method Calculate(pythonPath: string, cwd: string, parse: string -> Option<Json>,
                   indicator: Json, candles: Json, parameters: Option<Json>, cs: seq<Callback>)
    returns (spawned: Command, result: Option<Outcome>)
    ensures spawned == Command(Interpreter(pythonPath), [cwd + "/python-indicators/calculate.py"],
                               Request(indicator, candles, parameters))
    ensures result == Run(cs, parse).settled
  {
    spawned := Command(Interpreter(pythonPath), [cwd + "/python-indicators/calculate.py"],
                       Request(indicator, candles, parameters));
    var run := new PythonRun(parse);
    var i := 0;
    while i < |cs|
      invariant 0 <= i <= |cs|
      invariant run.Valid() && run.seen == cs[..i] && run.parse == parse
    {
      match cs[i] {
        case Out(chunk) => run.OnOut(chunk);
        case ErrOut(chunk) => run.OnErrOut(chunk);
        case Closed(code) => run.OnClose(code);
        case Failed(err) => run.OnError(err);
      }
      assert cs[..i + 1] == cs[..i] + [cs[i]];
      i := i + 1;
    }
    assert cs[..i] == cs;
    result := run.settled;
  }

  // ---------------------------------------------------------------------
  // The service and the legacy script together

  /** The callbacks for one run of calculate.py: its printed line, then
      'close' with its exit status. */
  function ScriptCallbacks(exit: LegacyCalculate.Exit, dumps: Json -> string): seq<Callback> {
    [Out(dumps(exit.doc) + "\n"), Closed(Some(exit.code))]
  }

  lemma RunScriptCallbacks(exit: LegacyCalculate.Exit, dumps: Json -> string, parse: string -> Option<Json>)
    ensures Run(ScriptCallbacks(exit, dumps), parse).settled ==
      Some(Closing(Some(exit.code), dumps(exit.doc) + "\n", "", parse))
  {
    var line := dumps(exit.doc) + "\n";
    RunAppend([], Out(line), parse);
    assert [] + [Out(line)] == [Out(line)];
    assert Run([Out(line)], parse) == RunState(line, "", None);
    RunAppend([Out(line)], Closed(Some(exit.code)), parse);
    assert [Out(line)] + [Closed(Some(exit.code))] == ScriptCallbacks(exit, dumps);
  }

  /** A request the script can read resolves the call with the script's
      document, even when that document reports a failure (an unknown
      indicator, a failed calculation). */
  lemma ReadableRequestResolves(py: LegacyCalculate.Python, talib: LegacyCalculate.Talib, input: string,
                                dumps: Json -> string, parse: string -> Option<Json>)
    requires LegacyCalculate.ReadRequest(py, input).Ok?
    requires var doc := LegacyCalculate.Main(py, talib, input).doc; parse(dumps(doc) + "\n") == Some(doc)
    ensures Run(ScriptCallbacks(LegacyCalculate.Main(py, talib, input), dumps), parse).settled ==
      Some(Resolved(LegacyCalculate.Main(py, talib, input).doc))
  {
    LegacyCalculate.ExitCodeRule(py, talib, input);
    RunScriptCallbacks(LegacyCalculate.Main(py, talib, input), dumps, parse);
  }

  /** A request the script cannot read makes it exit 1 with its complaint
      on stdout; the service reports only the exit code, so the complaint
      is lost. */
  lemma UnreadableRequestLosesItsMessage(py: LegacyCalculate.Python, talib: LegacyCalculate.Talib, input: string,
                                         dumps: Json -> string, parse: string -> Option<Json>)
    requires LegacyCalculate.ReadRequest(py, input).Err?
    ensures Run(ScriptCallbacks(LegacyCalculate.Main(py, talib, input), dumps), parse).settled ==
      Some(Rejected(NewError("Python process exited with code " + CodeText(Some(1)) + ": ")))
    ensures CodeText(Some(1)) == "1"
  {
    var exit := LegacyCalculate.Main(py, talib, input);
    LegacyCalculate.ExitCodeRule(py, talib, input);
    assert exit.code == 1;
    RunScriptCallbacks(exit, dumps, parse);
    assert "Python process exited with code " + CodeText(Some(1)) + ": " + "" ==
           "Python process exited with code " + CodeText(Some(1)) + ": ";
  }
}
