/** The process launcher, execution gateway and metadata registry of
    src/services/python-executor.service.ts.

    One child process is modelled as the sequence of callbacks Node delivers
    for it (output chunks, `close`, `error`, the timeout firing).  The
    `Launcher` class holds what `spawnPythonProcess` keeps in its closure: the
    two output accumulators, the timer, whether the child was killed and the
    settlement of the promise.  `Replay` is the same machine as a function of
    the callbacks seen so far; every handler keeps the fields equal to it. */
module PythonExecutor {
  import opened Wrappers
  import opened Strings
  import opened Json

  /** A JavaScript `Error`: its message and its stack text. */
  datatype Error = Error(message: string, stack: string)

  /** `new Error(message)`; V8 starts the stack with "Error: <message>", the
      frames after that line are not modelled. */
  function NewError(message: string): Error {
    Error(message, "Error: " + message)
  }

  /** The callbacks Node can deliver for one spawned child. */
  datatype Event =
    | StdoutData(chunk: string)   // 'data' on stdout
    | StderrData(chunk: string)   // 'data' on stderr
    | Close(code: Option<int>)    // 'close'; None when a signal ended the child
    | SpawnFailed(err: Error)     // 'error' on the child
    | TimerFired                  // the setTimeout callback
    | StdinFailed(err: Error)     // writing the request to stdin threw

  /** How the promise of `spawnPythonProcess` ends. */
  datatype Outcome = Resolved(doc: Json) | Rejected(err: Error)

  datatype State = State(
    stdout: string,
    stderr: string,
    timerArmed: bool,
    killed: bool,
    settled: Option<Outcome>)

  const Initial := State("", "", true, false, None)

  function TimeoutMessage(timeout: nat): string {
    "Python process timeout after " + NatToString(timeout) + "ms"
  }

  /** `${code}` for an exit code that may be null. */
  function CodeText(code: Option<int>): string {
    match code
    case None => "null"
    case Some(c) => IntToString(c)
  }

  /** The message of a non-zero exit: stderr, else stdout, else the code. */
  function ExitMessage(code: Option<int>, stdout: string, stderr: string): string {
    if stderr != "" then stderr
    else if stdout != "" then stdout
    else "Python process exited with code " + CodeText(code)
  }

  /** What the 'close' callback decides from the exit code and the output. */
  function CloseOutcome(code: Option<int>, stdout: string, stderr: string,
                        parse: string -> Option<Json>): Outcome
  {
    if code != Some(0) then Rejected(NewError(ExitMessage(code, stdout, stderr)))
    else match parse(stdout)
      case Some(doc) => Resolved(doc)
      case None => Rejected(NewError("Invalid JSON response from Python"))
  }

  /** A promise settles once; later resolve/reject calls are ignored. */
  function Settle(s: State, o: Outcome): State {
    if s.settled.None? then s.(settled := Some(o)) else s
  }

  function Step(s: State, e: Event, timeout: nat, parse: string -> Option<Json>): State {
    match e
    case StdoutData(c) => s.(stdout := s.stdout + c)
    case StderrData(c) => s.(stderr := s.stderr + c)
    case Close(code) => Settle(s.(timerArmed := false), CloseOutcome(code, s.stdout, s.stderr, parse))
    case SpawnFailed(err) => Settle(s.(timerArmed := false), Rejected(err))
    case TimerFired =>
      if s.timerArmed
      then Settle(s.(timerArmed := false, killed := true), Rejected(NewError(TimeoutMessage(timeout))))
      else s
    case StdinFailed(err) => Settle(s.(timerArmed := false, killed := true), Rejected(err))
  }

  /** The state after the given callbacks, in order. */
  function Replay(events: seq<Event>, timeout: nat, parse: string -> Option<Json>): State
  {
    if events == [] then Initial
    else Step(Replay(events[..|events| - 1], timeout, parse), events[|events| - 1], timeout, parse)
  }

  /** The chunks of one stream, concatenated in arrival order. */
  function StdoutOf(events: seq<Event>): string {
    if events == [] then ""
    else
      var last := events[|events| - 1];
      StdoutOf(events[..|events| - 1]) + (if last.StdoutData? then last.chunk else "")
  }

  function StderrOf(events: seq<Event>): string {
    if events == [] then ""
    else
      var last := events[|events| - 1];
      StderrOf(events[..|events| - 1]) + (if last.StderrData? then last.chunk else "")
  }

  lemma ReplayAppend(events: seq<Event>, e: Event, timeout: nat, parse: string -> Option<Json>)
    ensures Replay(events + [e], timeout, parse) == Step(Replay(events, timeout, parse), e, timeout, parse)
  {
    assert (events + [e])[..|events|] == events;
  }

  /** The accumulators are exactly the in-order concatenation of their
      stream's chunks, whatever else happened in between. */
  lemma {:induction false} AccumulatorsAreConcatenations(events: seq<Event>, timeout: nat,
                                                         parse: string -> Option<Json>)
    ensures Replay(events, timeout, parse).stdout == StdoutOf(events)
    ensures Replay(events, timeout, parse).stderr == StderrOf(events)
  {
    if events != [] {
      AccumulatorsAreConcatenations(events[..|events| - 1], timeout, parse);
    }
  }

  /** The first settlement is final: no later callback changes it. */
  lemma {:induction false} FirstSettlementWins(before: seq<Event>, after: seq<Event>, timeout: nat,
                                               parse: string -> Option<Json>)
    requires Replay(before, timeout, parse).settled.Some?
    ensures Replay(before + after, timeout, parse).settled == Replay(before, timeout, parse).settled
    decreases |after|
  {
    if after != [] {
      var init := after[..|after| - 1];
      FirstSettlementWins(before, init, timeout, parse);
      assert before + after == (before + init) + [after[|after| - 1]];
      ReplayAppend(before + init, after[|after| - 1], timeout, parse);
    } else {
      assert before + after == before;
    }
  }

  /** While the promise is pending the timer is armed and the child alive. */
  lemma {:induction false} PendingMeansTimerArmed(events: seq<Event>, timeout: nat,
                                                  parse: string -> Option<Json>)
    requires Replay(events, timeout, parse).settled.None?
    ensures Replay(events, timeout, parse).timerArmed
    ensures !Replay(events, timeout, parse).killed
  {
    if events != [] {
      var init := events[..|events| - 1];
      if Replay(init, timeout, parse).settled.None? {
        PendingMeansTimerArmed(init, timeout, parse);
      }
    }
  }

  /** Timeout: if the promise is still pending when the timer fires, the child
      is killed and the promise rejects with the timeout message; so every
      call ends once the timer has had its turn. */
  lemma TimeoutKillsAndRejects(events: seq<Event>, timeout: nat, parse: string -> Option<Json>)
    requires Replay(events, timeout, parse).settled.None?
    ensures Replay(events + [TimerFired], timeout, parse).killed
    ensures Replay(events + [TimerFired], timeout, parse).settled ==
      Some(Rejected(NewError("Python process timeout after " + NatToString(timeout) + "ms")))
  {
    PendingMeansTimerArmed(events, timeout, parse);
    ReplayAppend(events, TimerFired, timeout, parse);
  }

  /** 'close' clears the timer: a timeout after it changes nothing. */
  lemma {:induction false} TimerFiringAfterCloseIsHarmless(events: seq<Event>, code: Option<int>, timeout: nat,
                                                           parse: string -> Option<Json>)
    ensures Replay(events + [Close(code), TimerFired], timeout, parse) ==
            Replay(events + [Close(code)], timeout, parse)
  {
    ReplayAppend(events, Close(code), timeout, parse);
    assert events + [Close(code), TimerFired] == (events + [Close(code)]) + [TimerFired];
    ReplayAppend(events + [Close(code)], TimerFired, timeout, parse);
  }

  /** How 'close' settles a pending call, in terms of the chunks received:
      a non-zero or null code rejects with stderr, else stdout, else the code;
      code 0 resolves with the parsed stdout or rejects as invalid JSON. */
  lemma CloseSettlesFromChunks(events: seq<Event>, code: Option<int>, timeout: nat,
                               parse: string -> Option<Json>)
    requires Replay(events, timeout, parse).settled.None?
    ensures var out, err := StdoutOf(events), StderrOf(events);
      Replay(events + [Close(code)], timeout, parse).settled == Some(
        if code != Some(0) then
          Rejected(NewError(
            if err != "" then err
            else if out != "" then out
            else "Python process exited with code " + CodeText(code)))
        else if parse(out).Some? then Resolved(parse(out).value)
        else Rejected(NewError("Invalid JSON response from Python")))
  {
    AccumulatorsAreConcatenations(events, timeout, parse);
    ReplayAppend(events, Close(code), timeout, parse);
  }

  /** The child is killed only by the timeout or by a failed write to stdin. */
  lemma {:induction false} KilledOnlyByTimeoutOrWrite(events: seq<Event>, timeout: nat,
                                                      parse: string -> Option<Json>)
    requires Replay(events, timeout, parse).killed
    ensures exists i :: 0 <= i < |events| && (events[i].TimerFired? || events[i].StdinFailed?)
  {
    var init := events[..|events| - 1];
    var last := events[|events| - 1];
    if last.TimerFired? || last.StdinFailed? {
      assert events[|events| - 1] == last;
    } else {
      KilledOnlyByTimeoutOrWrite(init, timeout, parse);
      var i :| 0 <= i < |init| && (init[i].TimerFired? || init[i].StdinFailed?);
      assert events[i] == init[i];
    }
  }

  /** The closure state of one `spawnPythonProcess` call. */
  class Launcher {
    const timeout: nat
    const parse: string -> Option<Json>
    var stdout: string
    var stderr: string
    var timerArmed: bool
    var killed: bool
    var settled: Option<Outcome>
    ghost var trace: seq<Event>

    function Snapshot(): State
      reads this
    {
      State(stdout, stderr, timerArmed, killed, settled)
    }

    ghost predicate Valid()
      reads this
    {
      Snapshot() == Replay(trace, timeout, parse)
    }

    /** Spawning: empty accumulators, the timer armed, nothing settled. */
    constructor(timeout: nat, parse: string -> Option<Json>)
      ensures Valid() && trace == []
      ensures this.timeout == timeout && this.parse == parse
      ensures stdout == "" && stderr == "" && timerArmed && !killed && settled == None
    {
      this.timeout := timeout;
      this.parse := parse;
      stdout, stderr := "", "";
      timerArmed, killed := true, false;
      settled := None;
      trace := [];
    }

    method SettleWith(o: Outcome)
      modifies this`settled
      ensures settled == if old(settled).None? then Some(o) else old(settled)
    {
      if settled == None {
        settled := Some(o);
      }
    }

    method OnStdout(chunk: string)
      requires Valid()
      modifies this
      ensures Valid() && trace == old(trace) + [StdoutData(chunk)]
      ensures stdout == old(stdout) + chunk
      ensures stderr == old(stderr) && timerArmed == old(timerArmed)
      ensures killed == old(killed) && settled == old(settled)
    {
      ReplayAppend(trace, StdoutData(chunk), timeout, parse);
      stdout := stdout + chunk;
      trace := trace + [StdoutData(chunk)];
    }

    method OnStderr(chunk: string)
      requires Valid()
      modifies this
      ensures Valid() && trace == old(trace) + [StderrData(chunk)]
      ensures stderr == old(stderr) + chunk
      ensures stdout == old(stdout) && timerArmed == old(timerArmed)
      ensures killed == old(killed) && settled == old(settled)
    {
      ReplayAppend(trace, StderrData(chunk), timeout, parse);
      stderr := stderr + chunk;
      trace := trace + [StderrData(chunk)];
    }

    method OnClose(code: Option<int>)
      requires Valid()
      modifies this
      ensures Valid() && trace == old(trace) + [Close(code)]
      ensures !timerArmed
      ensures settled == if old(settled).None?
                         then Some(CloseOutcome(code, stdout, stderr, parse)) else old(settled)
      ensures stdout == old(stdout) && stderr == old(stderr) && killed == old(killed)
    {
      ReplayAppend(trace, Close(code), timeout, parse);
      trace := trace + [Close(code)];
      timerArmed := false;
      if code != Some(0) {
        var message := if stderr != "" then stderr
                       else if stdout != "" then stdout
                       else "Python process exited with code " + CodeText(code);
        SettleWith(Rejected(NewError(message)));
        return;
      }
      match parse(stdout)
      case Some(doc) => SettleWith(Resolved(doc));
      case None => SettleWith(Rejected(NewError("Invalid JSON response from Python")));
    }

    method OnSpawnError(err: Error)
      requires Valid()
      modifies this
      ensures Valid() && trace == old(trace) + [SpawnFailed(err)]
      ensures !timerArmed
      ensures settled == if old(settled).None? then Some(Rejected(err)) else old(settled)
      ensures stdout == old(stdout) && stderr == old(stderr) && killed == old(killed)
    {
      ReplayAppend(trace, SpawnFailed(err), timeout, parse);
      trace := trace + [SpawnFailed(err)];
      timerArmed := false;
      SettleWith(Rejected(err));
    }

    /** The timeout callback; a cleared timer never fires, so it is a no-op then. */
    method OnTimer()
      requires Valid()
      modifies this
      ensures Valid() && trace == old(trace) + [TimerFired]
      ensures !timerArmed
      ensures killed == (old(killed) || old(timerArmed))
      ensures settled == if old(timerArmed) && old(settled).None?
                         then Some(Rejected(NewError(TimeoutMessage(timeout)))) else old(settled)
      ensures stdout == old(stdout) && stderr == old(stderr)
    {
      ReplayAppend(trace, TimerFired, timeout, parse);
      trace := trace + [TimerFired];
      if timerArmed {
        timerArmed := false;
        killed := true;
        SettleWith(Rejected(NewError(TimeoutMessage(timeout))));
      }
    }

    method OnStdinFailure(err: Error)
      requires Valid()
      modifies this
      ensures Valid() && trace == old(trace) + [StdinFailed(err)]
      ensures !timerArmed && killed
      ensures settled == if old(settled).None? then Some(Rejected(err)) else old(settled)
      ensures stdout == old(stdout) && stderr == old(stderr)
    {
      ReplayAppend(trace, StdinFailed(err), timeout, parse);
      ghost var next := Step(Snapshot(), StdinFailed(err), timeout, parse);
      trace := trace + [StdinFailed(err)];
      timerArmed := false;
      killed := true;
      SettleWith(Rejected(err));
      assert Snapshot() == next;
    }

    method Deliver(e: Event)
      requires Valid()
      modifies this
      ensures Valid() && trace == old(trace) + [e]
    {
      match e
      case StdoutData(c) => OnStdout(c);
      case StderrData(c) => OnStderr(c);
      case Close(code) => OnClose(code);
      case SpawnFailed(err) => OnSpawnError(err);
      case TimerFired => OnTimer();
      case StdinFailed(err) => OnStdinFailure(err);
    }
  }

  /** Where the service looks for scripts, its interpreter and its timeout. */
  datatype Config = Config(pythonPath: string, indicatorsDir: string, timeout: nat)

  /** The program and arguments handed to `spawn`, and the request document
      written to the child's stdin. */
  datatype Command = Command(program: string, args: seq<string>, input: Json)

  /** `getScriptPath`: `<indicatorsDir>/standard/<name>.py`, for any name.
      `path.join` also normalises separators and `..` segments; the model
      joins the texts as they are. */
  function ScriptPath(indicatorsDir: string, name: string): string {
    indicatorsDir + "/standard/" + name + ".py"
  }

  /** What `execute` catches: an Error object or some other thrown value. */
  datatype Thrown = ThrownError(err: Error) | ThrownValue

  /** A failure document of the gateway: `success` false and an error of the
      given type and message. */
  predicate IsFailure(doc: Json, errorType: string, message: string) {
    Get(doc, "success") == Some(JBool(false)) &&
    match Get(doc, "error")
    case Some(e) => Get(e, "type") == Some(JStr(errorType)) && Get(e, "message") == Some(JStr(message))
    case None => false
  }

  /** `createErrorResponse`: an ExecutionError carrying the message and, for
      an Error, its stack as details. */
  function CreateErrorResponse(thrown: Thrown): (r: Json)
    ensures IsFailure(r, "ExecutionError", if thrown.ThrownError? then thrown.err.message else "Unknown error")
    ensures Get(r, "error").Some? && Get(Get(r, "error").value, "details") ==
            (if thrown.ThrownError? then Some(JStr(thrown.err.stack)) else None)
  {
    var message := if thrown.ThrownError? then thrown.err.message else "Unknown error";
    var base := [("type", JStr("ExecutionError")), ("message", JStr(message))];
    var error := if thrown.ThrownError? then base + [("details", JStr(thrown.err.stack))] else base;
    var r := JObj([("success", JBool(false)), ("error", JObj(error))]);
    LookupFirst(r.fields, "success", 0);
    LookupFirst(r.fields, "error", 1);
    LookupFirst(error, "type", 0);
    LookupFirst(error, "message", 1);
    assert thrown.ThrownError? ==> Lookup(error, "details") == Some(JStr(thrown.err.stack)) by {
      if thrown.ThrownError? {
        LookupFirst(error, "details", 2);
      }
    }
    r
  }

  /** A `TypeError` as V8 raises it; its stack starts with "TypeError: ". */
  function TypeError(message: string): Error {
    Error(message, "TypeError: " + message)
  }

  /** V8's message for reading `property` of null or undefined. */
  function ReadOfNothing(holder: string, property: string): string {
    "Cannot read properties of " + holder + " (reading '" + property + "')"
  }

  /** What `result.success` throws, inside the `try`, when the script
      printed `null`. */
  const NullResultMessage := ReadOfNothing("null", "success")

  /** The value `execute` returns once the launcher has settled (None while
      it is still pending).  A launched document comes back unchanged,
      except `null`: its completion log line reads `result.success`, which
      throws inside the `try`.  Both that throw and a launcher failure become
      an ExecutionError response. */
  function ExecuteResult(settled: Option<Outcome>): Option<Json> {
    match settled
    case None => None
    case Some(Resolved(doc)) =>
      if doc == JNull then Some(CreateErrorResponse(ThrownError(TypeError(NullResultMessage))))
      else Some(doc)
    case Some(Rejected(err)) => Some(CreateErrorResponse(ThrownError(err)))
  }

  /** Once the child is launched, `execute` never rejects.  Every settled call
      yields a document: the script's own when it is not `null`, otherwise an
      ExecutionError, carrying the launcher's message or the TypeError's. */
  lemma ExecuteNeverRejects(o: Outcome)
    ensures ExecuteResult(Some(o)).Some?
    ensures o.Resolved? && o.doc != JNull ==> ExecuteResult(Some(o)) == Some(o.doc)
    ensures o == Resolved(JNull) ==> IsFailure(ExecuteResult(Some(o)).value, "ExecutionError", NullResultMessage)
    ensures o.Rejected? ==> IsFailure(ExecuteResult(Some(o)).value, "ExecutionError", o.err.message)
  {
  }

  /** `request.candleData.length`, evaluated for the first log line before
      the `try`.  It throws when the request is null, or when `candleData` is
      missing or null.  Any other value has a `length` or reads as undefined
      without throwing. */
  function CandleCountFailure(request: Json): Option<Error> {
    if request == JNull then Some(TypeError(ReadOfNothing("null", "candleData")))
    else
      match Get(request, "candleData")
      case None => Some(TypeError(ReadOfNothing("undefined", "length")))
      case Some(JNull) => Some(TypeError(ReadOfNothing("null", "length")))
      case Some(_) => None
  }

  /** `execute(name, request)`.  A request without usable `candleData` makes
      the first log line throw outside the `try`, so the call rejects with
      that TypeError and nothing is spawned.  Otherwise it spawns
      `<python> <indicatorsDir>/standard/<name>.py` with the request on stdin
      (no check that the script exists), feeds the child's callbacks to the
      launcher, and returns what the launcher settles to. */
  method Execute(config: Config, parse: string -> Option<Json>, name: string, request: Json,
                 events: seq<Event>)
    returns (spawned: Option<Command>, response: Result<Option<Json>, Error>)
    ensures spawned.None? <==>
      request == JNull || Get(request, "candleData") == None || Get(request, "candleData") == Some(JNull)
    ensures spawned.None? ==> response.Err? && CandleCountFailure(request) == Some(response.error)
    ensures spawned.Some? ==>
      spawned.value == Command(config.pythonPath, [ScriptPath(config.indicatorsDir, name)], request) &&
      response == Ok(ExecuteResult(Replay(events, config.timeout, parse).settled))
  {
    var failure := CandleCountFailure(request);
    if failure.Some? {
      return None, Err(failure.value);
    }
    spawned := Some(Command(config.pythonPath, [ScriptPath(config.indicatorsDir, name)], request));
    var launcher := new Launcher(config.timeout, parse);
    var i := 0;
    while i < |events|
      invariant 0 <= i <= |events|
      invariant launcher.Valid() && launcher.trace == events[..i]
      invariant launcher.timeout == config.timeout && launcher.parse == parse
    {
      launcher.Deliver(events[i]);
      assert events[..i + 1] == events[..i] + [events[i]];
      i := i + 1;
    }
    assert events[..i] == events;
    response := Ok(ExecuteResult(launcher.settled));
  }

  /** An unknown name still spawns; the interpreter's complaint on stderr and
      its non-zero exit come back as an ExecutionError, not a not-found error. */
  lemma UnknownScriptIsExecutionError(timeout: nat, parse: string -> Option<Json>,
                                      complaint: string, code: int)
    requires complaint != "" && code != 0
    ensures var r := ExecuteResult(Replay([StderrData(complaint), Close(Some(code))], timeout, parse).settled);
      r.Some? && IsFailure(r.value, "ExecutionError", complaint)
  {
    ReplayAppend([], StderrData(complaint), timeout, parse);
    assert [] + [StderrData(complaint)] == [StderrData(complaint)];
    assert [StderrData(complaint)] + [Close(Some(code))] == [StderrData(complaint), Close(Some(code))];
    ReplayAppend([StderrData(complaint)], Close(Some(code)), timeout, parse);
    var o := Rejected(NewError(complaint));
    assert Replay([StderrData(complaint)], timeout, parse) == Initial.(stderr := complaint);
    assert CloseOutcome(Some(code), "", complaint, parse) == o;
    assert Replay([StderrData(complaint), Close(Some(code))], timeout, parse).settled == Some(o);
    ExecuteNeverRejects(o);
  }

  // ---------------------------------------------------------------------
  // Metadata registry

  predicate IsScriptFile(file: string) {
    EndsWith(file, ".py") && file != "__init__.py"
  }

  /** `files.filter(...).map(file => file.replace('.py', ''))`. */
  function ScriptNames(files: seq<string>): seq<string> {
    if files == [] then []
    else
      var head := if IsScriptFile(files[0]) then [ReplaceFirst(files[0], ".py", "")] else [];
      head + ScriptNames(files[1..])
  }

  /** `listIndicators`: the names of the scripts, in directory order; a
      failed directory read yields the empty list, not an error. */
  function ListIndicators(listing: Result<seq<string>, Error>): seq<string> {
    match listing
    case Err(_) => []
    case Ok(files) => ScriptNames(files)
  }

  /** A name is listed iff some `.py` file other than `__init__.py` strips to it. */
  lemma {:induction false} ListedNames(files: seq<string>, name: string)
    ensures name in ScriptNames(files) <==>
      exists f :: f in files && IsScriptFile(f) && ReplaceFirst(f, ".py", "") == name
  {
    if files != [] {
      ListedNames(files[1..], name);
      assert forall f :: f in files <==> f == files[0] || f in files[1..];
    }
  }

  /** At most one name per file; a failed listing lists nothing. */
  lemma {:induction false} ListingBounds(listing: Result<seq<string>, Error>)
    ensures listing.Err? ==> ListIndicators(listing) == []
    ensures listing.Ok? ==> |ListIndicators(listing)| <= |listing.value|
  {
    if listing.Ok? {
      ScriptNamesLength(listing.value);
    }
  }

  lemma {:induction false} ScriptNamesLength(files: seq<string>)
    ensures |ScriptNames(files)| <= |files|
  {
    if files != [] {
      ScriptNamesLength(files[1..]);
    }
  }

  /** A listed script resolves back to its own file. */
  lemma ListedNameResolvesToItsFile(indicatorsDir: string, name: string)
    requires name + ".py" != "__init__.py"
    requires forall j :: !OccursAt(name, ".py", j)
    ensures ScriptNames([name + ".py"]) == [name]
    ensures ScriptPath(indicatorsDir, name) == indicatorsDir + "/standard/" + (name + ".py")
  {
    StripPyExtension(name);
    assert EndsWith(name + ".py", ".py") by {
      assert (name + ".py")[|name|..] == ".py";
    }
  }

  /** The describe request `getIndicatorMetadata` sends. */
  function DescribeRequest(name: string): (r: Json)
    ensures Get(r, "_mode") == Some(JStr("metadata"))
    ensures Get(r, "name") == Some(JStr(name))
  {
    var fields := [("name", JStr(name)), ("candleData", JArr([])), ("params", JObj([])),
                   ("metadata", JObj([])), ("_mode", JStr("metadata"))];
    LookupFirst(fields, "name", 0);
    LookupFirst(fields, "_mode", 4);
    JObj(fields)
  }

  /** `r !== null && r.success` for a describe result; a rejected describe
      was turned into null by its `.catch`. */
  predicate Described(o: Outcome) {
    o.Resolved? && o.doc != JNull && JsTruthy(Get(o.doc, "success"))
  }

  function KeepSuccesses(outcomes: seq<Outcome>): seq<Json> {
    if outcomes == [] then []
    else
      var head := if Described(outcomes[0]) then [outcomes[0].doc] else [];
      head + KeepSuccesses(outcomes[1..])
  }

  /** `getIndicatorsMetadata`: describe every listed name and keep the
      successes, in listing order; `describe` gives each call's outcome. */
  function GetIndicatorsMetadata(listing: Result<seq<string>, Error>, describe: string -> Outcome): seq<Json> {
    var names := ListIndicators(listing);
    KeepSuccesses(seq(|names|, i requires 0 <= i < |names| => describe(names[i])))
  }

  lemma {:induction false} KeepSuccessesAppend(a: seq<Outcome>, b: seq<Outcome>)
    ensures KeepSuccesses(a + b) == KeepSuccesses(a) + KeepSuccesses(b)
  {
    if a != [] {
      KeepSuccessesAppend(a[1..], b);
      assert (a + b)[0] == a[0];
      assert (a + b)[1..] == a[1..] + b;
    } else {
      assert a + b == b;
    }
  }

  /** A document is kept iff some describe call resolved to it with a truthy
      `success`. */
  lemma {:induction false} KeptExactlyTheSuccesses(outcomes: seq<Outcome>, doc: Json)
    ensures doc in KeepSuccesses(outcomes) <==>
      exists i :: 0 <= i < |outcomes| && Described(outcomes[i]) && outcomes[i].doc == doc
  {
    if outcomes != [] {
      KeptExactlyTheSuccesses(outcomes[1..], doc);
      if exists i :: 0 <= i < |outcomes| && Described(outcomes[i]) && outcomes[i].doc == doc {
        var i :| 0 <= i < |outcomes| && Described(outcomes[i]) && outcomes[i].doc == doc;
        if i > 0 {
          assert outcomes[1..][i - 1] == outcomes[i];
        }
      }
      if exists i :: 0 <= i < |outcomes[1..]| && Described(outcomes[1..][i]) && outcomes[1..][i].doc == doc {
        var i :| 0 <= i < |outcomes[1..]| && Described(outcomes[1..][i]) && outcomes[1..][i].doc == doc;
        assert outcomes[i + 1] == outcomes[1..][i];
      }
    }
  }

  /** One broken script is dropped without disturbing the rest of the batch. */
  lemma BrokenScriptIsDropped(before: seq<Outcome>, broken: Outcome, after: seq<Outcome>)
    requires !Described(broken)
    ensures KeepSuccesses(before + [broken] + after) == KeepSuccesses(before) + KeepSuccesses(after)
  {
    KeepSuccessesAppend(before + [broken], after);
    KeepSuccessesAppend(before, [broken]);
  }
}
