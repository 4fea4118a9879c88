/** The request-logging middleware of src/middleware/logger.ts: it notes
    the start time, hands the request on at once, and logs one line when
    the response finishes, at a level chosen by the status.  The clock is a
    parameter. */
module RequestLogger {
  import opened Strings

  datatype Level = Info | Warn | Error

  /** 500 and above at error, 400 to 499 at warn, the rest at info. */
  function LevelOf(status: int): Level {
    if status >= 500 then Error else if status >= 400 then Warn else Info
  }

  function Severity(level: Level): nat {
    match level
    case Info => 0
    case Warn => 1
    case Error => 2
  }

  /** Each level is exactly its band of statuses. */
  lemma LevelBands(status: int)
    ensures LevelOf(status) == Error <==> status >= 500
    ensures LevelOf(status) == Warn <==> 400 <= status < 500
    ensures LevelOf(status) == Info <==> status < 400
  {
  }

  /** A worse status is never logged at a milder level. */
  lemma LevelMonotone(s1: int, s2: int)
    requires s1 <= s2
    ensures Severity(LevelOf(s1)) <= Severity(LevelOf(s2))
  {
  }

  /** `<METHOD> <url> <status> - <duration>ms`. */
  function LogMessage(httpMethod: string, url: string, status: int, duration: int): string {
    httpMethod + " " + url + " " + IntToString(status) + " - " + IntToString(duration) + "ms"
  }

  datatype Line = Line(level: Level, message: string)

  /** What `requestLogger` leaves behind for one request: it calls `next`
      at once, and registers a `finish` listener that, given the clock at
      the end and the status sent, yields the line it logs. */
  datatype Registered = Registered(callsNext: bool, onFinish: (int, int) -> Line)

  /** `requestLogger` for a request with the given method and original URL,
      entered when the clock read `startTime`. */
  function RequestLogger(httpMethod: string, url: string, startTime: int): (r: Registered)
    ensures r.callsNext
  {
    Registered(true, (finishTime: int, status: int) =>
      Line(LevelOf(status), LogMessage(httpMethod, url, status, finishTime - startTime)))
  }

  /** The line logged at the end: at the status's level, timed from entry. */
  lemma FinishLine(httpMethod: string, url: string, startTime: int, duration: int, status: int)
    ensures RequestLogger(httpMethod, url, startTime).onFinish(startTime + duration, status) ==
            Line(LevelOf(status), LogMessage(httpMethod, url, status, duration))
  {
  }

  /** Every message opens with the method and the URL, each followed by a
      space. */
  lemma MessageNamesRoute(httpMethod: string, url: string, status: int, duration: int)
    ensures StartsWith(LogMessage(httpMethod, url, status, duration), httpMethod + " " + url + " ")
  {
    var p := httpMethod + " " + url + " ";
    MessageShape(httpMethod, url, status, duration);
    assert (p + (IntToString(status) + (" - " + IntToString(duration) + "ms")))[..|p|] == p;
  }

  /** In a word without spaces followed by text opening with a space, the
      first space is right after the word. */
  lemma FirstSpace(w: string, r: string)
    requires ' ' !in w && r != [] && r[0] == ' '
    ensures (w + r)[|w|] == ' '
    ensures forall k :: 0 <= k < |w| ==> (w + r)[k] != ' '
  {
    forall k | 0 <= k < |w|
      ensures (w + r)[k] != ' '
    {
      assert (w + r)[k] == w[k];
    }
  }

  /** Two words without spaces, each followed by text opening with a space,
      can only be equal when the words are. */
  lemma WordBeforeSpace(w1: string, r1: string, w2: string, r2: string)
    requires w1 + r1 == w2 + r2
    requires ' ' !in w1 && ' ' !in w2 && r1 != [] && r2 != [] && r1[0] == ' ' && r2[0] == ' '
    ensures w1 == w2
  {
    FirstSpace(w1, r1);
    FirstSpace(w2, r2);
    var m := w1 + r1;
    assert m[|w1|] == ' ' && m[|w2|] == ' ';
    assert |w1| >= |w2|;
    assert |w2| >= |w1|;
    assert w1 == m[..|w1|];
    assert w2 == (w2 + r2)[..|w2|];
  }

  /** The message split after the route: the status and the rest. */
  lemma MessageShape(httpMethod: string, url: string, status: int, duration: int)
    ensures LogMessage(httpMethod, url, status, duration) ==
            (httpMethod + " " + url + " ") + (IntToString(status) + (" - " + IntToString(duration) + "ms"))
  {
  }

  lemma PrefixCancel(p: string, x: string, y: string)
    requires p + x == p + y
    ensures x == y
  {
    assert x == (p + x)[|p|..];
    assert y == (p + y)[|p|..];
  }

  lemma NoSpaceRendered(i: int)
    ensures ' ' !in IntToString(i)
  {
    forall k | 0 <= k < |IntToString(i)|
      ensures IntToString(i)[k] != ' '
    {
      IntToStringNoSpace(i, k);
    }
  }

  /** For a given route and duration the message tells the statuses apart:
      equal lines mean equal statuses. */
  lemma MessageNamesStatus(httpMethod: string, url: string, s1: int, s2: int, duration: int)
    requires LogMessage(httpMethod, url, s1, duration) == LogMessage(httpMethod, url, s2, duration)
    ensures s1 == s2
  {
    var r := " - " + IntToString(duration) + "ms";
    MessageShape(httpMethod, url, s1, duration);
    MessageShape(httpMethod, url, s2, duration);
    PrefixCancel(httpMethod + " " + url + " ", IntToString(s1) + r, IntToString(s2) + r);
    NoSpaceRendered(s1);
    NoSpaceRendered(s2);
    WordBeforeSpace(IntToString(s1), r, IntToString(s2), r);
    IntToStringInjective(s1, s2);
  }
}
