/** The pure parts of src/services/vision.service.ts: the API-key guard, the
    two chat-completion calls and their empty-reply check, the conversation
    history section of the ask prompt, the two indicator summaries of the
    quick-analysis prompt, and the parsing of the quick-analysis reply.  The
    OpenAI client, `JSON.parse` and `Number.prototype.toFixed` are parameters. */
module VisionService {
  import opened Wrappers
  import opened Strings
  import opened Json

  // ----- Service construction and the two calls -----

  /** A constructed service; it holds the key its client was made with. */
  datatype Service = Service(apiKey: string)

  const MissingKey := "OPENAI_API_KEY is not set in environment variables"

  /** The constructor: an unset or empty key throws. */
  function NewService(apiKey: Option<string>): (r: Result<Service, string>)
    ensures r.Ok? <==> apiKey.Some? && apiKey.value != ""
    ensures r.Ok? ==> r.value.apiKey == apiKey.value
    ensures r.Err? ==> r.error == MissingKey
  {
    if apiKey.None? || apiKey.value == "" then Err(MissingKey) else Ok(Service(apiKey.value))
  }

  const Model := "gpt-4o"
  const MaxTokens := 2000

  /** One chat completion request: a text part and an image part. */
  datatype VisionCall = VisionCall(model: string, maxTokens: int, prompt: string, imageUrl: string)

  /** What the client gives back for a call: the first choice's content,
      possibly missing, or the error it throws. */
  type Client = VisionCall -> Result<Option<string>, string>

  const JpegPrefix := "data:image/jpeg;base64,"
  const PngPrefix := "data:image/png;base64,"

  /** The quick-analysis call sends the chart as a JPEG data URL. */
  function QuickCall(prompt: string, imageBase64: string): VisionCall {
    VisionCall(Model, MaxTokens, prompt, JpegPrefix + imageBase64)
  }

  /** The ask call sends the chart as a PNG data URL. */
  function AskCall(prompt: string, imageBase64: string): VisionCall {
    VisionCall(Model, MaxTokens, prompt, PngPrefix + imageBase64)
  }

  /** Both calls use the same model and token budget and carry the image
      unchanged after their media-type prefix; they differ in that type. */
  lemma CallsCarryTheImage(prompt: string, imageBase64: string)
    ensures QuickCall(prompt, imageBase64).model == "gpt-4o" && QuickCall(prompt, imageBase64).maxTokens == 2000
    ensures AskCall(prompt, imageBase64).model == "gpt-4o" && AskCall(prompt, imageBase64).maxTokens == 2000
    ensures StartsWith(QuickCall(prompt, imageBase64).imageUrl, "data:image/jpeg;base64,")
    ensures StartsWith(AskCall(prompt, imageBase64).imageUrl, "data:image/png;base64,")
    ensures QuickCall(prompt, imageBase64).imageUrl[23..] == imageBase64
    ensures AskCall(prompt, imageBase64).imageUrl[22..] == imageBase64
    ensures QuickCall(prompt, imageBase64) != AskCall(prompt, imageBase64)
  {
    assert QuickCall(prompt, imageBase64).imageUrl[11] == 'j';
    assert AskCall(prompt, imageBase64).imageUrl[11] == 'p';
  }

  const NoResponse := "No response from GPT-4 Vision"

  /** The content of a reply, which must be a non-empty string; a client
      error is thrown on unchanged. */
  function Content(reply: Result<Option<string>, string>): Result<string, string> {
    match reply
    case Err(e) => Err(e)
    case Ok(None) => Err(NoResponse)
    case Ok(Some(c)) => if c == "" then Err(NoResponse) else Ok(c)
  }

  /** `quickAnalysis`: the JPEG call, the empty-reply check, then parsing. */
  function QuickAnalysis(prompt: string, imageBase64: string, client: Client, parse: string -> Option<Json>): Result<Json, string> {
    match Content(client(QuickCall(prompt, imageBase64)))
    case Err(e) => Err(e)
    case Ok(c) => ParseQuickAnalysisResponse(c, parse)
  }

  /** `askAI`: the PNG call and the empty-reply check; the answer is the
      content itself. */
  function AskAI(prompt: string, imageBase64: string, client: Client): Result<string, string> {
    Content(client(AskCall(prompt, imageBase64)))
  }

  /** A missing or empty reply is an error in both calls, and a client error
      reaches the caller unchanged. */
  lemma EmptyRepliesRejected(prompt: string, imageBase64: string, client: Client, parse: string -> Option<Json>)
    ensures client(QuickCall(prompt, imageBase64)) in {Ok(None), Ok(Some(""))} ==>
            QuickAnalysis(prompt, imageBase64, client, parse) == Err("No response from GPT-4 Vision")
    ensures client(AskCall(prompt, imageBase64)) in {Ok(None), Ok(Some(""))} ==>
            AskAI(prompt, imageBase64, client) == Err("No response from GPT-4 Vision")
    ensures client(QuickCall(prompt, imageBase64)).Err? ==>
            QuickAnalysis(prompt, imageBase64, client, parse) == Err(client(QuickCall(prompt, imageBase64)).error)
    ensures client(AskCall(prompt, imageBase64)).Err? ==>
            AskAI(prompt, imageBase64, client) == Err(client(AskCall(prompt, imageBase64)).error)
  {
  }

  /** A non-empty answer is returned exactly as the model gave it. */
  lemma AnswerPassedThrough(prompt: string, imageBase64: string, client: Client, answer: string)
    requires answer != "" && client(AskCall(prompt, imageBase64)) == Ok(Some(answer))
    ensures AskAI(prompt, imageBase64, client) == Ok(answer)
  {
  }

  // ----- Conversation history in the ask prompt -----

  datatype Message = Message(question: string, answer: string)

  const HistoryHeader := "\n【これまでの会話】\n"

  /** The block for the message at zero-based position k: numbered k + 1. */
  function HistoryEntry(k: nat, m: Message): string {
    "Q" + NatToString(k + 1) + ": " + m.question + "\nA" + NatToString(k + 1) + ": " + m.answer + "\n\n"
  }

  /** The numbered blocks of the messages, in order. */
  function HistoryEntries(h: seq<Message>): string {
    if h == [] then "" else HistoryEntries(h[..|h| - 1]) + HistoryEntry(|h| - 1, h[|h| - 1])
  }

  /** The history section: empty without history, else the header and one
      numbered block per message. */
  function HistoryText(history: Option<seq<Message>>): string {
    if history.None? || history.value == [] then "" else HistoryHeader + HistoryEntries(history.value)
  }

  /** The section is empty exactly when there is no history. */
  lemma HistoryEmptyIffNoMessages(history: Option<seq<Message>>)
    ensures HistoryText(history) == "" <==> history.None? || history.value == []
  {
    if !(history.None? || history.value == []) {
      assert HistoryText(history)[..|HistoryHeader|] == HistoryHeader;
    }
  }

  /** Appending a message appends one block, numbered one past the old count,
      and leaves the earlier section as it was. */
  lemma HistoryGrows(h: seq<Message>, m: Message)
    ensures HistoryText(Some(h + [m])) ==
            (if h == [] then HistoryHeader else HistoryText(Some(h))) + HistoryEntry(|h|, m)
  {
    var e := HistoryEntry(|h|, m);
    EntriesAppend(h, m);
    assert HistoryText(Some(h + [m])) == HistoryHeader + (HistoryEntries(h) + e);
    if h == [] {
      assert HistoryEntries(h) + e == e;
    } else {
      assert HistoryText(Some(h)) == HistoryHeader + HistoryEntries(h);
      SeqAssoc(HistoryHeader, HistoryEntries(h), e);
    }
  }

  lemma SeqAssoc(a: string, b: string, c: string)
    ensures a + (b + c) == (a + b) + c
  {
  }

  lemma EntriesAppend(h: seq<Message>, m: Message)
    ensures HistoryEntries(h + [m]) == HistoryEntries(h) + HistoryEntry(|h|, m)
  {
    assert (h + [m])[..|h|] == h;
  }

  lemma HistoryStep(h: seq<Message>, i: nat)
    requires i < |h|
    ensures HistoryEntries(h[..i + 1]) == HistoryEntries(h[..i]) + HistoryEntry(i, h[i])
  {
    assert h[..i + 1][..i] == h[..i];
  }

  /** The `forEach` that builds the section. */
  method HistorySection(history: Option<seq<Message>>) returns (section: string)
    ensures section == HistoryText(history)
  {
    section := "";
    if history.Some? && |history.value| > 0 {
      var h := history.value;
      section := HistoryHeader;
      var i := 0;
      while i < |h|
        invariant 0 <= i <= |h|
        invariant section == HistoryHeader + HistoryEntries(h[..i])
      {
        HistoryStep(h, i);
        section := section + HistoryEntry(i, h[i]);
        i := i + 1;
      }
      assert h[..|h|] == h;
    }
  }

  // ----- Indicator summaries in the quick-analysis prompt -----

  /** `toFixed(digits)` on a number. */
  type Fixed = (real, nat) -> string

  /** A number field of a JSON document: missing (undefined), `null`, or a
      number.  `x?.toFixed(d)` treats the first two alike; `x !== undefined`
      does not. */
  datatype Num = Undefined | Null | Number(x: real)

  /** The number under optional chaining: undefined and null are both absent. */
  function Chained(n: Num): Option<real> {
    if n.Number? then Some(n.x) else None
  }

  /** What `null.toFixed(...)` throws; `quickAnalysis` rethrows it. */
  const NullToFixed := "Cannot read properties of null (reading 'toFixed')"

  /** One entry of `displayedIndicators`; each field may be absent. */
  datatype Shown = Shown(
    value: Num, values: Option<seq<real>>,
    upper: Option<real>, middle: Option<real>, lower: Option<real>,
    macd: Option<real>, signal: Option<real>, histogram: Option<real>)

  /** `x?.toFixed(d) || 'N/A'`. */
  function OrNA(x: Option<real>, digits: nat, fixed: Fixed): string {
    if x.Some? && fixed(x.value, digits) != "" then fixed(x.value, digits) else "N/A"
  }

  /** The names a line is written for. */
  predicate KnownFamily(name: string) {
    StartsWith(name, "RSI") || StartsWith(name, "MACD") || StartsWith(name, "Bollinger")
    || StartsWith(name, "SMA") || StartsWith(name, "EMA")
  }

  /** An SMA or EMA entry whose `value` is null passes the `!== undefined`
      test and then throws on `toFixed`. */
  predicate Throws(name: string, d: Shown) {
    !StartsWith(name, "RSI") && !StartsWith(name, "MACD") && !StartsWith(name, "Bollinger") &&
    (StartsWith(name, "SMA") || StartsWith(name, "EMA")) && d.value.Null?
  }

  /** The line for one named entry that does not throw, chosen by the name's
      prefix; a name of no known family, or an SMA/EMA entry with no value,
      gives none. */
  function ShownLine(name: string, d: Shown, fixed: Fixed): Option<string> {
    if StartsWith(name, "RSI") then
      Some(name + ": " + OrNA(Chained(d.value), 2, fixed))
    else if StartsWith(name, "MACD") then
      Some(name + ": MACD=" + OrNA(d.macd, 4, fixed) + ", Signal=" + OrNA(d.signal, 4, fixed)
           + ", Histogram=" + OrNA(d.histogram, 4, fixed))
    else if StartsWith(name, "Bollinger") then
      Some(name + ": Upper=" + OrNA(d.upper, 2, fixed) + ", Middle=" + OrNA(d.middle, 2, fixed)
           + ", Lower=" + OrNA(d.lower, 2, fixed))
    else if StartsWith(name, "SMA") || StartsWith(name, "EMA") then
      if d.value.Number? then Some(name + ": " + fixed(d.value.x, 2))
      else if d.value.Undefined? && d.values.Some? && |d.values.value| > 0 then
        Some(name + ": " + fixed(d.values.value[|d.values.value| - 1], 2))
      else None
    else None
  }

  /** The lines of the entries in order, skipping those that give none. */
  function ShownLines(entries: seq<(string, Shown)>, fixed: Fixed): seq<string> {
    if entries == [] then []
    else
      var last := entries[|entries| - 1];
      var front := ShownLines(entries[..|entries| - 1], fixed);
      match ShownLine(last.0, last.1, fixed)
      case Some(line) => front + [line]
      case None => front
  }

  const NoShownIndicators := "（表示中のインジケーターなし）"

  /** The text of the section, or the TypeError when some entry throws. */
  function ShownText(entries: seq<(string, Shown)>, fixed: Fixed): Result<string, string> {
    if exists i :: 0 <= i < |entries| && Throws(entries[i].0, entries[i].1) then Err(NullToFixed)
    else
      var lines := ShownLines(entries, fixed);
      Ok(if |lines| > 0 then Join(lines, "\n") else NoShownIndicators)
  }

  /** `formatDisplayedIndicators`: the loop over the entries pushing lines,
      which stops with the TypeError at the first entry that throws. */
  method FormatDisplayedIndicators(entries: seq<(string, Shown)>, fixed: Fixed) returns (text: Result<string, string>)
    ensures text == ShownText(entries, fixed)
  {
    var lines: seq<string> := [];
    var i := 0;
    while i < |entries|
      invariant 0 <= i <= |entries|
      invariant lines == ShownLines(entries[..i], fixed)
      invariant forall j :: 0 <= j < i ==> !Throws(entries[j].0, entries[j].1)
    {
      var (name, d) := entries[i];
      if Throws(name, d) {
        return Err(NullToFixed);
      }
      assert entries[..i + 1][..i] == entries[..i];
      var line := ShownLine(name, d, fixed);
      if line.Some? {
        lines := lines + [line.value];
      }
      i := i + 1;
    }
    assert entries[..|entries|] == entries;
    text := Ok(if |lines| > 0 then Join(lines, "\n") else NoShownIndicators);
  }

  /** A line is listed exactly when some entry gives it. */
  lemma {:induction false} ShownLinesExact(entries: seq<(string, Shown)>, fixed: Fixed, line: string)
    ensures line in ShownLines(entries, fixed) <==>
            exists i :: 0 <= i < |entries| && ShownLine(entries[i].0, entries[i].1, fixed) == Some(line)
  {
    if entries != [] {
      var n := |entries| - 1;
      var front := entries[..n];
      ShownLinesExact(front, fixed, line);
      if line in ShownLines(entries, fixed) {
        if line in ShownLines(front, fixed) {
          var i :| 0 <= i < |front| && ShownLine(front[i].0, front[i].1, fixed) == Some(line);
          assert entries[i] == front[i];
        } else {
          assert ShownLine(entries[n].0, entries[n].1, fixed) == Some(line);
        }
      } else {
        forall i | 0 <= i < |entries|
          ensures ShownLine(entries[i].0, entries[i].1, fixed) != Some(line)
        {
          if i < n {
            assert entries[i] == front[i];
          }
        }
      }
    }
  }

  /** The families and their precedence: names outside RSI, MACD,
      Bollinger, SMA and EMA are ignored; an SMA or EMA entry prefers its
      single value to the last of its series, and throws when that value
      is null. */
  lemma ShownLineRules(name: string, d: Shown, fixed: Fixed)
    ensures !KnownFamily(name) ==> ShownLine(name, d, fixed).None? && !Throws(name, d)
    ensures StartsWith(name, "RSI") && !d.value.Number? ==>
            ShownLine(name, d, fixed) == Some(name + ": " + "N/A") && !Throws(name, d)
    ensures (StartsWith(name, "SMA") || StartsWith(name, "EMA")) && d.value.Number? ==>
            ShownLine(name, d, fixed) == Some(name + ": " + fixed(d.value.x, 2))
    ensures (StartsWith(name, "SMA") || StartsWith(name, "EMA")) && d.value.Undefined? ==>
            (ShownLine(name, d, fixed).Some? <==> d.values.Some? && |d.values.value| > 0)
    ensures (StartsWith(name, "SMA") || StartsWith(name, "EMA")) ==> (Throws(name, d) <==> d.value.Null?)
  {
    if StartsWith(name, "SMA") || StartsWith(name, "EMA") {
      assert !StartsWith(name, "RSI") by { assert name[0] != 'R'; }
      assert !StartsWith(name, "MACD") by { assert name[0] != 'M'; }
      assert !StartsWith(name, "Bollinger") by { assert name[0] != 'B'; }
    }
  }

  /** Every line opens with the entry's name, which names a known family,
      so no line starts like the placeholder. */
  lemma ShownLineNamed(name: string, d: Shown, fixed: Fixed)
    requires ShownLine(name, d, fixed).Some?
    ensures KnownFamily(name) && StartsWith(ShownLine(name, d, fixed).value, name)
    ensures ShownLine(name, d, fixed).value[0] in "RMBSE"
  {
    var line := ShownLine(name, d, fixed).value;
    assert line[..|name|] == name;
    assert line[0] == name[0];
  }

  /** A joined list of lines begins with its first line. */
  lemma JoinBegins(lines: seq<string>, sep: string)
    requires lines != []
    ensures StartsWith(Join(lines, sep), lines[0])
  {
  }

  /** The section fails exactly when some entry throws; otherwise the
      placeholder appears exactly when no entry gives a line. */
  lemma ShownPlaceholder(entries: seq<(string, Shown)>, fixed: Fixed)
    ensures ShownText(entries, fixed).Err? <==> exists i :: 0 <= i < |entries| && Throws(entries[i].0, entries[i].1)
    ensures ShownText(entries, fixed) == Ok(NoShownIndicators) <==>
            ShownText(entries, fixed).Ok? &&
            forall i :: 0 <= i < |entries| ==> ShownLine(entries[i].0, entries[i].1, fixed).None?
  {
    var lines := ShownLines(entries, fixed);
    if |lines| > 0 {
      var line := lines[0];
      ShownLinesExact(entries, fixed, line);
      var i :| 0 <= i < |entries| && ShownLine(entries[i].0, entries[i].1, fixed) == Some(line);
      ShownLineNamed(entries[i].0, entries[i].1, fixed);
      JoinBegins(lines, "\n");
      assert Join(lines, "\n")[0] == line[0];
    } else {
      forall i | 0 <= i < |entries|
        ensures ShownLine(entries[i].0, entries[i].1, fixed).None?
      {
        var l := ShownLine(entries[i].0, entries[i].1, fixed);
        if l.Some? {
          ShownLinesExact(entries, fixed, l.value);
        }
      }
    }
  }

  /** The ADX trend-strength bands: above 25 strong, above 20 moderate,
      otherwise weak. */
  function AdxStrength(adx: real): string {
    if adx > 25.0 then "強いトレンド" else if adx > 20.0 then "中程度のトレンド" else "弱いトレンド"
  }

  lemma AdxBands(adx: real)
    ensures AdxStrength(adx) == "強いトレンド" <==> adx > 25.0
    ensures AdxStrength(adx) == "中程度のトレンド" <==> 20.0 < adx <= 25.0
    ensures AdxStrength(adx) == "弱いトレンド" <==> adx <= 20.0
  {
    assert "強いトレンド"[0] != "中程度のトレンド"[0];
    assert "強いトレンド"[0] != "弱いトレンド"[0];
    assert "中程度のトレンド"[0] != "弱いトレンド"[0];
  }

  /** A stronger trend is never described as weaker. */
  lemma AdxMonotone(a: real, b: real)
    requires a <= b
    ensures AdxStrength(a) == "強いトレンド" ==> AdxStrength(b) == "強いトレンド"
    ensures AdxStrength(b) == "弱いトレンド" ==> AdxStrength(a) == "弱いトレンド"
  {
    AdxBands(a);
    AdxBands(b);
  }

  function AtrLine(atr: real, fixed: Fixed): string {
    "ATR(14): " + fixed(atr, 2) + " - ボラティリティ（値動きの大きさ）を示す。高いほど変動が大きい。"
  }

  function AdxLine(adx: real, fixed: Fixed): string {
    "ADX(14): " + fixed(adx, 2) + " - トレンドの強さを示す（" + AdxStrength(adx) + "）。25以上で強いトレンド。"
  }

  const NoAdditionalIndicators := "（追加の指標なし）"

  /** `formatAdditionalIndicators`: an ATR line, then an ADX line, each when
      its value is not undefined, or the placeholder.  A null value passes
      the `!== undefined` test and throws on `toFixed`; the front end sends
      null ATR below 15 candles and null ADX below 28. */
  function AdditionalText(atr: Num, adx: Num, fixed: Fixed): Result<string, string> {
    if atr.Null? || adx.Null? then Err(NullToFixed)
    else
      var lines := (if atr.Number? then [AtrLine(atr.x, fixed)] else [])
                 + (if adx.Number? then [AdxLine(adx.x, fixed)] else []);
      Ok(if |lines| > 0 then Join(lines, "\n") else NoAdditionalIndicators)
  }

  /** A null value makes the section throw; otherwise the placeholder
      appears exactly when both values are undefined, and with both present
      the ATR line comes first. */
  lemma AdditionalPlaceholder(atr: Num, adx: Num, fixed: Fixed)
    ensures AdditionalText(atr, adx, fixed) == Err(NullToFixed) <==> atr.Null? || adx.Null?
    ensures AdditionalText(atr, adx, fixed) == Ok(NoAdditionalIndicators) <==> atr.Undefined? && adx.Undefined?
    ensures atr.Number? && adx.Number? ==>
            AdditionalText(atr, adx, fixed) == Ok(AtrLine(atr.x, fixed) + "\n" + AdxLine(adx.x, fixed))
  {
    if !atr.Null? && !adx.Null? && (atr.Number? || adx.Number?) {
      var first := if atr.Number? then AtrLine(atr.x, fixed) else AdxLine(adx.x, fixed);
      assert AdditionalText(atr, adx, fixed).value[0] == first[0] == 'A';
    }
    if atr.Number? && adx.Number? {
      var lines := [AtrLine(atr.x, fixed), AdxLine(adx.x, fixed)];
      assert lines[1..] == [AdxLine(adx.x, fixed)];
      assert Join(lines, "\n") == lines[0] + "\n" + Join(lines[1..], "\n");
    }
  }

  // ----- Parsing the quick-analysis reply -----

  /** The first index at or after k that is not white space. */
  function SkipSpaces(s: string, k: nat): (r: nat)
    requires k <= |s|
    ensures k <= r <= |s|
    ensures forall j :: k <= j < r ==> IsSpace(s[j])
    ensures r < |s| ==> !IsSpace(s[r])
    decreases |s| - k
  {
    if k < |s| && IsSpace(s[k]) then SkipSpaces(s, k + 1) else k
  }

  /** The input without its trailing white space. */
  function TrimEnd(s: string): (r: string)
    ensures |r| <= |s| && r == s[..|r|]
    ensures forall j :: |r| <= j < |s| ==> IsSpace(s[j])
    ensures r != [] ==> !IsSpace(r[|r| - 1])
  {
    if s != [] && IsSpace(s[|s| - 1]) then TrimEnd(s[..|s| - 1]) else s
  }

  /** The capture of `/```(?:json)?\s*([\s\S]*?)\s*```/`: from the first
      fence, past an optional `json` tag and white space, up to the next
      fence, without the white space before it; None when there is no
      second fence. */
  function Fence(content: string): Option<string> {
    match IndexOfFrom(content, "```", 0)
    case None => None
    case Some(i) =>
      var start := BodyStart(content, i);
      match IndexOfFrom(content, "```", start)
      case None => None
      case Some(j) => Some(TrimEnd(content[start..j]))
  }

  /** Where the fenced text starts, for an opening fence at i: past the
      fence, an optional `json` tag and white space. */
  function BodyStart(content: string, i: nat): (r: nat)
    requires i + 3 <= |content|
    ensures r <= |content|
  {
    var tagged := if OccursAt(content, "json", i + 3) then i + 7 else i + 3;
    SkipSpaces(content, tagged)
  }

  const ParseFailure := "Failed to parse AI response. Please try again."

  /** The text handed to `JSON.parse`: the fenced block when there is one,
      else the whole reply. */
  function JsonText(content: string): string {
    match Fence(content)
    case Some(body) => body
    case None => content
  }

  /** The structure check: the five sections must be present and truthy. */
  predicate HasRequiredKeys(doc: Json) {
    JsTruthy(Get(doc, "trend")) && JsTruthy(Get(doc, "pattern")) && JsTruthy(Get(doc, "levels"))
    && JsTruthy(Get(doc, "indicators")) && JsTruthy(Get(doc, "recommendation"))
  }

  /** `parseQuickAnalysisResponse`: the document must parse and have every
      required key truthy; every failure is the one retry message. */
  function ParseQuickAnalysisResponse(content: string, parse: string -> Option<Json>): (r: Result<Json, string>)
    ensures r.Err? ==> r.error == ParseFailure
  {
    match parse(JsonText(content))
    case None => Err(ParseFailure)
    case Some(doc) =>
      if HasRequiredKeys(doc) then Ok(doc) else Err(ParseFailure)
  }

  /** A reply is accepted exactly when its JSON text parses to a document
      with the five required keys truthy, and then it is that document;
      `disclaimer` is not checked. */
  lemma ParseAccepts(content: string, parse: string -> Option<Json>)
    ensures ParseQuickAnalysisResponse(content, parse).Ok? <==>
            parse(JsonText(content)).Some? &&
            JsTruthy(Get(parse(JsonText(content)).value, "trend")) &&
            JsTruthy(Get(parse(JsonText(content)).value, "pattern")) &&
            JsTruthy(Get(parse(JsonText(content)).value, "levels")) &&
            JsTruthy(Get(parse(JsonText(content)).value, "indicators")) &&
            JsTruthy(Get(parse(JsonText(content)).value, "recommendation"))
    ensures ParseQuickAnalysisResponse(content, parse).Ok? ==>
            ParseQuickAnalysisResponse(content, parse).value == parse(JsonText(content)).value
  {
  }

  /** A reply without any fence is parsed whole. */
  lemma UnfencedParsedWhole(content: string)
    requires forall j :: !OccursAt(content, "```", j)
    ensures JsonText(content) == content
  {
  }

  /** A fence preceded only by text without backticks is the next one found. */
  lemma NextFence(s: string, from: nat, at: nat)
    requires from <= at && OccursAt(s, "```", at)
    requires forall j :: from <= j < at ==> s[j] != '`'
    ensures IndexOfFrom(s, "```", from) == Some(at)
  {
    var r := IndexOfFrom(s, "```", from);
    assert r.Some? && r.value <= at;
    assert s[r.value] == s[r.value..r.value + 3][0] == '`';
  }

  /** Text that ends in one white-space character after a non-space loses
      just that character when trimmed. */
  lemma TrimOneSpace(t: string)
    requires |t| >= 2 && IsSpace(t[|t| - 1]) && !IsSpace(t[|t| - 2])
    ensures TrimEnd(t) == t[..|t| - 1]
  {
  }

  /** Fence in terms of the three positions it finds. */
  lemma FenceFound(s: string, i: nat, start: nat, j: nat)
    requires IndexOfFrom(s, "```", 0) == Some(i)
    requires BodyStart(s, i) == start
    requires IndexOfFrom(s, "```", start) == Some(j)
    ensures start <= j && Fence(s) == Some(TrimEnd(s[start..j]))
  {
  }

  /** After a `json` tag and one line break, the body starts at its first
      non-space character. */
  lemma JsonTagSkipped(s: string, b: nat)
    requires b + 9 <= |s|
    requires s[b + 3..b + 7] == "json" && s[b + 7] == '\n' && !IsSpace(s[b + 8])
    ensures BodyStart(s, b) == b + 8
  {
    assert SkipSpaces(s, b + 8) == b + 8;
  }

  /** A body without backticks, a line break and a fence: the fence is the
      next one, and trimming drops only the line break. */
  lemma BodyThenFence(s: string, start: nat, body: string, fence: nat)
    requires fence == start + |body| + 1 && fence + 3 <= |s|
    requires s[start..start + |body|] == body && s[start + |body|] == '\n'
    requires s[start + |body| + 1..start + |body| + 4] == "```"
    requires forall j :: 0 <= j < |body| ==> body[j] != '`'
    requires body != [] && !IsSpace(body[|body| - 1])
    ensures IndexOfFrom(s, "```", start) == Some(fence)
    ensures TrimEnd(s[start..fence]) == body
  {
    var e := start + |body|;
    forall j | start <= j < e + 1
      ensures s[j] != '`'
    {
      if j < e {
        assert s[j] == s[start..e][j - start];
      }
    }
    NextFence(s, start, e + 1);
    var t := s[start..e + 1];
    assert t[..|t| - 1] == body;
    assert t[|t| - 2] == body[|body| - 1];
    TrimOneSpace(t);
  }

  /** A `json` fence at b around a body without backticks, with no
      backtick before it, yields the body. */
  lemma FenceOfParts(s: string, b: nat, body: string)
    requires b + 12 + |body| <= |s|
    requires s[b..b + 3] == "```" && s[b + 3..b + 7] == "json" && s[b + 7] == '\n'
    requires s[b + 8..b + 8 + |body|] == body && s[b + 8 + |body|] == '\n'
    requires s[b + 9 + |body|..b + 12 + |body|] == "```"
    requires forall j :: 0 <= j < b ==> s[j] != '`'
    requires forall j :: 0 <= j < |body| ==> body[j] != '`'
    requires body != [] && !IsSpace(body[0]) && !IsSpace(body[|body| - 1])
    ensures Fence(s) == Some(body)
  {
    var start, j := b + 8, b + 9 + |body|;
    NextFence(s, 0, b);
    assert s[start] == body[0];
    JsonTagSkipped(s, b);
    BodyThenFence(s, start, body, j);
    FenceFound(s, b, start, j);
  }

  /** A body wrapped in a `json` fence, with any text around it that has no
      backtick, is extracted exactly. */
  lemma FenceRoundTrip(before: string, body: string, after: string)
    requires '`' !in before && '`' !in body
    requires body != [] && !IsSpace(body[0]) && !IsSpace(body[|body| - 1])
    ensures Fence(before + "```json\n" + body + "\n```" + after) == Some(body)
  {
    var s := before + "```json\n" + body + "\n```" + after;
    var b := |before|;
    var e := b + 8 + |body|;
    assert s[b..b + 3] == "```";
    assert s[b + 3..b + 7] == "json";
    assert s[b + 7] == '\n';
    assert s[b + 8..e] == body;
    assert s[e] == '\n';
    assert s[e + 1..e + 4] == "```";
    forall j | 0 <= j < b
      ensures s[j] != '`'
    {
      assert s[j] == before[j];
    }
    FenceOfParts(s, b, body);
  }

  /** A reply that wraps a complete document in a `json` fence, with prose
      around it, is accepted as that document. */
  lemma FencedReplyAccepted(before: string, body: string, after: string, parse: string -> Option<Json>, doc: Json)
    requires '`' !in before && '`' !in body
    requires body != [] && !IsSpace(body[0]) && !IsSpace(body[|body| - 1])
    requires parse(body) == Some(doc) && HasRequiredKeys(doc)
    ensures ParseQuickAnalysisResponse(before + "```json\n" + body + "\n```" + after, parse) == Ok(doc)
  {
    FenceRoundTrip(before, body, after);
  }
}
