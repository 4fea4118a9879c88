/** The market-data routes of src/routes/market-data.ts: `/candles` with its
    query checks, range adjustment, cache key, cache lookup and empty-data
    rule; `/quote`'s check; `/symbols`' totals.  A handler either sends a
    body or passes an error on to the error middleware.  The clock, the
    `timestamp` text and the HTTP exchange are parameters. */
module MarketData {
  import opened Wrappers
  import opened Strings
  import opened Json
  import opened Cache
  import opened YahooFinance
  import opened ErrorHandler

  datatype Answer = Sent(body: Json) | Passed(err: Thrown)

  /** A query value that passes `!v || typeof v !== 'string'`. */
  function QueryText(v: Option<Json>): (r: Option<string>)
    ensures r.Some? <==> (v.Some? && v.value.JStr? && v.value.s != "")
    ensures r.Some? ==> v == Some(JStr(r.value))
  {
    if v.Some? && v.value.JStr? && v.value.s != "" then Some(v.value.s) else None
  }

  function ValidationError(message: string): Thrown {
    AppError(message, 400, "ValidationError", None, None)
  }

  // ---------------------------------------------------------------------
  // Range adjustment and cache key

  const Intraday: seq<string> := ["1m", "5m", "15m", "30m", "1h", "2h", "4h"]

  /** The widened range for a short interval, `'5d'` for any other. */
  function Widened(interval: string): string {
    if interval == "1m" then "1d"
    else if interval == "5m" || interval == "15m" then "5d"
    else if interval == "30m" || interval == "1h" || interval == "2h" then "1mo"
    else if interval == "4h" then "3mo"
    else "5d"
  }

  /** A one-day range on an intraday interval is widened; nothing else
      changes. */
  function AdjustRange(interval: string, range: Option<string>): Option<string> {
    if interval in Intraday && range == Some("1d") then Some(Widened(interval)) else range
  }

  /** The adjustment applies in exactly one case. */
  lemma AdjustmentOnlyForOneDay(interval: string, range: Option<string>)
    ensures AdjustRange(interval, range) != range ==> interval in Intraday && range == Some("1d")
    ensures range != Some("1d") || interval !in Intraday ==> AdjustRange(interval, range) == range
  {
  }

  /** The widened ranges, interval by interval. */
  lemma AdjustmentTable()
    ensures AdjustRange("1m", Some("1d")) == Some("1d") && AdjustRange("5m", Some("1d")) == Some("5d")
    ensures AdjustRange("15m", Some("1d")) == Some("5d") && AdjustRange("30m", Some("1d")) == Some("1mo")
    ensures AdjustRange("1h", Some("1d")) == Some("1mo") && AdjustRange("2h", Some("1d")) == Some("1mo")
    ensures AdjustRange("4h", Some("1d")) == Some("3mo")
  {
    assert "1m" == Intraday[0] && "5m" == Intraday[1] && "15m" == Intraday[2] && "30m" == Intraday[3];
    assert "1h" == Intraday[4] && "2h" == Intraday[5] && "4h" == Intraday[6];
  }

  /** `range || fallback`. */
  function RangeOr(range: Option<string>, fallback: string): (r: string)
    ensures range.Some? && range.value != "" ==> r == range.value
    ensures range.None? || range.value == "" ==> r == fallback
  {
    if range.Some? && range.value != "" then range.value else fallback
  }

  /** `candles:<symbol>:<interval>:<range or 'default'>`. */
  function CacheKey(symbol: string, interval: string, range: Option<string>): string {
    "candles:" + symbol + ":" + interval + ":" + RangeOr(range, "default")
  }

  /** For one symbol and interval, two ranges share a key exactly when
      they print alike: no range, an empty one and `default` all do. */
  lemma CacheKeyByRange(symbol: string, interval: string, r1: Option<string>, r2: Option<string>)
    ensures CacheKey(symbol, interval, r1) == CacheKey(symbol, interval, r2) <==> RangeOr(r1, "default") == RangeOr(r2, "default")
    ensures CacheKey(symbol, interval, None) == CacheKey(symbol, interval, Some("default"))
  {
    var p := "candles:" + symbol + ":" + interval + ":";
    if CacheKey(symbol, interval, r1) == CacheKey(symbol, interval, r2) {
      assert RangeOr(r1, "default") == CacheKey(symbol, interval, r1)[|p|..];
      assert RangeOr(r2, "default") == CacheKey(symbol, interval, r2)[|p|..];
    }
  }

  // ---------------------------------------------------------------------
  // GET /candles

  function CandleJson(c: Candle): Json {
    JObj([("time", JInt(c.time)), ("open", JFloat(c.open)), ("high", JFloat(c.high)), ("low", JFloat(c.low)),
          ("close", JFloat(c.close)), ("volume", JFloat(c.volume))])
  }

  function CandlesJson(candles: seq<Candle>): (r: seq<Json>)
    ensures |r| == |candles| && forall i :: 0 <= i < |r| ==> r[i] == CandleJson(candles[i])
  {
    seq(|candles|, i requires 0 <= i < |candles| => CandleJson(candles[i]))
  }

  /** The metadata of a candle answer: the range reported is `range ||
      '1mo'`, and `count` is the number of candles. */
  function CandlesMetadata(symbol: string, interval: string, range: Option<string>, count: nat, timestamp: string): (j: Json)
    ensures Get(j, "count") == Some(JInt(count)) && Get(j, "range") == Some(JStr(RangeOr(range, "1mo")))
    ensures Get(j, "symbol") == Some(JStr(symbol)) && Get(j, "interval") == Some(JStr(interval))
  {
    var fields := [("symbol", JStr(symbol)), ("interval", JStr(interval)), ("range", JStr(RangeOr(range, "1mo"))),
                   ("count", JInt(count)), ("timestamp", JStr(timestamp))];
    assert "count"[0] != "range"[0];
    LookupLeadingFour(fields);
    JObj(fields)
  }

  /** `{success: true, data, metadata}`. */
  function SuccessBody(data: Json, metadata: Json): (j: Json)
    ensures Get(j, "success") == Some(JBool(true)) && Get(j, "data") == Some(data)
    ensures Get(j, "metadata") == Some(metadata)
  {
    var fields := [("success", JBool(true)), ("data", data), ("metadata", metadata)];
    LookupFirst(fields, "success", 0);
    assert "data"[0] != "success"[0];
    LookupFirst(fields, "data", 1);
    assert "metadata"[0] !in {"success"[0], "data"[0]};
    LookupFirst(fields, "metadata", 2);
    JObj(fields)
  }

  datatype CandleQuery = CandleQuery(symbol: Option<Json>, interval: Option<Json>, range: Option<string>)

  /** What one `/candles` request answers, the cache it leaves, and
      whether it went to the data source. */
  datatype Step = Step(answer: Answer, entries: map<string, Entry>, fetched: bool)

  /** The cache's `get` as one step: the value read and the map after the
      lazy expiry. */
  function AfterGet(entries: map<string, Entry>, enabled: bool, key: string, now: int): map<string, Entry> {
    if enabled && key in entries && !Live(entries[key], now) then entries - {key} else entries
  }

  function CandlesRoute(entries: map<string, Entry>, enabled: bool, defaultTTL: int, q: CandleQuery,
                        now: int, timestamp: string, fetch: ChartRequest -> Transport): Step
  {
    if QueryText(q.symbol).None? then Step(Passed(ValidationError("symbol is required")), entries, false)
    else if QueryText(q.interval).None? then Step(Passed(ValidationError("interval is required")), entries, false)
    else
      var symbol := QueryText(q.symbol).value;
      var interval := QueryText(q.interval).value;
      var range := AdjustRange(interval, q.range);
      var key := CacheKey(symbol, interval, range);
      var cached := if enabled then ValueAt(entries, key, now) else None;
      var swept := AfterGet(entries, enabled, key, now);
      if JsTruthy(cached) then Step(Sent(cached.value), swept, false)
      else Respond(swept, enabled, defaultTTL, symbol, interval, range, now, timestamp,
                   Candles(symbol, fetch(RequestFor(symbol, interval, range))))
  }

  /** The answer to a cache miss, from what the fetch gave: its error
      passed on, no candles a 404, otherwise the body, cached when caching
      is on. */
  function Respond(swept: map<string, Entry>, enabled: bool, defaultTTL: int, symbol: string, interval: string,
                   range: Option<string>, now: int, timestamp: string, fetched: Result<seq<Candle>, string>): Step
  {
    match fetched
    case Err(message) => Step(Passed(PlainError(message, None)), swept, true)
    case Ok(candles) =>
      if |candles| == 0 then
        Step(Passed(AppError("No data available for " + symbol, 404, "DataNotFoundError", None, None)), swept, true)
      else
        Sending(swept, enabled, defaultTTL, CacheKey(symbol, interval, range), now,
                CandlesBody(candles, symbol, interval, range, timestamp))
  }

  /** Sending a fetched body: with caching on, it is stored under the key
      for the default lifetime. */
  function Sending(swept: map<string, Entry>, enabled: bool, defaultTTL: int, key: string, now: int, body: Json): Step {
    var stored := if enabled then swept[key := Entry(body, now + Ttl(None, defaultTTL) * 1000)] else swept;
    Step(Sent(body), stored, true)
  }

  /** The body of a candle answer. */
  function CandlesBody(candles: seq<Candle>, symbol: string, interval: string, range: Option<string>,
                       timestamp: string): Json
  {
    SuccessBody(JArr(CandlesJson(candles)), CandlesMetadata(symbol, interval, range, |candles|, timestamp))
  }

  /** A candle answer carries the candles, their number and `range ||
      '1mo'`. */
  lemma CandlesBodyReports(candles: seq<Candle>, symbol: string, interval: string, range: Option<string>,
                           timestamp: string)
    ensures var j := CandlesBody(candles, symbol, interval, range, timestamp);
      Get(j, "data") == Some(JArr(CandlesJson(candles))) && Get(j, "metadata").Some? &&
      Get(Get(j, "metadata").value, "count") == Some(JInt(|candles|)) &&
      Get(Get(j, "metadata").value, "range") == Some(JStr(RangeOr(range, "1mo")))
  {
    var meta := CandlesMetadata(symbol, interval, range, |candles|, timestamp);
    assert Get(SuccessBody(JArr(CandlesJson(candles)), meta), "metadata") == Some(meta);
  }

  /** The `/candles` handler over the shared cache. */
  method GetCandlesHandler(cache: CacheService, q: CandleQuery, now: int, timestamp: string,
                           fetch: ChartRequest -> Transport)
    returns (answer: Answer, fetched: bool)
    modifies cache
    ensures Step(answer, cache.cache, fetched) ==
            CandlesRoute(old(cache.cache), cache.enabled, cache.defaultTTL, q, now, timestamp, fetch)
  {
    fetched := false;
    var symbol := QueryText(q.symbol);
    if symbol.None? {
      return Passed(ValidationError("symbol is required")), false;
    }
    var interval := QueryText(q.interval);
    if interval.None? {
      return Passed(ValidationError("interval is required")), false;
    }
    var range := AdjustRange(interval.value, q.range);
    var key := CacheKey(symbol.value, interval.value, range);
    var cached := cache.Get(key, now);
    if JsTruthy(cached) {
      return Sent(cached.value), false;
    }
    var candles := GetCandles(symbol.value, interval.value, range, fetch);
    answer := Store(cache, symbol.value, interval.value, range, now, timestamp, candles);
    fetched := true;
  }

  /** A cache miss, once fetched: answer, and store as `Respond` says. */
  method Store(cache: CacheService, symbol: string, interval: string, range: Option<string>, now: int,
               timestamp: string, candles: Result<seq<Candle>, string>)
    returns (answer: Answer)
    modifies cache
    ensures Step(answer, cache.cache, true) ==
            Respond(old(cache.cache), cache.enabled, cache.defaultTTL, symbol, interval, range, now, timestamp, candles)
  {
    if candles.Err? {
      return Passed(PlainError(candles.error, None));
    }
    if |candles.value| == 0 {
      return Passed(AppError("No data available for " + symbol, 404, "DataNotFoundError", None, None));
    }
    var body := CandlesBody(candles.value, symbol, interval, range, timestamp);
    answer := Send(cache, CacheKey(symbol, interval, range), now, body);
  }

  /** `cacheService.set(cacheKey, response)`, then the response sent. */
  method Send(cache: CacheService, key: string, now: int, body: Json) returns (answer: Answer)
    modifies cache
    ensures Step(answer, cache.cache, true) == Sending(old(cache.cache), cache.enabled, cache.defaultTTL, key, now, body)
  {
    cache.Set(key, body, None, now);
    answer := Sent(body);
  }

  /** The symbol is checked first, then the interval; either failure
      answers 400 through the error middleware without touching the cache
      or the data source. */
  lemma ValidationFirst(entries: map<string, Entry>, enabled: bool, defaultTTL: int, q: CandleQuery,
                        now: int, timestamp: string, fetch: ChartRequest -> Transport, isDevelopment: bool)
    requires QueryText(q.symbol).None? || QueryText(q.interval).None?
    ensures var s := CandlesRoute(entries, enabled, defaultTTL, q, now, timestamp, fetch);
      !s.fetched && s.entries == entries && s.answer.Passed? &&
      Handle(s.answer.err, isDevelopment).status == 400 &&
      Handle(s.answer.err, isDevelopment).error.errorType == "ValidationError" &&
      Handle(s.answer.err, isDevelopment).error.message ==
        (if QueryText(q.symbol).None? then "symbol is required" else "interval is required")
  {
  }

  /** A live cached answer is sent as it is, and the data source is not
      asked: any source gives the same step. */
  lemma CacheHitSkipsFetch(entries: map<string, Entry>, defaultTTL: int, q: CandleQuery, now: int,
                           timestamp: string, fetch: ChartRequest -> Transport, other: ChartRequest -> Transport)
    requires QueryText(q.symbol).Some? && QueryText(q.interval).Some?
    requires var interval := QueryText(q.interval).value;
      JsTruthy(ValueAt(entries, CacheKey(QueryText(q.symbol).value, interval, AdjustRange(interval, q.range)), now))
    ensures var s := CandlesRoute(entries, true, defaultTTL, q, now, timestamp, fetch);
      !s.fetched && s.entries == entries && s == CandlesRoute(entries, true, defaultTTL, q, now, timestamp, other)
    ensures var interval := QueryText(q.interval).value;
      CandlesRoute(entries, true, defaultTTL, q, now, timestamp, fetch).answer ==
      Sent(ValueAt(entries, CacheKey(QueryText(q.symbol).value, interval, AdjustRange(interval, q.range)), now).value)
  {
  }

  /** No candles is a 404 `DataNotFoundError`, and nothing is cached. */
  lemma NoCandlesNotFound(entries: map<string, Entry>, enabled: bool, defaultTTL: int, q: CandleQuery,
                          now: int, timestamp: string, fetch: ChartRequest -> Transport, isDevelopment: bool)
    requires QueryText(q.symbol).Some? && QueryText(q.interval).Some?
    requires var symbol := QueryText(q.symbol).value; var interval := QueryText(q.interval).value;
      var range := AdjustRange(interval, q.range);
      !JsTruthy(if enabled then ValueAt(entries, CacheKey(symbol, interval, range), now) else None) &&
      Candles(symbol, fetch(RequestFor(symbol, interval, range))) == Ok([])
    ensures var s := CandlesRoute(entries, enabled, defaultTTL, q, now, timestamp, fetch);
      s.fetched && s.answer.Passed? && Handle(s.answer.err, isDevelopment).status == 404 &&
      Handle(s.answer.err, isDevelopment).error.errorType == "DataNotFoundError" &&
      s.entries == AfterGet(entries, enabled, CacheKey(QueryText(q.symbol).value, QueryText(q.interval).value,
                                                       AdjustRange(QueryText(q.interval).value, q.range)), now)
  {
  }

  /** The `/candles` answer to a usable chart result without timestamps.
      As written, the fetch's debug log throws, so the route passes on
      "Failed to fetch candles for <symbol>" and the answer is a 500; the
      corrected fetch yields no candles and the answer is the 404. */
  lemma EmptySeriesAnswers(swept: map<string, Entry>, enabled: bool, defaultTTL: int, symbol: string,
                           interval: string, range: Option<string>, now: int, timestamp: string,
                           isDevelopment: bool)
    ensures var t := Delivered(Some(ChartResult(None, Some([]), Some(Quote(Some([]), Some([]), Some([]), Some([]), Some([]))))));
      var written := Respond(swept, enabled, defaultTTL, symbol, interval, range, now, timestamp,
                             CandlesAsWritten(symbol, t));
      written.answer.Passed? && Handle(written.answer.err, isDevelopment).status == 500 &&
      Handle(written.answer.err, isDevelopment).error.message == FetchFailure(symbol) &&
      written.entries == swept
    ensures var t := Delivered(Some(ChartResult(None, Some([]), Some(Quote(Some([]), Some([]), Some([]), Some([]), Some([]))))));
      var intended := Respond(swept, enabled, defaultTTL, symbol, interval, range, now, timestamp,
                              Candles(symbol, t));
      intended.answer.Passed? && Handle(intended.answer.err, isDevelopment).status == 404 &&
      intended.entries == swept
  {
    EmptyTimestampsFailAsWritten(symbol);
  }

  /** A fetched answer reports the number of candles and `range || '1mo'`,
      and with caching on it is stored under the key and read back at the
      same instant. */
  lemma FetchedAnswerStored(swept: map<string, Entry>, defaultTTL: int, symbol: string, interval: string,
                            range: Option<string>, now: int, timestamp: string, candles: seq<Candle>)
    requires defaultTTL >= 0 && candles != []
    ensures var s := Respond(swept, true, defaultTTL, symbol, interval, range, now, timestamp, Ok(candles));
      s.fetched && s.answer.Sent? && Get(s.answer.body, "metadata").Some? &&
      Get(Get(s.answer.body, "metadata").value, "count") == Some(JInt(|candles|)) &&
      Get(Get(s.answer.body, "metadata").value, "range") == Some(JStr(RangeOr(range, "1mo"))) &&
      ValueAt(s.entries, CacheKey(symbol, interval, range), now) == Some(s.answer.body)
  {
    var body := CandlesBody(candles, symbol, interval, range, timestamp);
    CandlesBodyReports(candles, symbol, interval, range, timestamp);
    StoredValueReadBack(swept, CacheKey(symbol, interval, range), body, now + Ttl(None, defaultTTL) * 1000,
                        CacheKey(symbol, interval, range), now);
  }

  /** With caching on, a request repeated at the same instant after a
      fetched answer is a cache hit with the same body: it does not fetch. */
  lemma RepeatServedFromCache(entries: map<string, Entry>, defaultTTL: int, q: CandleQuery, now: int,
                              timestamp: string, fetch: ChartRequest -> Transport, later: ChartRequest -> Transport)
    requires defaultTTL >= 0
    requires var s := CandlesRoute(entries, true, defaultTTL, q, now, timestamp, fetch);
      s.fetched && s.answer.Sent?
    ensures var s := CandlesRoute(entries, true, defaultTTL, q, now, timestamp, fetch);
      var again := CandlesRoute(s.entries, true, defaultTTL, q, now, timestamp, later);
      !again.fetched && again.answer == s.answer
  {
    var symbol := QueryText(q.symbol).value;
    var interval := QueryText(q.interval).value;
    var range := AdjustRange(interval, q.range);
    var key := CacheKey(symbol, interval, range);
    var fetchedCandles := Candles(symbol, fetch(RequestFor(symbol, interval, range)));
    var swept := AfterGet(entries, true, key, now);
    var s := CandlesRoute(entries, true, defaultTTL, q, now, timestamp, fetch);
    assert s == Respond(swept, true, defaultTTL, symbol, interval, range, now, timestamp, fetchedCandles);
    var body := CandlesBody(fetchedCandles.value, symbol, interval, range, timestamp);
    assert s == Sending(swept, true, defaultTTL, key, now, body);
    StoredValueReadBack(swept, key, body, now + Ttl(None, defaultTTL) * 1000, key, now);
    assert ValueAt(s.entries, key, now) == Some(body);
    assert body.JObj?;
    CacheHitSkipsFetch(s.entries, defaultTTL, q, now, timestamp, later, later);
  }

  // ---------------------------------------------------------------------
  // GET /quote

  /** `/quote`: the same symbol check, then the quote from the source
      (a parameter here) or its error passed on. */
  function QuoteRoute(symbolQ: Option<Json>, quote: string -> Result<Json, string>, timestamp: string): (a: Answer)
    ensures QueryText(symbolQ).None? ==> a == Passed(ValidationError("symbol is required"))
    ensures QueryText(symbolQ).Some? && quote(QueryText(symbolQ).value).Ok? ==>
      a.Sent? && Get(a.body, "data") == Some(quote(QueryText(symbolQ).value).value)
    ensures QueryText(symbolQ).Some? && quote(QueryText(symbolQ).value).Err? ==>
      a == Passed(PlainError(quote(QueryText(symbolQ).value).error, None))
  {
    match QueryText(symbolQ)
    case None => Passed(ValidationError("symbol is required"))
    case Some(symbol) =>
      match quote(symbol)
      case Err(message) => Passed(PlainError(message, None))
      case Ok(data) => Sent(SuccessBody(data, JObj([("timestamp", JStr(timestamp))])))
  }

  // ---------------------------------------------------------------------
  // GET /symbols

  function SymbolsJson(table: seq<(string, seq<string>)>): Fields {
    seq(|table|, i requires 0 <= i < |table| => (table[i].0, JArr(seq(|table[i].1|, k requires 0 <= k < |table[i].1| => JStr(table[i].1[k])))))
  }

  /** The sum of the category lengths. */
  function TotalCount(table: seq<(string, seq<string>)>): nat {
    if table == [] then 0 else |table[0].1| + TotalCount(table[1..])
  }

  function Categories(table: seq<(string, seq<string>)>): (r: seq<string>)
    ensures |r| == |table| && forall i :: 0 <= i < |r| ==> r[i] == table[i].0
  {
    seq(|table|, i requires 0 <= i < |table| => table[i].0)
  }

  /** `/symbols`: the table, its categories and the total count. */
  function SymbolsRoute(): Json {
    var table := AvailableSymbols;
    SuccessBody(JObj(SymbolsJson(table)),
                JObj([("categories", JArr(seq(|table|, i requires 0 <= i < |table| => JStr(Categories(table)[i])))),
                      ("totalCount", JInt(TotalCount(table)))]))
  }

  /** Four categories, of 8, 10, 8 and 5 symbols, 31 in all, and the
      reported total is that sum. */
  lemma SymbolTotals()
    ensures Categories(AvailableSymbols) == ["forex", "stocks", "crypto", "indices"]
    ensures |AvailableSymbols[0].1| == 8 && |AvailableSymbols[1].1| == 10
    ensures |AvailableSymbols[2].1| == 8 && |AvailableSymbols[3].1| == 5
    ensures TotalCount(AvailableSymbols) == 31
    ensures var meta := Get(SymbolsRoute(), "metadata").value;
      Get(meta, "totalCount") == Some(JInt(31))
  {
    var t := AvailableSymbols;
    assert TotalCount(t[3..]) == 5 by {
      assert t[3..][1..] == [];
    }
    assert t[2..][1..] == t[3..];
    assert t[1..][1..] == t[2..];
    assert t[1..] == t[1..];
    var meta := Get(SymbolsRoute(), "metadata").value;
    assert "totalCount"[0] != "categories"[0];
    LookupFirst(meta.fields, "totalCount", 1);
  }
}
