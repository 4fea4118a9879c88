/** The candle fetch of src/services/yahoo-finance.service.ts: the request
    it sends, the checks on the chart document, the conversion that skips
    incomplete rows, the conditional sort, and how failures are renamed.
    The HTTP exchange is a parameter: what the client delivers for a
    request, or how it failed. */
module YahooFinance {
  import opened Wrappers
  import opened Strings

  datatype Candle = Candle(time: int, open: real, high: real, low: real, close: real, volume: real)

  /** `indicators.quote[0]`: one array per field; a missing array is None,
      a null or missing element is None. */
  datatype Quote = Quote(
    open: Option<seq<Option<real>>>, high: Option<seq<Option<real>>>, low: Option<seq<Option<real>>>,
    close: Option<seq<Option<real>>>, volume: Option<seq<Option<real>>>)

  /** `chart.result[0]`: its `error` (by description), its timestamps and
      its first quote, each possibly missing. */
  datatype ChartResult = ChartResult(error: Option<string>, timestamp: Option<seq<int>>, quote: Option<Quote>)

  /** What was thrown inside the fetch: an HTTP client error with a
      response, one with a request but no response, another client error,
      or an ordinary error. */
  datatype Caught = AxiosResponse(status: int) | AxiosNoResponse | AxiosOther | Plain

  /** The client's answer: the chart document's first result, if any, or
      the error it threw. */
  datatype Transport = Delivered(first: Option<ChartResult>) | Failed(error: Caught)

  datatype ChartRequest = ChartRequest(symbol: string, interval: string, range: string)

  /** `range = '1mo'`: the default applies only when no range is given. */
  function RequestFor(symbol: string, interval: string, range: Option<string>): (q: ChartRequest)
    ensures q.symbol == symbol && q.interval == interval
    ensures q.range == (if range.Some? then range.value else "1mo")
  {
    ChartRequest(symbol, interval, range.GetOr("1mo"))
  }

  /** `handleError`: an HTTP status or a missing response keeps a message
      of its own; everything else becomes the caller's generic message. */
  function HandleError(e: Caught, message: string): (r: string)
    ensures e.AxiosResponse? ==> r == "Yahoo Finance API error: " + IntToString(e.status)
    ensures e.AxiosNoResponse? ==> r == "Yahoo Finance API timeout or network error"
    ensures e.AxiosOther? || e.Plain? ==> r == message
  {
    match e
    case AxiosResponse(status) => "Yahoo Finance API error: " + IntToString(status)
    case AxiosNoResponse => "Yahoo Finance API timeout or network error"
    case _ => message
  }

  function FetchFailure(symbol: string): string {
    "Failed to fetch candles for " + symbol
  }

  // ---------------------------------------------------------------------
  // Conversion

  /** `xs[i]`, where reading past the end gives undefined. */
  function At(xs: seq<Option<real>>, i: nat): Option<real> {
    if i < |xs| then xs[i] else None
  }

  /** The five arrays are present. */
  predicate HasArrays(q: Quote) {
    q.open.Some? && q.high.Some? && q.low.Some? && q.close.Some? && q.volume.Some?
  }

  /** Row i has all five values. */
  predicate Complete(q: Quote, i: nat)
    requires HasArrays(q)
  {
    At(q.open.value, i).Some? && At(q.high.value, i).Some? && At(q.low.value, i).Some? &&
    At(q.close.value, i).Some? && At(q.volume.value, i).Some?
  }

  function CandleAt(ts: seq<int>, q: Quote, i: nat): (c: Candle)
    requires HasArrays(q) && i < |ts| && Complete(q, i)
    ensures c.time == ts[i] && Some(c.open) == At(q.open.value, i) && Some(c.close) == At(q.close.value, i)
    ensures Some(c.high) == At(q.high.value, i) && Some(c.low) == At(q.low.value, i)
    ensures Some(c.volume) == At(q.volume.value, i)
  {
    Candle(ts[i], At(q.open.value, i).value, At(q.high.value, i).value, At(q.low.value, i).value,
           At(q.close.value, i).value, At(q.volume.value, i).value)
  }

  /** The complete rows below n, in increasing order. */
  function KeptIndices(q: Quote, n: nat): (r: seq<nat>)
    requires HasArrays(q)
    ensures |r| <= n
    ensures forall j :: 0 <= j < |r| ==> r[j] < n && Complete(q, r[j])
  {
    if n == 0 then []
    else KeptIndices(q, n - 1) + (if Complete(q, n - 1) then [n - 1] else [])
  }

  /** Kept rows are listed in strictly increasing order, and every
      complete row below n is listed. */
  lemma {:induction false} KeptIndicesExact(q: Quote, n: nat, i: nat)
    requires HasArrays(q)
    ensures forall j, k :: 0 <= j < k < |KeptIndices(q, n)| ==> KeptIndices(q, n)[j] < KeptIndices(q, n)[k]
    ensures i < n && Complete(q, i) ==> i in KeptIndices(q, n)
  {
    if n > 0 {
      KeptIndicesExact(q, n - 1, i);
      var prev := KeptIndices(q, n - 1);
      assert KeptIndices(q, n) == prev + (if Complete(q, n - 1) then [n - 1] else []);
      if i < n - 1 && Complete(q, i) {
        assert i in prev;
      }
    }
  }

  /** The candles of the rows below n. */
  function Kept(ts: seq<int>, q: Quote, n: nat): (r: seq<Candle>)
    requires HasArrays(q) && n <= |ts|
    ensures |r| == |KeptIndices(q, n)|
    ensures forall j :: 0 <= j < |r| ==> r[j] == CandleAt(ts, q, KeptIndices(q, n)[j])
  {
    var idx := KeptIndices(q, n);
    seq(|idx|, j requires 0 <= j < |idx| => CandleAt(ts, q, idx[j]))
  }

  /** The number of incomplete rows below n. */
  function SkippedCount(q: Quote, n: nat): nat
    requires HasArrays(q)
  {
    if n == 0 then 0 else SkippedCount(q, n - 1) + (if Complete(q, n - 1) then 0 else 1)
  }

  /** Every row is either kept or skipped. */
  lemma {:induction false} KeptPlusSkipped(q: Quote, n: nat)
    requires HasArrays(q)
    ensures |KeptIndices(q, n)| + SkippedCount(q, n) == n
  {
    if n > 0 {
      KeptPlusSkipped(q, n - 1);
    }
  }

  /** The conversion loop: one candle per complete row, in row order, and
      a count of the rows skipped. */
  method Convert(ts: seq<int>, q: Quote) returns (candles: seq<Candle>, skipped: nat)
    requires HasArrays(q)
    ensures candles == Kept(ts, q, |ts|)
    ensures skipped == SkippedCount(q, |ts|)
    ensures |candles| + skipped == |ts|
  {
    candles := [];
    skipped := 0;
    var i := 0;
    while i < |ts|
      invariant i <= |ts|
      invariant candles == Kept(ts, q, i)
      invariant skipped == SkippedCount(q, i)
    {
      if At(q.open.value, i).None? || At(q.high.value, i).None? || At(q.low.value, i).None? ||
         At(q.close.value, i).None? || At(q.volume.value, i).None? {
        skipped := skipped + 1;
        assert KeptIndices(q, i + 1) == KeptIndices(q, i);
      } else {
        candles := candles + [CandleAt(ts, q, i)];
        assert KeptIndices(q, i + 1) == KeptIndices(q, i) + [i];
      }
      i := i + 1;
    }
    KeptPlusSkipped(q, |ts|);
  }

  // ---------------------------------------------------------------------
  // Ordering

  predicate SortedByTime(cs: seq<Candle>) {
    forall j, k :: 0 <= j < k < |cs| ==> cs[j].time <= cs[k].time
  }

  /** A candle no later than everything in `tail` and than `c` stays a valid
      head after `c` has been merged into `tail`. */
  lemma HeadStaysFirst(h: Candle, tail: seq<Candle>, c: Candle, rest: seq<Candle>)
    requires SortedByTime([h] + tail) && SortedByTime(rest) && h.time < c.time
    requires multiset(rest) == multiset(tail) + multiset{c}
    ensures SortedByTime([h] + rest)
  {
    forall k | 0 <= k < |rest|
      ensures h.time <= rest[k].time
    {
      assert rest[k] in multiset(rest);
      if rest[k] != c {
        assert rest[k] in tail;
        var m :| 0 <= m < |tail| && tail[m] == rest[k];
        assert ([h] + tail)[0] == h && ([h] + tail)[m + 1] == rest[k];
      }
    }
    var r := [h] + rest;
    forall j, k | 0 <= j < k < |r|
      ensures r[j].time <= r[k].time
    {
      if j > 0 {
        assert r[j] == rest[j - 1] && r[k] == rest[k - 1];
      } else {
        assert r[k] == rest[k - 1];
      }
    }
  }

  /** `c` placed before the first candle that is not earlier. */
  function Insert(c: Candle, sorted: seq<Candle>): (r: seq<Candle>)
    requires SortedByTime(sorted)
    ensures SortedByTime(r) && multiset(r) == multiset(sorted) + multiset{c}
  {
    if sorted == [] then [c]
    else if c.time <= sorted[0].time then [c] + sorted
    else
      assert sorted == [sorted[0]] + sorted[1..];
      var rest := Insert(c, sorted[1..]);
      HeadStaysFirst(sorted[0], sorted[1..], c, rest);
      [sorted[0]] + rest
  }

  /** `candles.sort((a, b) => a.time - b.time)`. */
  function SortByTime(cs: seq<Candle>): (r: seq<Candle>)
    ensures SortedByTime(r) && multiset(r) == multiset(cs)
  {
    if cs == [] then []
    else
      assert cs == [cs[0]] + cs[1..];
      Insert(cs[0], SortByTime(cs[1..]))
  }

  /** Sorted only when there are two or more candles and the first two are
      not strictly ascending. */
  function Arrange(cs: seq<Candle>): seq<Candle> {
    var isAscending := |cs| > 1 && cs[0].time < cs[1].time;
    if !isAscending && |cs| > 1 then SortByTime(cs) else cs
  }

  /** Arranging never adds or drops a candle; it sorts in the one case, and
      otherwise leaves every candle in place, whatever disorder follows
      the first two. */
  lemma ArrangeRule(cs: seq<Candle>)
    ensures multiset(Arrange(cs)) == multiset(cs)
    ensures |cs| > 1 && cs[0].time >= cs[1].time ==> SortedByTime(Arrange(cs))
    ensures |cs| <= 1 || cs[0].time < cs[1].time ==> Arrange(cs) == cs
  {
  }

  /** A concrete case: the first two ascending, the third out of order,
      and the list comes back as it was, unsorted. */
  lemma LaterDisorderKept()
    ensures var cs := [Candle(1, 0.0, 0.0, 0.0, 0.0, 0.0), Candle(3, 0.0, 0.0, 0.0, 0.0, 0.0),
                       Candle(2, 0.0, 0.0, 0.0, 0.0, 0.0)];
      Arrange(cs) == cs && !SortedByTime(Arrange(cs))
  {
    var cs := [Candle(1, 0.0, 0.0, 0.0, 0.0, 0.0), Candle(3, 0.0, 0.0, 0.0, 0.0, 0.0),
               Candle(2, 0.0, 0.0, 0.0, 0.0, 0.0)];
    assert cs[1].time > cs[2].time;
  }

  // ---------------------------------------------------------------------
  // The whole fetch

  /** `new Date(t * 1000).toISOString()` succeeds: the instant is within
      the range a Date can hold. */
  predicate DateRenders(t: int) {
    -8640000000000000 <= t * 1000 <= 8640000000000000
  }

  /** The document checks that keep a delivered result from being used. */
  predicate Usable(r: ChartResult) {
    r.error.None? && r.timestamp.Some? && r.quote.Some? && HasArrays(r.quote.value)
  }

  /** `getCandles` as written: the debug log's arguments are evaluated
      whatever the log level, and with no timestamps `timestamps[0]` is
      undefined, so rendering its date throws and the fetch fails. */
  function CandlesAsWritten(symbol: string, t: Transport): Result<seq<Candle>, string> {
    match t
    case Failed(e) => Err(HandleError(e, FetchFailure(symbol)))
    case Delivered(first) =>
      if first.None? || !Usable(first.value) then Err(HandleError(Plain, FetchFailure(symbol)))
      else
        var ts := first.value.timestamp.value;
        if |ts| == 0 || !DateRenders(ts[0]) || !DateRenders(ts[|ts| - 1]) then
          Err(HandleError(Plain, FetchFailure(symbol)))
        else Ok(Arrange(Kept(ts, first.value.quote.value, |ts|)))
  }

  /** `getCandles` with the log kept out of the outcome: an empty list of
      timestamps yields no candles. */
  function Candles(symbol: string, t: Transport): Result<seq<Candle>, string> {
    match t
    case Failed(e) => Err(HandleError(e, FetchFailure(symbol)))
    case Delivered(first) =>
      if first.None? || !Usable(first.value) then Err(HandleError(Plain, FetchFailure(symbol)))
      else
        var ts := first.value.timestamp.value;
        Ok(Arrange(Kept(ts, first.value.quote.value, |ts|)))
  }

  /** A failed exchange keeps the client's renamed error; an unusable
      document fails with the generic message, its own reason lost; a
      usable one yields exactly its complete rows, in some order. */
  lemma CandlesOutcomes(symbol: string, t: Transport)
    ensures t.Failed? ==> Candles(symbol, t) == Err(HandleError(t.error, FetchFailure(symbol)))
    ensures t.Delivered? && (t.first.None? || !Usable(t.first.value)) ==> Candles(symbol, t) == Err(FetchFailure(symbol))
    ensures t.Delivered? && t.first.Some? && Usable(t.first.value) ==>
      var ts := t.first.value.timestamp.value;
      Candles(symbol, t).Ok? && multiset(Candles(symbol, t).value) == multiset(Kept(ts, t.first.value.quote.value, |ts|))
  {
    if t.Delivered? && t.first.Some? && Usable(t.first.value) {
      var ts := t.first.value.timestamp.value;
      ArrangeRule(Kept(ts, t.first.value.quote.value, |ts|));
    }
  }

  /** The two differ: a delivered result with no timestamps fails as
      written but yields an empty list when the log is kept out. */
  lemma EmptyTimestampsFailAsWritten(symbol: string)
    ensures var t := Delivered(Some(ChartResult(None, Some([]), Some(Quote(Some([]), Some([]), Some([]), Some([]), Some([]))))));
      CandlesAsWritten(symbol, t) == Err(FetchFailure(symbol)) && Candles(symbol, t) == Ok([])
  {
  }

  /** The debug log line of a delivered result can be built: the result
      is rejected before the log, or its first and last timestamps exist
      and render as dates. */
  predicate Loggable(t: Transport) {
    t.Delivered? && t.first.Some? && Usable(t.first.value) ==>
      var ts := t.first.value.timestamp.value;
      |ts| > 0 && DateRenders(ts[0]) && DateRenders(ts[|ts| - 1])
  }

  /** Whenever the log line can be built, the two agree; so they differ
      only for an empty timestamp list or one outside a Date's range. */
  lemma AgreeWhenLoggable(symbol: string, t: Transport)
    requires Loggable(t)
    ensures CandlesAsWritten(symbol, t) == Candles(symbol, t)
  {
  }

  /** A fetch: the request with its default range, the checks, the
      conversion loop and the conditional sort.  It follows the corrected
      `Candles`, which is the code as written whenever the debug log line
      can be built. */
  method GetCandles(symbol: string, interval: string, range: Option<string>, fetch: ChartRequest -> Transport)
    returns (r: Result<seq<Candle>, string>)
    ensures r == Candles(symbol, fetch(RequestFor(symbol, interval, range)))
    ensures Loggable(fetch(RequestFor(symbol, interval, range))) ==>
      r == CandlesAsWritten(symbol, fetch(RequestFor(symbol, interval, range)))
  {
    var t := fetch(RequestFor(symbol, interval, range));
    if Loggable(t) {
      AgreeWhenLoggable(symbol, t);
    }
    if t.Failed? {
      return Err(HandleError(t.error, FetchFailure(symbol)));
    }
    if t.first.None? || !Usable(t.first.value) {
      return Err(HandleError(Plain, FetchFailure(symbol)));
    }
    var ts := t.first.value.timestamp.value;
    var candles, skipped := Convert(ts, t.first.value.quote.value);
    var isAscending := |candles| > 1 && candles[0].time < candles[1].time;
    if !isAscending && |candles| > 1 {
      candles := SortByTime(candles);
    }
    return Ok(candles);
  }

  /** Every candle of a successful fetch is a complete row of the delivered
      document, and every complete row is there. */
  lemma FetchedCandlesAreRows(symbol: string, t: Transport, c: Candle)
    requires Candles(symbol, t).Ok?
    ensures t.Delivered? && t.first.Some? && Usable(t.first.value)
    ensures var ts := t.first.value.timestamp.value; var q := t.first.value.quote.value;
      c in Candles(symbol, t).value <==> exists i :: 0 <= i < |ts| && Complete(q, i) && c == CandleAt(ts, q, i)
  {
    var ts := t.first.value.timestamp.value;
    var q := t.first.value.quote.value;
    var kept := Kept(ts, q, |ts|);
    CandlesOutcomes(symbol, t);
    assert c in Candles(symbol, t).value <==> c in multiset(kept);
    if c in kept {
      var j :| 0 <= j < |kept| && kept[j] == c;
      assert KeptIndices(q, |ts|)[j] < |ts|;
    }
    if exists i :: 0 <= i < |ts| && Complete(q, i) && c == CandleAt(ts, q, i) {
      var i :| 0 <= i < |ts| && Complete(q, i) && c == CandleAt(ts, q, i);
      KeptIndicesExact(q, |ts|, i);
      var j :| 0 <= j < |KeptIndices(q, |ts|)| && KeptIndices(q, |ts|)[j] == i;
      assert kept[j] == c;
    }
  }

  // ---------------------------------------------------------------------
  // Symbols

  /** `getAvailableSymbols`: four categories, in this order. */
  const AvailableSymbols: seq<(string, seq<string>)> := [
    ("forex", ["EURUSD=X", "GBPUSD=X", "USDJPY=X", "GBPJPY=X", "AUDUSD=X", "USDCAD=X", "USDCHF=X", "NZDUSD=X"]),
    ("stocks", ["AAPL", "MSFT", "GOOGL", "AMZN", "TSLA", "META", "NVDA", "JPM", "V", "WMT"]),
    ("crypto", ["BTC-USD", "ETH-USD", "USDT-USD", "BNB-USD", "XRP-USD", "ADA-USD", "DOGE-USD", "SOL-USD"]),
    ("indices", ["^GSPC", "^DJI", "^IXIC", "^N225", "^FTSE"])]
}
