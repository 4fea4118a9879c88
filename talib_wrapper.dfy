/** `TALibWrapper` of python-indicators/talib_wrapper.py: each indicator
    function uses TA-Lib when it could be imported and otherwise a fallback
    written with numpy.  The native TA-Lib results are parameters of the model
    (functions that keep the input's length); the fallbacks are modelled over
    `real`, with NaN written as `None`. */
module TalibWrapper {
  import opened Wrappers
  import opened Strings
  import opened IndicatorInterface

  /** A numpy float series; `None` stands for NaN. */
  type Series = seq<Option<real>>

  /** TA-Lib functions of one series, and of high/low/close; their results
      have the input's length. */
  type Native = f: (seq<real>, int) -> Series | forall xs: seq<real>, p: int :: |f(xs, p)| == |xs|
    witness (xs: seq<real>, p: int) => seq(|xs|, i => None)

  type NativeBands = f: (seq<real>, int, real, real) -> (Series, Series, Series) |
    forall xs: seq<real>, p: int, up: real, dn: real :: LockStep(f(xs, p, up, dn), |xs|)
    witness (xs: seq<real>, p: int, up: real, dn: real) =>
      (seq(|xs|, i => None), seq(|xs|, i => None), seq(|xs|, i => None))

  type NativeMacd = f: (seq<real>, int, int, int) -> (Series, Series, Series) |
    forall xs: seq<real>, a: int, b: int, c: int ::
      |f(xs, a, b, c).0| == |xs| && |f(xs, a, b, c).1| == |xs| && |f(xs, a, b, c).2| == |xs|
    witness (xs: seq<real>, a: int, b: int, c: int) =>
      (seq(|xs|, i => None), seq(|xs|, i => None), seq(|xs|, i => None))

  /** Three series of length n that are defined at the same indices, as
      TA-Lib's BBANDS outputs are (one look-back period for all three). */
  predicate LockStep(bands: (Series, Series, Series), n: nat) {
    |bands.0| == n && |bands.1| == n && |bands.2| == n &&
    forall i :: 0 <= i < n ==> (bands.0[i].Some? <==> bands.1[i].Some?) && (bands.2[i].Some? <==> bands.1[i].Some?)
  }

  /** What the wrapper can call: whether `import talib` succeeded, TA-Lib's
      own functions, `np.std` of a window, and the values `_rsi_fallback`
      computes once its seed index is in range; its arithmetic, which
      divides by zero on a window without losses, is not modelled. */
  datatype Backend = Backend(
    available: bool,
    sma: Native,
    ema: Native,
    rsi: Native,
    macd: NativeMacd,
    bbands: NativeBands,
    atr: (seq<real>, seq<real>, seq<real>, int) -> Series,
    stoch: (seq<real>, seq<real>, seq<real>, int, int, int, int, int) -> (Series, Series),
    std: seq<real> -> real,
    rsiFallback: Native)

  function Lift(xs: seq<real>): (r: Series)
    ensures |r| == |xs| && forall i :: 0 <= i < |xs| ==> r[i] == Some(xs[i])
  {
    seq(|xs|, i requires 0 <= i < |xs| => Some(xs[i]))
  }

  function Sum(xs: seq<real>): real {
    if xs == [] then 0.0 else Sum(xs[..|xs| - 1]) + xs[|xs| - 1]
  }

  predicate AllDefined(xs: Series) {
    forall i :: 0 <= i < |xs| ==> xs[i].Some?
  }

  function Values(xs: Series): (r: seq<real>)
    requires AllDefined(xs)
    ensures |r| == |xs| && forall i :: 0 <= i < |xs| ==> r[i] == xs[i].value
  {
    seq(|xs|, i requires 0 <= i < |xs| => xs[i].value)
  }

  /** `np.mean`: NaN when the window holds a NaN (or is empty). */
  function Mean(window: Series): Option<real> {
    if |window| > 0 && AllDefined(window) then Some(Sum(Values(window)) / |window| as real) else None
  }

  /** Element-wise arithmetic on series: NaN in, NaN out. */
  function Sub(a: Option<real>, b: Option<real>): Option<real> {
    if a.Some? && b.Some? then Some(a.value - b.value) else None
  }

  function IndexError(index: int, size: nat): PyExc {
    PyExc("IndexError", "index " + IntToString(index) + " is out of bounds for axis 0 with size " + NatToString(size))
  }

  /** The shape every fallback loop fills in: NaN before index `start`, then
      `entry(i)` for each index from `start` to the end. */
  function Filled(n: nat, start: nat, entry: int -> Option<real>): (r: Series)
    ensures |r| == n
  {
    seq(n, i requires 0 <= i < n => if i < start then None else entry(i))
  }

  /** `result = np.full(n, np.nan)` followed by
      `for i in range(start, n): result[i] = ...`. */
  method FillFrom(n: nat, start: nat, entry: int -> Option<real>) returns (result: Series)
    ensures result == Filled(n, start, entry)
  {
    var r := new Option<real>[n](_ => None);
    var i := start;
    while i < n
      invariant start <= i
      invariant forall j :: 0 <= j < n ==> r[j] == if start <= j < i then entry(j) else None
    {
      r[i] := entry(i);
      i := i + 1;
    }
    result := r[..];
  }

  // ---------------------------------------------------------------------
  // _sma_fallback

  /** The mean of the `period` values ending at index i. */
  function SmaAt(xs: Series, period: int, i: int): Option<real> {
    if 1 <= period && period - 1 <= i < |xs| then Mean(xs[i - period + 1..i + 1]) else None
  }

  function SmaEntry(xs: Series, period: int): int -> Option<real> {
    i => SmaAt(xs, period, i)
  }

  /** `_sma_fallback`: NaN before index period-1, then the mean of the last
      `period` values. */
  function SmaSpec(xs: Series, period: int): Series
    requires period >= 1
  {
    Filled(|xs|, period - 1, SmaEntry(xs, period))
  }

  method SmaFallback(xs: Series, period: int) returns (result: Series)
    requires period >= 1
    ensures result == SmaSpec(xs, period)
  {
    result := FillFrom(|xs|, period - 1, SmaEntry(xs, period));
  }

  lemma {:induction false} SumOfConstant(xs: seq<real>, c: real)
    requires forall i :: 0 <= i < |xs| ==> xs[i] == c
    ensures Sum(xs) == |xs| as real * c
  {
    if xs != [] {
      SumOfConstant(xs[..|xs| - 1], c);
    }
  }

  /** The moving average of a constant series is that constant wherever it
      is defined, and it is defined from index period-1 on. */
  lemma SmaOfConstant(xs: Series, period: int, c: real, i: nat)
    requires period >= 1 && i < |xs|
    requires forall j :: 0 <= j < |xs| ==> xs[j] == Some(c)
    ensures SmaSpec(xs, period)[i] == if i < period - 1 then None else Some(c)
  {
    if i >= period - 1 {
      var w := xs[i - period + 1..i + 1];
      assert AllDefined(w);
      SumOfConstant(Values(w), c);
      assert SmaSpec(xs, period)[i] == Mean(w);
      assert Sum(Values(w)) / period as real == c;
    }
  }

  /** Over prices (no NaN) the moving average is defined exactly from index
      period-1 on. */
  lemma SmaDefinedAt(closes: seq<real>, period: int, i: nat)
    requires period >= 1 && i < |closes|
    ensures SmaSpec(Lift(closes), period)[i].Some? <==> i >= period - 1
  {
    if i >= period - 1 {
      assert AllDefined(Lift(closes)[i - period + 1..i + 1]);
    }
  }

  /** `_sma_fallback` keeps the input's length, and over prices it has
      n-period+1 defined entries when period <= n and none otherwise. */
  lemma SmaLayout(closes: seq<real>, period: int)
    requires period >= 1
    ensures |SmaSpec(Lift(closes), period)| == |closes|
    ensures CountDefined(SmaSpec(Lift(closes), period)) == if period <= |closes| then |closes| - period + 1 else 0
  {
    var r := SmaSpec(Lift(closes), period);
    forall j | 0 <= j < |r| ensures r[j].Some? <==> j >= period - 1 {
      SmaDefinedAt(closes, period, j);
    }
    CountDefinedFrom(r, period - 1);
  }

  function CountDefined(xs: Series): nat {
    if xs == [] then 0 else CountDefined(xs[..|xs| - 1]) + (if xs[|xs| - 1].Some? then 1 else 0)
  }

  /** A series defined exactly from index k on has n-k defined entries. */
  lemma {:induction false} CountDefinedFrom(xs: Series, k: int)
    requires forall j :: 0 <= j < |xs| ==> (xs[j].Some? <==> j >= k)
    ensures CountDefined(xs) == if k <= 0 then |xs| else if k <= |xs| then |xs| - k else 0
  {
    if xs != [] {
      CountDefinedFrom(xs[..|xs| - 1], k);
    }
  }

  // ---------------------------------------------------------------------
  // _ema_fallback

  /** `multiplier = 2 / (period + 1)`. */
  function Multiplier(period: int): real
    requires period >= 1
  {
    2.0 / (period + 1) as real
  }

  /** One step of the recurrence: `(close - prev) * multiplier + prev`. */
  function EmaStep(close: real, prev: real, multiplier: real): real {
    (close - prev) * multiplier + prev
  }

  /** The EMA at index i >= period-1: seeded with the mean of the first
      `period` prices, then one step per later price. */
  function EmaValue(closes: seq<real>, period: int, i: nat): real
    requires 1 <= period && period - 1 <= i < |closes|
    decreases i
  {
    if i == period - 1 then Sum(closes[..period]) / period as real
    else EmaStep(closes[i], EmaValue(closes, period, i - 1), Multiplier(period))
  }

  /** The entry at index i of `_ema_fallback`'s result. */
  function EmaAt(closes: seq<real>, period: int, i: int): Option<real> {
    if 1 <= period && period - 1 <= i < |closes| then Some(EmaValue(closes, period, i)) else None
  }

  /** `_ema_fallback`: an IndexError when period > n (seeding writes past the
      end), otherwise NaN before period-1 and the EMA from there on. */
  function EmaSpec(closes: seq<real>, period: int): Result<Series, PyExc>
    requires period >= 1
  {
    if period > |closes| then Err(IndexError(period - 1, |closes|))
    else Ok(seq(|closes|, i => EmaAt(closes, period, i)))
  }

  method EmaFallback(closes: seq<real>, period: int) returns (result: Result<Series, PyExc>)
    requires period >= 1
    ensures result == EmaSpec(closes, period)
  {
    var n := |closes|;
    var r := new Option<real>[n](_ => None);
    var multiplier := Multiplier(period);
    if period - 1 >= n {
      return Err(IndexError(period - 1, n));
    }
    r[period - 1] := Some(Sum(closes[..period]) / period as real);
    var i := period;
    while i < n
      invariant period <= i <= n
      invariant forall j :: 0 <= j < n ==> r[j] == if j < i then EmaAt(closes, period, j) else None
    {
      r[i] := Some(EmaStep(closes[i], r[i - 1].value, multiplier));
      i := i + 1;
    }
    assert r[..] == seq(n, j => EmaAt(closes, period, j));
    result := Ok(r[..]);
  }

  /** The EMA of a constant price is that price at every defined index. */
  lemma {:induction false} EmaOfConstant(closes: seq<real>, period: int, c: real, i: nat)
    requires 1 <= period && period - 1 <= i < |closes|
    requires forall j :: 0 <= j < |closes| ==> closes[j] == c
    ensures EmaValue(closes, period, i) == c
    decreases i
  {
    if i == period - 1 {
      SumOfConstant(closes[..period], c);
      DivideBack(c, period);
    } else {
      EmaOfConstant(closes, period, c, i - 1);
    }
  }

  lemma DivideBack(c: real, n: int)
    requires n >= 1
    ensures (n as real * c) / n as real == c
  {
  }

  /** The defined entries of a series, in order. */
  function Compact(xs: Series): (r: seq<real>)
    ensures |r| == CountDefined(xs)
  {
    if xs == [] then [] else Compact(xs[..|xs| - 1]) + (if xs[|xs| - 1].Some? then [xs[|xs| - 1].value] else [])
  }

  lemma {:induction false} CountDefinedBound(xs: Series)
    ensures CountDefined(xs) <= |xs|
  {
    if xs != [] {
      CountDefinedBound(xs[..|xs| - 1]);
    }
  }

  /** When the EMA exists it has n-period+1 defined entries. */
  lemma EmaDefinedCount(closes: seq<real>, period: int)
    requires 1 <= period <= |closes|
    ensures EmaSpec(closes, period).Ok?
    ensures |Compact(EmaSpec(closes, period).value)| == |closes| - period + 1
  {
    CountDefinedFrom(EmaSpec(closes, period).value, period - 1);
  }

  // ---------------------------------------------------------------------
  // _macd_fallback

  /** `full[-k:] = values` on an all-NaN series of length n. */
  function RightAlign(values: seq<real>, n: nat): (r: Series)
    requires |values| <= n
    ensures |r| == n
  {
    seq(n, i requires 0 <= i < n => if i >= n - |values| then Some(values[i - (n - |values|)]) else None)
  }

  /** The signal line and histogram of `_macd_fallback` for a MACD line: all
      NaN when fewer than `signal` MACD values are defined, otherwise the
      defined values of the EMA of the defined MACD values, right-aligned,
      and MACD minus signal. */
  function SignalOf(macd: Series, signal: int): (r: (Series, Series))
    requires signal >= 1
    ensures |r.0| == |r.1| == |macd|
  {
    var n := |macd|;
    var valid := Compact(macd);
    if |valid| < signal then (seq(n, i => None), seq(n, i => None))
    else
      EmaDefinedCount(valid, signal);
      CountDefinedBound(macd);
      var full := RightAlign(Compact(EmaSpec(valid, signal).value), n);
      (full, seq(n, i requires 0 <= i < n => Sub(macd[i], full[i])))
  }

  /** `_macd_fallback`: the difference of the fast and slow EMAs, with its
      signal line and histogram. */
  function MacdSpec(closes: seq<real>, fast: int, slow: int, signal: int): Result<(Series, Series, Series), PyExc>
    requires fast >= 1 && slow >= 1 && signal >= 1
  {
    match EmaSpec(closes, fast)
    case Err(e) => Err(e)
    case Ok(emaFast) =>
      match EmaSpec(closes, slow)
      case Err(e) => Err(e)
      case Ok(emaSlow) =>
        var macd := seq(|closes|, i requires 0 <= i < |closes| => Sub(emaFast[i], emaSlow[i]));
        var (sig, hist) := SignalOf(macd, signal);
        Ok((macd, sig, hist))
  }

  /** Too few MACD values: the signal line and the histogram are all NaN. */
  lemma MacdTooShort(macd: Series, signal: int, i: nat)
    requires signal >= 1 && i < |macd|
    requires |Compact(macd)| < signal
    ensures |SignalOf(macd, signal).0| == |SignalOf(macd, signal).1| == |macd|
    ensures SignalOf(macd, signal).0[i] == None && SignalOf(macd, signal).1[i] == None
  {
  }

  /** Otherwise the signal line is defined on exactly the last k entries,
      k = (defined MACD values) - signal + 1, and the histogram is MACD minus
      signal wherever both are defined. */
  lemma MacdSignalRightAligned(macd: Series, signal: int, i: nat)
    requires signal >= 1 && i < |macd|
    requires |Compact(macd)| >= signal
    ensures var (sig, hist) := SignalOf(macd, signal);
      var k := |Compact(macd)| - signal + 1;
      |sig| == |hist| == |macd| && (sig[i].Some? <==> i >= |macd| - k) &&
      hist[i] == Sub(macd[i], sig[i])
  {
    EmaDefinedCount(Compact(macd), signal);
  }

  // ---------------------------------------------------------------------
  // _bbands_fallback

  /** `np.std` of the window ending at index i. */
  function StdAt(closes: seq<real>, period: int, std: seq<real> -> real, i: int): Option<real> {
    if 1 <= period && period - 1 <= i < |closes| then Some(std(closes[i - period + 1..i + 1])) else None
  }

  function StdEntry(closes: seq<real>, period: int, std: seq<real> -> real): int -> Option<real> {
    i => StdAt(closes, period, std, i)
  }

  function Scale(a: Option<real>, k: real): Option<real> {
    if a.Some? then Some(a.value * k) else None
  }

  function Add(a: Option<real>, b: Option<real>): Option<real> {
    if a.Some? && b.Some? then Some(a.value + b.value) else None
  }

  /** The bands around a middle line: `middle ± sd·k`. */
  function Band(middle: Series, sd: Series, k: real, above: bool): (r: Series)
    requires |middle| == |sd|
    ensures |r| == |middle|
  {
    seq(|middle|, i requires 0 <= i < |middle| =>
      if above then Add(middle[i], Scale(sd[i], k)) else Sub(middle[i], Scale(sd[i], k)))
  }

  /** `_bbands_fallback`: (upper, middle, lower) with middle the SMA and the
      bands `middle ± std·nbdev`. */
  function BbandsSpec(closes: seq<real>, period: int, up: real, dn: real, std: seq<real> -> real): (Series, Series, Series)
    requires period >= 1
  {
    var middle := SmaSpec(Lift(closes), period);
    var sd := Filled(|closes|, period - 1, StdEntry(closes, period, std));
    (Band(middle, sd, up, true), middle, Band(middle, sd, dn, false))
  }

  /** The std loop of `_bbands_fallback`, then the bands. */
  method BbandsFallback(closes: seq<real>, period: int, up: real, dn: real, std: seq<real> -> real)
    returns (upper: Series, middle: Series, lower: Series)
    requires period >= 1
    ensures (upper, middle, lower) == BbandsSpec(closes, period, up, dn, std)
  {
    middle := SmaFallback(Lift(closes), period);
    var sd := FillFrom(|closes|, period - 1, StdEntry(closes, period, std));
    upper := Band(middle, sd, up, true);
    lower := Band(middle, sd, dn, false);
  }

  /** The three bands are defined at the same indices, from period-1 on, and
      sit at `std·nbdevup` above and `std·nbdevdn` below the middle band. */
  lemma BbandsInLockStep(closes: seq<real>, period: int, up: real, dn: real, std: seq<real> -> real, i: nat)
    requires period >= 1 && i < |closes|
    ensures var (upper, middle, lower) := BbandsSpec(closes, period, up, dn, std);
      |upper| == |middle| == |lower| == |closes| &&
      (upper[i].Some? <==> i >= period - 1) && (middle[i].Some? <==> i >= period - 1) &&
      (lower[i].Some? <==> i >= period - 1) &&
      (i >= period - 1 ==>
         upper[i].value - middle[i].value == std(closes[i - period + 1..i + 1]) * up &&
         middle[i].value - lower[i].value == std(closes[i - period + 1..i + 1]) * dn)
  {
    SmaDefinedAt(closes, period, i);
    var middle := SmaSpec(Lift(closes), period);
    var sd := Filled(|closes|, period - 1, StdEntry(closes, period, std));
    assert sd[i].Some? <==> i >= period - 1;
  }

  // ---------------------------------------------------------------------
  // _atr_fallback

  function Abs(x: real): real { if x < 0.0 then -x else x }
  function Max(a: real, b: real): real { if a >= b then a else b }

  /** The true range: `high - low` for the first bar, then the largest of
      `high - low`, `|high - prev close|` and `|low - prev close|`. */
  function TrueRange(high: seq<real>, low: seq<real>, closes: seq<real>): (tr: seq<real>)
    requires |high| == |low| == |closes|
    ensures |tr| == |closes|
  {
    seq(|closes|, i requires 0 <= i < |closes| =>
      if i == 0 then high[0] - low[0]
      else Max(high[i] - low[i], Max(Abs(high[i] - closes[i - 1]), Abs(low[i] - closes[i - 1]))))
  }

  /** `_atr_fallback`: the SMA of the true range; with no bars at all,
      writing `tr[0]` raises. */
  function AtrSpec(high: seq<real>, low: seq<real>, closes: seq<real>, period: int): Result<Series, PyExc>
    requires |high| == |low| == |closes| && period >= 1
  {
    if |closes| == 0 then Err(IndexError(0, 0))
    else Ok(SmaSpec(Lift(TrueRange(high, low, closes)), period))
  }

  lemma {:induction false} SumNonNegative(xs: seq<real>)
    requires forall j :: 0 <= j < |xs| ==> xs[j] >= 0.0
    ensures Sum(xs) >= 0.0
  {
    if xs != [] {
      SumNonNegative(xs[..|xs| - 1]);
    }
  }

  /** Every true range is at least the bar's own range, so the ATR of bars
      with high >= low is never negative. */
  lemma AtrNonNegative(high: seq<real>, low: seq<real>, closes: seq<real>, period: int, i: nat)
    requires |high| == |low| == |closes| && period >= 1
    requires forall j :: 0 <= j < |closes| ==> low[j] <= high[j]
    requires AtrSpec(high, low, closes, period).Ok? && i < |closes|
    requires AtrSpec(high, low, closes, period).value[i].Some?
    ensures AtrSpec(high, low, closes, period).value[i].value >= 0.0
  {
    var tr := TrueRange(high, low, closes);
    var w := Lift(tr)[i - period + 1..i + 1];
    assert AtrSpec(high, low, closes, period).value[i] == Mean(w);
    forall k | 0 <= k < |w| ensures w[k].Some? && w[k].value >= 0.0 {
      assert w[k] == Some(tr[i - period + 1 + k]);
    }
    MeanNonNegative(w);
  }

  lemma MeanNonNegative(w: Series)
    requires Mean(w).Some?
    requires forall k :: 0 <= k < |w| ==> w[k].Some? && w[k].value >= 0.0
    ensures Mean(w).value >= 0.0
  {
    SumNonNegative(Values(w));
  }

  // ---------------------------------------------------------------------
  // _stoch_fallback

  function MaxOf(xs: seq<real>): real
    requires |xs| > 0
  {
    if |xs| == 1 then xs[0] else Max(MaxOf(xs[..|xs| - 1]), xs[|xs| - 1])
  }

  function MinOf(xs: seq<real>): real
    requires |xs| > 0
  {
    if |xs| == 1 then xs[0] else (var m := MinOf(xs[..|xs| - 1]); if xs[|xs| - 1] < m then xs[|xs| - 1] else m)
  }

  /** %K at index i: 50 when the window is flat, otherwise where the close
      sits between the window's lowest low and highest high. */
  function StochAt(high: seq<real>, low: seq<real>, closes: seq<real>, period: int, i: int): Option<real> {
    if |high| == |low| == |closes| && 1 <= period && period - 1 <= i < |closes| then
      var highest := MaxOf(high[i - period + 1..i + 1]);
      var lowest := MinOf(low[i - period + 1..i + 1]);
      if highest != lowest then Some(100.0 * (closes[i] - lowest) / (highest - lowest)) else Some(50.0)
    else None
  }

  function StochEntry(high: seq<real>, low: seq<real>, closes: seq<real>, period: int): int -> Option<real> {
    i => StochAt(high, low, closes, period, i)
  }

  function StochSpec(high: seq<real>, low: seq<real>, closes: seq<real>, period: int): (Series, Series)
    requires |high| == |low| == |closes| && period >= 1
  {
    var k := Filled(|closes|, period - 1, StochEntry(high, low, closes, period));
    (k, SmaSpec(k, 3))
  }

  /** `_stoch_fallback`: the %K loop, then %D as the 3-bar SMA of %K. */
  method StochFallback(high: seq<real>, low: seq<real>, closes: seq<real>, period: int) returns (k: Series, d: Series)
    requires |high| == |low| == |closes| && period >= 1
    ensures (k, d) == StochSpec(high, low, closes, period)
  {
    k := FillFrom(|closes|, period - 1, StochEntry(high, low, closes, period));
    d := SmaFallback(k, 3);
  }

  lemma {:induction false} MaxOfBounds(xs: seq<real>, j: nat)
    requires |xs| > 0 && j < |xs|
    ensures xs[j] <= MaxOf(xs)
  {
    if |xs| > 1 && j < |xs| - 1 {
      MaxOfBounds(xs[..|xs| - 1], j);
    }
  }

  lemma {:induction false} MinOfBounds(xs: seq<real>, j: nat)
    requires |xs| > 0 && j < |xs|
    ensures MinOf(xs) <= xs[j]
  {
    if |xs| > 1 && j < |xs| - 1 {
      MinOfBounds(xs[..|xs| - 1], j);
    }
  }

  /** A fraction of a positive whole, as a percentage, lies in [0, 100]. */
  lemma PercentInRange(part: real, whole: real)
    requires 0.0 <= part <= whole && whole > 0.0
    ensures 0.0 <= 100.0 * part / whole <= 100.0
  {
    var q := 100.0 * part / whole;
    assert q * whole == 100.0 * part;
  }

  /** For bars whose close lies between their low and high, %K stays within
      [0, 100]. */
  lemma StochKInRange(high: seq<real>, low: seq<real>, closes: seq<real>, period: int, i: nat)
    requires |high| == |low| == |closes| && period >= 1 && period - 1 <= i < |closes|
    requires forall j :: 0 <= j < |closes| ==> low[j] <= closes[j] <= high[j]
    ensures StochAt(high, low, closes, period, i).Some?
    ensures 0.0 <= StochAt(high, low, closes, period, i).value <= 100.0
  {
    var hw := high[i - period + 1..i + 1];
    var lw := low[i - period + 1..i + 1];
    MaxOfBounds(hw, period - 1);
    MinOfBounds(lw, period - 1);
    var highest := MaxOf(hw);
    var lowest := MinOf(lw);
    if highest != lowest {
      PercentInRange(closes[i] - lowest, highest - lowest);
    }
  }

  // ---------------------------------------------------------------------
  // Public functions: TA-Lib when importable, else the fallback.

  function SMA(b: Backend, closes: seq<real>, period: int): Series
    requires period >= 1
  {
    if b.available then b.sma(closes, period) else SmaSpec(Lift(closes), period)
  }

  function EMA(b: Backend, closes: seq<real>, period: int): Result<Series, PyExc>
    requires period >= 1
  {
    if b.available then Ok(b.ema(closes, period)) else EmaSpec(closes, period)
  }

  /** Without TA-Lib, `_rsi_fallback` first stores its seed at index
      `period` of an array of n entries, which raises an IndexError unless
      -n <= period < n.  The values it computes after that are
      `rsiFallback`. */
  function RSI(b: Backend, closes: seq<real>, period: int): Result<Series, PyExc> {
    if b.available then Ok(b.rsi(closes, period))
    else if period >= |closes| || period < -|closes| then Err(IndexError(period, |closes|))
    else Ok(b.rsiFallback(closes, period))
  }

  /** With a positive period, RSI fails exactly when TA-Lib is missing and
      there are no more prices than the period, and it fails with the
      fallback's IndexError. */
  lemma RsiFailsOnShortInput(b: Backend, closes: seq<real>, period: int)
    requires period >= 1
    ensures RSI(b, closes, period).Err? <==> !b.available && period >= |closes|
    ensures RSI(b, closes, period).Err? ==> RSI(b, closes, period).error == IndexError(period, |closes|)
  {
  }

  function MACD(b: Backend, closes: seq<real>, fast: int, slow: int, signal: int): Result<(Series, Series, Series), PyExc>
    requires fast >= 1 && slow >= 1 && signal >= 1
  {
    if b.available then Ok(b.macd(closes, fast, slow, signal)) else MacdSpec(closes, fast, slow, signal)
  }

  function BBANDS(b: Backend, closes: seq<real>, period: int, up: real, dn: real): (Series, Series, Series)
    requires period >= 1
  {
    if b.available then b.bbands(closes, period, up, dn) else BbandsSpec(closes, period, up, dn, b.std)
  }

  function ATR(b: Backend, high: seq<real>, low: seq<real>, closes: seq<real>, period: int): Result<Series, PyExc>
    requires |high| == |low| == |closes| && period >= 1
  {
    if b.available then Ok(b.atr(high, low, closes, period)) else AtrSpec(high, low, closes, period)
  }

  /** STOCH with the wrapper's defaults for the smoothing arguments; the
      fallback uses only `fastk_period`. */
  function STOCH(b: Backend, high: seq<real>, low: seq<real>, closes: seq<real>, fastk: int,
                 slowk: int, slowkMatype: int, slowd: int, slowdMatype: int): (Series, Series)
    requires |high| == |low| == |closes| && fastk >= 1
  {
    if b.available then b.stoch(high, low, closes, fastk, slowk, slowkMatype, slowd, slowdMatype)
    else StochSpec(high, low, closes, fastk)
  }

  /** Whichever implementation runs, the three bands are defined together. */
  lemma BandsInLockStep(b: Backend, closes: seq<real>, period: int, up: real, dn: real)
    requires period >= 1
    ensures LockStep(BBANDS(b, closes, period, up, dn), |closes|)
  {
    if !b.available {
      forall i | 0 <= i < |closes|
        ensures var bb := BBANDS(b, closes, period, up, dn);
          (bb.0[i].Some? <==> bb.1[i].Some?) && (bb.2[i].Some? <==> bb.1[i].Some?)
      {
        BbandsInLockStep(closes, period, up, dn, b.std, i);
      }
    }
  }

  /** Whichever implementation runs, the one-series functions keep the input's
      length. */
  lemma PublicFunctionsKeepLength(b: Backend, closes: seq<real>, period: int, fast: int, slow: int, signal: int,
                                  up: real, dn: real)
    requires period >= 1 && fast >= 1 && slow >= 1 && signal >= 1
    ensures |SMA(b, closes, period)| == |closes|
    ensures RSI(b, closes, period).Ok? ==> |RSI(b, closes, period).value| == |closes|
    ensures EMA(b, closes, period).Ok? ==> |EMA(b, closes, period).value| == |closes|
    ensures MACD(b, closes, fast, slow, signal).Ok? ==>
      var m := MACD(b, closes, fast, slow, signal).value;
      |m.0| == |m.1| == |m.2| == |closes|
    ensures var bb := BBANDS(b, closes, period, up, dn); |bb.0| == |bb.1| == |bb.2| == |closes|
  {
    BandsInLockStep(b, closes, period, up, dn);
  }
}
