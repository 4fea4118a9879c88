/** `calculateATR` and `calculateADX` of public/app.js: the two indicators
    the browser computes itself from the loaded candles before a chart
    analysis.  Prices are real numbers; NaN results are None. */
module AppIndicators {
  import opened Wrappers

  datatype Bar = Bar(high: real, low: real, close: real)

  function Abs(x: real): real {
    if x < 0.0 then -x else x
  }

  function Max3(a: real, b: real, c: real): (m: real)
    ensures m >= a && m >= b && m >= c
    ensures m == a || m == b || m == c
  {
    if a >= b && a >= c then a else if b >= c then b else c
  }

  /** `max(high - low, |high - prevClose|, |low - prevClose|)`. */
  function TrueRange(prev: Bar, cur: Bar): (r: real)
    ensures r >= 0.0 && r >= cur.high - cur.low
    ensures r >= Abs(cur.high - prev.close) && r >= Abs(cur.low - prev.close)
  {
    Max3(cur.high - cur.low, Abs(cur.high - prev.close), Abs(cur.low - prev.close))
  }

  /** `+DM`: the rise of the high, when it beats the fall of the low. */
  function PlusDm(prev: Bar, cur: Bar): (r: real)
    ensures r >= 0.0
  {
    var highDiff := cur.high - prev.high;
    var lowDiff := prev.low - cur.low;
    if highDiff > lowDiff && highDiff > 0.0 then highDiff else 0.0
  }

  /** `-DM`: the fall of the low, when it beats the rise of the high. */
  function MinusDm(prev: Bar, cur: Bar): (r: real)
    ensures r >= 0.0
  {
    var highDiff := cur.high - prev.high;
    var lowDiff := prev.low - cur.low;
    if lowDiff > highDiff && lowDiff > 0.0 then lowDiff else 0.0
  }

  /** One value per pair of consecutive candles, from the second candle on. */
  function Steps(data: seq<Bar>, f: (Bar, Bar) -> real): (r: seq<real>)
    ensures |r| == if data == [] then 0 else |data| - 1
    ensures forall i :: 0 <= i < |r| ==> r[i] == f(data[i], data[i + 1])
  {
    if |data| < 2 then [] else Steps(data[..|data| - 1], f) + [f(data[|data| - 2], data[|data| - 1])]
  }

  lemma StepsPrefix(data: seq<Bar>, i: nat, f: (Bar, Bar) -> real)
    requires 1 <= i < |data|
    ensures Steps(data[..i + 1], f) == Steps(data[..i], f) + [f(data[i - 1], data[i])]
  {
    assert data[..i + 1][..i] == data[..i];
  }

  function Sum(xs: seq<real>): real {
    if xs == [] then 0.0 else Sum(xs[..|xs| - 1]) + xs[|xs| - 1]
  }

  /** Wilder's update of an average by one value. */
  function WilderStep(average: real, x: real, period: nat): real
    requires period >= 1
  {
    (average * (period - 1) as real + x) / period as real
  }

  /** The mean of the first `period` values, then Wilder's update for each
      further value. */
  function WilderAverage(xs: seq<real>, period: nat): real
    requires 1 <= period <= |xs|
  {
    if |xs| == period then Sum(xs) / period as real
    else WilderStep(WilderAverage(xs[..|xs| - 1], period), xs[|xs| - 1], period)
  }

  lemma {:induction false} SumBounds(xs: seq<real>, lo: real, hi: real)
    requires forall i :: 0 <= i < |xs| ==> lo <= xs[i] <= hi
    ensures lo * |xs| as real <= Sum(xs) <= hi * |xs| as real
  {
    if xs != [] {
      SumBounds(xs[..|xs| - 1], lo, hi);
    }
  }

  lemma StepBounds(avg: real, x: real, period: nat, lo: real, hi: real)
    requires period >= 1 && lo <= avg <= hi && lo <= x <= hi
    ensures lo <= WilderStep(avg, x, period) <= hi
  {
    var q := (period - 1) as real;
    assert period as real == q + 1.0;
    assert avg * q >= lo * q && avg * q <= hi * q;
    assert lo * period as real == lo * q + lo && hi * period as real == hi * q + hi;
    assert lo * period as real <= avg * q + x <= hi * period as real;
  }

  lemma MeanBounds(total: real, period: nat, lo: real, hi: real)
    requires period >= 1 && lo * period as real <= total <= hi * period as real
    ensures lo <= total / period as real <= hi
  {
  }

  /** A Wilder average stays within any bounds its values keep. */
  lemma {:induction false} WilderAverageBounds(xs: seq<real>, period: nat, lo: real, hi: real)
    requires 1 <= period <= |xs|
    requires forall i :: 0 <= i < |xs| ==> lo <= xs[i] <= hi
    ensures lo <= WilderAverage(xs, period) <= hi
  {
    if |xs| == period {
      SumBounds(xs, lo, hi);
      MeanBounds(Sum(xs), period, lo, hi);
    } else {
      var init := xs[..|xs| - 1];
      assert forall i :: 0 <= i < |init| ==> init[i] == xs[i];
      WilderAverageBounds(init, period, lo, hi);
      StepBounds(WilderAverage(init, period), xs[|xs| - 1], period, lo, hi);
    }
  }

  /** `calculateATR(data, period)`: None when there are fewer than
      `period + 1` candles, and for a zero period, where the source's mean
      divides zero by zero. */
  function Atr(data: seq<Bar>, period: nat): Option<real> {
    if |data| < period + 1 || period == 0 then None
    else Some(WilderAverage(Steps(data, TrueRange), period))
  }

  /** The true ranges of `calculateATR`'s first loop. */
  method TrueRanges(data: seq<Bar>) returns (trueRanges: seq<real>)
    requires data != []
    ensures trueRanges == Steps(data, TrueRange)
  {
    trueRanges := [];
    var i := 1;
    while i < |data|
      invariant 1 <= i <= |data|
      invariant trueRanges == Steps(data[..i], TrueRange)
    {
      StepsPrefix(data, i, TrueRange);
      trueRanges := trueRanges + [TrueRange(data[i - 1], data[i])];
      i := i + 1;
    }
    assert data[..|data|] == data;
  }

  /** The closing loop of both `calculateATR` and `calculateADX`: the mean
      of the first `period` values, then Wilder's update for each further one. */
  method SmoothedAverage(xs: seq<real>, period: nat) returns (average: real)
    requires 1 <= period <= |xs|
    ensures average == WilderAverage(xs, period)
  {
    average := Sum(xs[..period]) / period as real;
    var k := period;
    while k < |xs|
      invariant period <= k <= |xs|
      invariant average == WilderAverage(xs[..k], period)
    {
      assert xs[..k + 1][..k] == xs[..k];
      average := WilderStep(average, xs[k], period);
      k := k + 1;
    }
    assert xs[..|xs|] == xs;
  }

  method CalculateAtr(data: seq<Bar>, period: nat) returns (atr: Option<real>)
    ensures atr == Atr(data, period)
  {
    if |data| < period + 1 {
      return None;
    }
    if period == 0 {
      return None;
    }
    var trueRanges := TrueRanges(data);
    var average := SmoothedAverage(trueRanges, period);
    return Some(average);
  }

  /** ATR stays within the bounds of the true ranges; in particular it is
      never negative, and a constant true range is its own ATR. */
  lemma AtrBounds(data: seq<Bar>, period: nat, lo: real, hi: real)
    requires Atr(data, period).Some?
    requires forall i :: 0 <= i < |data| - 1 ==> lo <= TrueRange(data[i], data[i + 1]) <= hi
    ensures lo <= Atr(data, period).value <= hi
  {
    var trs := Steps(data, TrueRange);
    forall i | 0 <= i < |trs|
      ensures lo <= trs[i] <= hi
    {
      assert trs[i] == TrueRange(data[i], data[i + 1]);
    }
    WilderAverageBounds(trs, period, lo, hi);
  }

  /** A market whose true range never changes has that range as its ATR. */
  lemma AtrConstant(data: seq<Bar>, period: nat, c: real)
    requires Atr(data, period).Some?
    requires forall i :: 0 <= i < |data| - 1 ==> TrueRange(data[i], data[i + 1]) == c
    ensures Atr(data, period).value == c
  {
    AtrBounds(data, period, c, c);
  }

  lemma AtrNonNegative(data: seq<Bar>, period: nat)
    requires Atr(data, period).Some?
    ensures Atr(data, period).value >= 0.0
  {
    var trs := Steps(data, TrueRange);
    MaxIsMax(trs);
    forall i | 0 <= i < |trs|
      ensures 0.0 <= trs[i] <= Max(trs)
    {
      assert trs[i] == TrueRange(data[i], data[i + 1]);
    }
    WilderAverageBounds(trs, period, 0.0, Max(trs));
  }

  function Max(xs: seq<real>): real {
    if xs == [] then 0.0
    else if xs[|xs| - 1] >= Max(xs[..|xs| - 1]) then xs[|xs| - 1] else Max(xs[..|xs| - 1])
  }

  lemma {:induction false} MaxIsMax(xs: seq<real>)
    ensures forall i :: 0 <= i < |xs| ==> xs[i] <= Max(xs)
  {
    if xs != [] {
      MaxIsMax(xs[..|xs| - 1]);
      assert forall i :: 0 <= i < |xs| - 1 ==> xs[i] == xs[..|xs| - 1][i];
    }
  }

  /** The guard: ATR needs one candle more than its period. */
  lemma AtrGuard(data: seq<Bar>, period: nat)
    ensures Atr(data, period).None? <==> period == 0 || |data| <= period
  {
  }

  /** Wilder's running sums: the sum of the first `period` values, then
      for each further value `sum - sum / period + value`. */
  function WilderSums(xs: seq<real>, period: nat): (r: seq<real>)
    requires 1 <= period <= |xs|
    ensures |r| == |xs| - period + 1
  {
    if |xs| == period then [Sum(xs)]
    else
      var s := WilderSums(xs[..|xs| - 1], period);
      s + [WilderSumStep(s[|s| - 1], xs[|xs| - 1], period)]
  }

  function WilderSumStep(sum: real, x: real, period: nat): real
    requires period >= 1
  {
    sum - sum / period as real + x
  }

  /** Running sums of non-negative values stay non-negative. */
  lemma {:induction false} WilderSumsNonNegative(xs: seq<real>, period: nat)
    requires 1 <= period <= |xs|
    requires forall i :: 0 <= i < |xs| ==> xs[i] >= 0.0
    ensures forall i :: 0 <= i < |WilderSums(xs, period)| ==> WilderSums(xs, period)[i] >= 0.0
  {
    if |xs| == period {
      MaxIsMax(xs);
      SumBounds(xs, 0.0, Max(xs));
    } else {
      var init := xs[..|xs| - 1];
      assert forall i :: 0 <= i < |init| ==> init[i] == xs[i];
      WilderSumsNonNegative(init, period);
      var s := WilderSums(init, period);
      ShrinkByPeriod(s[|s| - 1], period);
    }
  }

  lemma ShrinkByPeriod(sum: real, period: nat)
    requires sum >= 0.0 && period >= 1
    ensures 0.0 <= sum / period as real <= sum
  {
    var p := period as real;
    assert sum / p * p == sum;
    assert sum <= sum * p;
  }

  /** `+DI` or `-DI`: a smoothed movement as a percentage of the smoothed
      true range, 0 when that is 0. */
  function Di(movement: real, range: real): real {
    if range != 0.0 then movement / range * 100.0 else 0.0
  }

  /** `DX`: how far apart the two indices are, as a percentage of their sum. */
  function Dx(plusDi: real, minusDi: real): real {
    var sum := plusDi + minusDi;
    if sum != 0.0 then Abs(plusDi - minusDi) / sum * 100.0 else 0.0
  }

  function DxSeries(plus: seq<real>, minus: seq<real>, range: seq<real>): (r: seq<real>)
    requires |plus| == |range| && |minus| == |range|
    ensures |r| == |range|
  {
    seq(|range|, i requires 0 <= i < |range| => Dx(Di(plus[i], range[i]), Di(minus[i], range[i])))
  }

  /** The `DX` series of `calculateADX`, from its running sums. */
  function AdxDx(data: seq<Bar>, period: nat): (r: seq<real>)
    requires 1 <= period && 2 * period <= |data|
  {
    DxSeries(WilderSums(Steps(data, PlusDm), period), WilderSums(Steps(data, MinusDm), period),
             WilderSums(Steps(data, TrueRange), period))
  }

  /** `calculateADX(data, period)`: None when there are fewer than
      `2 * period` candles, for a zero period (the running sums divide by
      it), and when the `DX` series is shorter than the period. */
  function Adx(data: seq<Bar>, period: nat): Option<real> {
    if |data| < 2 * period || period == 0 then None
    else
      var dx := AdxDx(data, period);
      if |dx| < period then None else Some(WilderAverage(dx, period))
  }

  /** The second guard of `calculateADX` never fires: past the first, the
      `DX` series has `|data| - period` values, at least `period`. */
  lemma AdxSecondGuardUnreachable(data: seq<Bar>, period: nat)
    requires 1 <= period && 2 * period <= |data|
    ensures |AdxDx(data, period)| == |data| - period >= period
  {
  }

  lemma DxRange(plusDi: real, minusDi: real)
    requires plusDi >= 0.0 && minusDi >= 0.0
    ensures 0.0 <= Dx(plusDi, minusDi) <= 100.0
  {
    var sum := plusDi + minusDi;
    if sum != 0.0 {
      assert Abs(plusDi - minusDi) <= sum;
      assert Abs(plusDi - minusDi) / sum <= 1.0;
    }
  }

  lemma DiNonNegative(movement: real, range: real)
    requires movement >= 0.0 && range >= 0.0
    ensures Di(movement, range) >= 0.0
  {
  }

  lemma AllNonNegative(xs: seq<real>)
    requires forall i :: 0 <= i < |xs| ==> xs[i] >= 0.0
    ensures forall i :: 0 <= i < |xs| ==> 0.0 <= xs[i]
  {
  }

  /** Every `DX` of non-negative running sums is a percentage. */
  lemma DxSeriesRange(plus: seq<real>, minus: seq<real>, range: seq<real>)
    requires |plus| == |range| && |minus| == |range|
    requires forall i :: 0 <= i < |plus| ==> plus[i] >= 0.0
    requires forall i :: 0 <= i < |minus| ==> minus[i] >= 0.0
    requires forall i :: 0 <= i < |range| ==> range[i] >= 0.0
    ensures forall i :: 0 <= i < |range| ==> 0.0 <= DxSeries(plus, minus, range)[i] <= 100.0
  {
    forall i | 0 <= i < |range|
      ensures 0.0 <= DxSeries(plus, minus, range)[i] <= 100.0
    {
      DiNonNegative(plus[i], range[i]);
      DiNonNegative(minus[i], range[i]);
      DxRange(Di(plus[i], range[i]), Di(minus[i], range[i]));
    }
  }

  lemma StepsNonNegative(data: seq<Bar>, f: (Bar, Bar) -> real)
    requires forall a, b :: f(a, b) >= 0.0
    ensures forall i :: 0 <= i < |Steps(data, f)| ==> Steps(data, f)[i] >= 0.0
  {
  }

  /** ADX is a percentage: it always lies between 0 and 100. */
  lemma AdxRange(data: seq<Bar>, period: nat)
    requires Adx(data, period).Some?
    ensures 0.0 <= Adx(data, period).value <= 100.0
  {
    StepsNonNegative(data, PlusDm);
    StepsNonNegative(data, MinusDm);
    StepsNonNegative(data, TrueRange);
    WilderSumsNonNegative(Steps(data, PlusDm), period);
    WilderSumsNonNegative(Steps(data, MinusDm), period);
    WilderSumsNonNegative(Steps(data, TrueRange), period);
    DxSeriesRange(WilderSums(Steps(data, PlusDm), period), WilderSums(Steps(data, MinusDm), period),
                  WilderSums(Steps(data, TrueRange), period));
    WilderAverageBounds(AdxDx(data, period), period, 0.0, 100.0);
  }

  /** The movement and true-range series of `calculateADX`'s first loop. */
  method Movements(data: seq<Bar>) returns (plusDm: seq<real>, minusDm: seq<real>, tr: seq<real>)
    requires data != []
    ensures plusDm == Steps(data, PlusDm) && minusDm == Steps(data, MinusDm) && tr == Steps(data, TrueRange)
  {
    plusDm, minusDm, tr := [], [], [];
    var i := 1;
    while i < |data|
      invariant 1 <= i <= |data|
      invariant plusDm == Steps(data[..i], PlusDm)
      invariant minusDm == Steps(data[..i], MinusDm)
      invariant tr == Steps(data[..i], TrueRange)
    {
      StepsPrefix(data, i, PlusDm);
      StepsPrefix(data, i, MinusDm);
      StepsPrefix(data, i, TrueRange);
      plusDm := plusDm + [PlusDm(data[i - 1], data[i])];
      minusDm := minusDm + [MinusDm(data[i - 1], data[i])];
      tr := tr + [TrueRange(data[i - 1], data[i])];
      i := i + 1;
    }
    assert data[..|data|] == data;
  }

  lemma WilderSumsPrefix(xs: seq<real>, period: nat, i: nat)
    requires 1 <= period <= i < |xs|
    ensures WilderSums(xs[..i + 1], period) ==
            var s := WilderSums(xs[..i], period);
            s + [WilderSumStep(s[|s| - 1], xs[i], period)]
  {
    assert xs[..i + 1][..i] == xs[..i];
  }

  /** The three running sums of `calculateADX`'s smoothing loop. */
  method Smooth(plusDm: seq<real>, minusDm: seq<real>, tr: seq<real>, period: nat)
    returns (smoothPlus: seq<real>, smoothMinus: seq<real>, smoothTr: seq<real>)
    requires 1 <= period <= |tr| && |plusDm| == |tr| && |minusDm| == |tr|
    ensures smoothPlus == WilderSums(plusDm, period)
    ensures smoothMinus == WilderSums(minusDm, period)
    ensures smoothTr == WilderSums(tr, period)
  {
    var sumPlus := Sum(plusDm[..period]);
    var sumMinus := Sum(minusDm[..period]);
    var sumTr := Sum(tr[..period]);
    smoothPlus, smoothMinus, smoothTr := [sumPlus], [sumMinus], [sumTr];
    var i := period;
    while i < |plusDm|
      invariant period <= i <= |plusDm|
      invariant smoothPlus == WilderSums(plusDm[..i], period) && sumPlus == smoothPlus[|smoothPlus| - 1]
      invariant smoothMinus == WilderSums(minusDm[..i], period) && sumMinus == smoothMinus[|smoothMinus| - 1]
      invariant smoothTr == WilderSums(tr[..i], period) && sumTr == smoothTr[|smoothTr| - 1]
    {
      WilderSumsPrefix(plusDm, period, i);
      WilderSumsPrefix(minusDm, period, i);
      WilderSumsPrefix(tr, period, i);
      sumPlus := WilderSumStep(sumPlus, plusDm[i], period);
      sumMinus := WilderSumStep(sumMinus, minusDm[i], period);
      sumTr := WilderSumStep(sumTr, tr[i], period);
      smoothPlus := smoothPlus + [sumPlus];
      smoothMinus := smoothMinus + [sumMinus];
      smoothTr := smoothTr + [sumTr];
      i := i + 1;
    }
    assert plusDm[..|plusDm|] == plusDm && minusDm[..|minusDm|] == minusDm && tr[..|tr|] == tr;
  }

  /** `calculateADX`'s `+DI`/`-DI` loop followed by its `DX` loop. */
  method DirectionalIndex(smoothPlus: seq<real>, smoothMinus: seq<real>, smoothTr: seq<real>) returns (dx: seq<real>)
    requires |smoothPlus| == |smoothTr| && |smoothMinus| == |smoothTr|
    ensures dx == DxSeries(smoothPlus, smoothMinus, smoothTr)
  {
    var plusDi: seq<real> := [];
    var minusDi: seq<real> := [];
    var i := 0;
    while i < |smoothPlus|
      invariant 0 <= i <= |smoothPlus| && |plusDi| == i && |minusDi| == i
      invariant forall k :: 0 <= k < i ==> plusDi[k] == Di(smoothPlus[k], smoothTr[k])
      invariant forall k :: 0 <= k < i ==> minusDi[k] == Di(smoothMinus[k], smoothTr[k])
    {
      plusDi := plusDi + [Di(smoothPlus[i], smoothTr[i])];
      minusDi := minusDi + [Di(smoothMinus[i], smoothTr[i])];
      i := i + 1;
    }
    dx := [];
    var j := 0;
    while j < |plusDi|
      invariant 0 <= j <= |plusDi| && |dx| == j
      invariant forall k :: 0 <= k < j ==> dx[k] == Dx(plusDi[k], minusDi[k])
    {
      dx := dx + [Dx(plusDi[j], minusDi[j])];
      j := j + 1;
    }
  }

  method CalculateAdx(data: seq<Bar>, period: nat) returns (adx: Option<real>)
    ensures adx == Adx(data, period)
  {
    if |data| < period * 2 {
      return None;
    }
    if period == 0 {
      return None;
    }
    var plusDm, minusDm, tr := Movements(data);
    var smoothPlus, smoothMinus, smoothTr := Smooth(plusDm, minusDm, tr, period);
    var dx := DirectionalIndex(smoothPlus, smoothMinus, smoothTr);
    AdxSecondGuardUnreachable(data, period);
    var average := SmoothedAverage(dx, period);
    return Some(average);
  }
}
