/** The checks public/app.js runs before asking for a chart analysis:
    `checkChartQuality`, which collects warnings and suggestions about the
    loaded candles and the visible part of the chart, and
    `performPreAnalysisCheck`, which decides from them whether to go on.
    The loaded data is its candles' times, the visible range of the chart
    is a parameter (None when there is no chart, it has no range or reading
    it throws), and so are the browser's stored settings and the answer the
    user gives in the warning dialog. */
module AppQuality {
  import opened Wrappers
  import opened Strings

  const MinCandles: nat := 50
  const RecommendedCandles: nat := 100
  const MaxCandlesStandard: nat := 200
  const MaxCandlesHd: nat := 500
  const MinVisibleCandles: nat := 20
  const WarningShownKey: string := "visionQualityWarningShown"

  datatype Quality = Quality(valid: bool, warnings: seq<string>, suggestions: seq<string>,
                             candleCount: Option<nat>, hasMinimumData: Option<bool>)

  /** The number of candles whose time lies in `[from, to]`. */
  function VisibleCount(times: seq<int>, from: int, to: int): (n: nat)
    ensures n <= |times|
  {
    if times == [] then 0
    else VisibleCount(times[..|times| - 1], from, to) + (if from <= times[|times| - 1] <= to then 1 else 0)
  }

  /** Every candle counts when the range spans them all. */
  lemma {:induction false} AllVisible(times: seq<int>, from: int, to: int)
    requires forall i :: 0 <= i < |times| ==> from <= times[i] <= to
    ensures VisibleCount(times, from, to) == |times|
  {
    if times != [] {
      AllVisible(times[..|times| - 1], from, to);
    }
  }

  /** No candle counts when the range is empty. */
  lemma {:induction false} NoneVisible(times: seq<int>, from: int, to: int)
    requires to < from
    ensures VisibleCount(times, from, to) == 0
  {
    if times != [] {
      NoneVisible(times[..|times| - 1], from, to);
    }
  }

  const NoDataWarning: string := "チャートデータが読み込まれていません"
  const NoDataSuggestion: string := "左側のパネルから銘柄を選択し、「Load Data」ボタンをクリックしてデータを読み込んでください"

  function ModeName(isHd: bool): string {
    if isHd then "高解像度モード" else "通常モード"
  }

  function MaxCandles(isHd: bool): nat {
    if isHd then MaxCandlesHd else MaxCandlesStandard
  }

  function TooManyWarning(count: nat, isHd: bool): string {
    "ローソク足が多すぎます（現在: " + NatToString(count) + "本 / " + ModeName(isHd) + "上限: "
    + NatToString(MaxCandles(isHd)) + "本）"
  }

  const HdSuggestion: string := "または、「高解像度分析」モード（上限500本、コスト2倍）をご利用ください"

  function TooManySuggestions(isHd: bool): seq<string> {
    ["Range（データ期間）を短くして、ローソク足数を減らしてください",
     "または、チャートを拡大して可視範囲のローソク足を減らしてください"]
    + (if isHd then [] else [HdSuggestion])
  }

  function InsufficientWarning(count: nat): string {
    "データ量が不足しています（現在: " + NatToString(count) + "本 / 最低推奨: " + NatToString(MinCandles) + "本）"
  }

  const InsufficientSuggestion: string :=
    "Range（データ範囲）を「5 Days」または「1 Week」に変更して、より多くのデータを読み込んでください"

  /** The text by which the advisory warning is recognised. */
  const MoreDataMark: string := "より多くのデータ"

  function RecommendedWarning(count: nat): string {
    MoreDataMark + "があると分析精度が向上します（現在: " + NatToString(count) + "本 / 推奨: "
    + NatToString(RecommendedCandles) + "本以上）"
  }

  const RecommendedSuggestion: string := "Range（データ範囲）を「1 Week」または「1 Month」に変更することをお勧めします"

  function ZoomedOutWarning(visible: nat): string {
    "チャートが縮小されすぎています（可視ローソク足: 約" + NatToString(visible) + "本）"
  }

  const ZoomSuggestions: seq<string> :=
    ["マウスホイールまたはピンチ操作でチャートを拡大してください",
     "ローソク足の形状が明確に見える程度まで拡大することをお勧めします"]

  /** `warnings[0].includes('より多くのデータ')`. */
  predicate Includes(s: string, pattern: string) {
    IndexOfFrom(s, pattern, 0).Some?
  }

  /** Whether the visible range, when there is one, shows too few candles. */
  predicate ZoomedOut(times: seq<int>, visibleRange: Option<(int, int)>) {
    visibleRange.Some? && VisibleCount(times, visibleRange.value.0, visibleRange.value.1) < MinVisibleCandles
  }

  /** The warnings for loaded candles, in the order they are pushed. */
  function Warnings(times: seq<int>, isHd: bool, visibleRange: Option<(int, int)>): seq<string> {
    var n := |times|;
    (if n > MaxCandles(isHd) then [TooManyWarning(n, isHd)] else [])
    + (if n < MinCandles then [InsufficientWarning(n)] else [])
    + (if MinCandles <= n < RecommendedCandles then [RecommendedWarning(n)] else [])
    + (if ZoomedOut(times, visibleRange)
       then [ZoomedOutWarning(VisibleCount(times, visibleRange.value.0, visibleRange.value.1))] else [])
  }

  function Suggestions(times: seq<int>, isHd: bool, visibleRange: Option<(int, int)>): seq<string> {
    var n := |times|;
    (if n > MaxCandles(isHd) then TooManySuggestions(isHd) else [])
    + (if n < MinCandles then [InsufficientSuggestion] else [])
    + (if MinCandles <= n < RecommendedCandles then [RecommendedSuggestion] else [])
    + (if ZoomedOut(times, visibleRange) then ZoomSuggestions else [])
  }

  /** `checkChartQuality(isHDMode)` with `currentData` given by its candles'
      times (None when nothing is loaded). */
  function CheckChartQuality(data: Option<seq<int>>, isHd: bool, visibleRange: Option<(int, int)>): Quality {
    if data.None? || data.value == [] then
      Quality(false, [NoDataWarning], [NoDataSuggestion], None, None)
    else
      var times := data.value;
      var warnings := Warnings(times, isHd, visibleRange);
      var valid := warnings == [] ||
                   (|times| >= MinCandles && |warnings| == 1 && Includes(warnings[0], MoreDataMark));
      Quality(valid, warnings, Suggestions(times, isHd, visibleRange), Some(|times|), Some(|times| >= MinCandles))
  }

  /** A text that contains the mark contains its first character. */
  lemma MarkAbsent(s: string)
    ensures Includes(s, MoreDataMark) ==> 'よ' in s
  {
    if Includes(s, MoreDataMark) {
      var i := IndexOfFrom(s, MoreDataMark, 0).value;
      assert s[i..i + |MoreDataMark|] == MoreDataMark;
      assert s[i] == 'よ';
    }
  }

  lemma NumeralHasNoYo(n: nat)
    ensures 'よ' !in NatToString(n)
  {
    var s := NatToString(n);
    forall i | 0 <= i < |s|
      ensures s[i] != 'よ'
    {
      assert '0' <= s[i] <= '9';
    }
  }

  lemma TooManyLacksMark(count: nat, isHd: bool)
    ensures !Includes(TooManyWarning(count, isHd), MoreDataMark)
  {
    NumeralHasNoYo(count);
    NumeralHasNoYo(MaxCandles(isHd));
    assert 'よ' !in "ローソク足が多すぎます（現在: ";
    assert 'よ' !in "本 / " && 'よ' !in "上限: " && 'よ' !in "本）";
    assert 'よ' !in ModeName(isHd);
    MarkAbsent(TooManyWarning(count, isHd));
  }

  lemma InsufficientLacksMark(count: nat)
    ensures !Includes(InsufficientWarning(count), MoreDataMark)
  {
    NumeralHasNoYo(count);
    NumeralHasNoYo(MinCandles);
    assert 'よ' !in "データ量が不足しています（現在: ";
    assert 'よ' !in "本 / 最低推奨: " && 'よ' !in "本）";
    MarkAbsent(InsufficientWarning(count));
  }

  lemma ZoomedOutLacksMark(visible: nat)
    ensures !Includes(ZoomedOutWarning(visible), MoreDataMark)
  {
    NumeralHasNoYo(visible);
    assert 'よ' !in "チャートが縮小されすぎています（可視ローソク足: 約";
    assert 'よ' !in "本）";
    MarkAbsent(ZoomedOutWarning(visible));
  }

  lemma AdvisoryHasMark(count: nat)
    ensures Includes(RecommendedWarning(count), MoreDataMark)
  {
    var s := RecommendedWarning(count);
    assert s[0..|MoreDataMark|] == MoreDataMark;
    assert OccursAt(s, MoreDataMark, 0);
  }

  /** The loaded candles pass exactly when there are between 50 and the
      mode's maximum of them and, where the visible range is known, at
      least 20 are in view; the advisory for fewer than 100 does not fail
      the check on its own. */
  lemma ValidIff(data: Option<seq<int>>, isHd: bool, visibleRange: Option<(int, int)>)
    ensures CheckChartQuality(data, isHd, visibleRange).valid <==>
            data.Some? && MinCandles <= |data.value| <= MaxCandles(isHd) && !ZoomedOut(data.value, visibleRange)
  {
    if data.Some? && data.value != [] {
      var times := data.value;
      var n := |times|;
      var w := Warnings(times, isHd, visibleRange);
      var visible := if visibleRange.Some? then VisibleCount(times, visibleRange.value.0, visibleRange.value.1) else 0;
      var q := CheckChartQuality(data, isHd, visibleRange);
      assert q.valid == (w == [] || (n >= MinCandles && |w| == 1 && Includes(w[0], MoreDataMark)));
      var z := ZoomedOut(times, visibleRange);
      var zw := if z then [ZoomedOutWarning(visible)] else [];
      if n > MaxCandles(isHd) {
        assert w == [TooManyWarning(n, isHd)] + zw;
        TooManyLacksMark(n, isHd);
      } else if n < MinCandles {
        assert w == [InsufficientWarning(n)] + zw;
      } else if n < RecommendedCandles {
        assert w == [RecommendedWarning(n)] + zw;
        AdvisoryHasMark(n);
      } else {
        assert w == zw;
        ZoomedOutLacksMark(visible);
      }
    }
  }

  /** `hasMinimumData` and `candleCount` are reported only for loaded data,
      and the former says there are at least 50 candles. */
  lemma MinimumDataReported(data: Option<seq<int>>, isHd: bool, visibleRange: Option<(int, int)>)
    ensures var q := CheckChartQuality(data, isHd, visibleRange);
            (q.hasMinimumData == Some(true) <==> data.Some? && |data.value| >= MinCandles)
            && (q.candleCount.Some? <==> data.Some? && data.value != [])
            && (q.candleCount.Some? ==> q.candleCount.value == |data.value|)
  {
  }

  function Indicator(b: bool): nat {
    if b then 1 else 0
  }

  /** Nothing loaded gives one warning and one suggestion; loaded candles
      get one warning for each rule they break (too many, too few, fewer
      than recommended, zoomed out), with three suggestions for too many in
      standard mode, two in high-resolution mode, one for too few or fewer
      than recommended, and two for zoomed out. */
  lemma WarningCounts(data: Option<seq<int>>, isHd: bool, visibleRange: Option<(int, int)>)
    ensures data.None? || data.value == [] ==>
            CheckChartQuality(data, isHd, visibleRange) == Quality(false, [NoDataWarning], [NoDataSuggestion], None, None)
    ensures data.Some? && data.value != [] ==>
            var q := CheckChartQuality(data, isHd, visibleRange);
            var n := |data.value|;
            var zoomed := ZoomedOut(data.value, visibleRange);
            |q.warnings| == Indicator(n > MaxCandles(isHd)) + Indicator(n < MinCandles)
                            + Indicator(MinCandles <= n < RecommendedCandles) + Indicator(zoomed)
            && |q.suggestions| == (if n > MaxCandles(isHd) then (if isHd then 2 else 3) else 0) + Indicator(n < MinCandles)
                                  + Indicator(MinCandles <= n < RecommendedCandles) + 2 * Indicator(zoomed)
  {
  }

  /** A failed check always carries a warning to show. */
  lemma InvalidHasWarnings(data: Option<seq<int>>, isHd: bool, visibleRange: Option<(int, int)>)
    ensures !CheckChartQuality(data, isHd, visibleRange).valid ==> CheckChartQuality(data, isHd, visibleRange).warnings != []
  {
  }

  /** The high-resolution mode is suggested only in standard mode, and only
      when there are too many candles. */
  lemma HdSuggestedOnlyInStandardMode(data: Option<seq<int>>, isHd: bool, visibleRange: Option<(int, int)>)
    ensures HdSuggestion in CheckChartQuality(data, isHd, visibleRange).suggestions <==>
            !isHd && data.Some? && |data.value| > MaxCandlesStandard
  {
    var q := CheckChartQuality(data, isHd, visibleRange);
    if data.Some? && data.value != [] {
      var times := data.value;
      var n := |times|;
      assert HdSuggestion != InsufficientSuggestion;
      assert HdSuggestion != RecommendedSuggestion;
      assert HdSuggestion !in ZoomSuggestions;
      assert HdSuggestion !in TooManySuggestions(true);
      if !isHd && n > MaxCandlesStandard {
        assert q.suggestions[2] == HdSuggestion;
      }
    } else {
      assert q.suggestions == [NoDataSuggestion];
    }
  }

  /** What `performPreAnalysisCheck` does: whether it shows the first-use
      guide, whether it opens the warning dialog, and whether the analysis
      goes on. */
  datatype PreCheck = PreCheck(showsGuide: bool, showsDialog: bool, proceeds: bool)

  /** `performPreAnalysisCheck(isHDMode)`: `guideShown` and `warningSkipped`
      are the stored settings (None when absent), `dialog` the user's answer
      to the warning dialog for a given check result. */
  function PerformPreAnalysisCheck(guideShown: Option<string>, warningSkipped: Option<string>,
                                   data: Option<seq<int>>, isHd: bool, visibleRange: Option<(int, int)>,
                                   dialog: Quality -> bool): PreCheck {
    var showsGuide := guideShown.None? || guideShown.value == "";
    var q := CheckChartQuality(data, isHd, visibleRange);
    if q.valid && q.warnings == [] then PreCheck(showsGuide, false, true)
    else if warningSkipped == Some("true") && q.hasMinimumData == Some(true) then PreCheck(showsGuide, false, true)
    else if |q.warnings| > 0 then PreCheck(showsGuide, true, dialog(q))
    else PreCheck(showsGuide, false, true)
  }

  /** The analysis goes on without asking exactly when the check found
      nothing, or the user chose to skip warnings and there are at least 50
      candles; otherwise the dialog decides.  The closing `return true` is
      therefore never reached. */
  lemma PreAnalysisDecision(guideShown: Option<string>, warningSkipped: Option<string>,
                            data: Option<seq<int>>, isHd: bool, visibleRange: Option<(int, int)>,
                            dialog: Quality -> bool)
    ensures var q := CheckChartQuality(data, isHd, visibleRange);
            var p := PerformPreAnalysisCheck(guideShown, warningSkipped, data, isHd, visibleRange, dialog);
            (!p.showsDialog <==> q.warnings == [] || (warningSkipped == Some("true") && data.Some? && |data.value| >= MinCandles))
            && (p.showsDialog ==> p.proceeds == dialog(q))
            && (!p.showsDialog ==> p.proceeds)
  {
    var q := CheckChartQuality(data, isHd, visibleRange);
    InvalidHasWarnings(data, isHd, visibleRange);
    MinimumDataReported(data, isHd, visibleRange);
    ValidIff(data, isHd, visibleRange);
    if q.warnings == [] {
      assert q.valid;
    }
  }

  /** With nothing loaded the dialog is always shown, even when warnings
      are set to be skipped; the guide is shown until it has been seen. */
  lemma NoDataAsks(guideShown: Option<string>, warningSkipped: Option<string>, isHd: bool,
                   visibleRange: Option<(int, int)>, dialog: Quality -> bool)
    ensures PerformPreAnalysisCheck(guideShown, warningSkipped, None, isHd, visibleRange, dialog).showsDialog
    ensures PerformPreAnalysisCheck(guideShown, warningSkipped, Some([]), isHd, visibleRange, dialog).showsDialog
    ensures PerformPreAnalysisCheck(guideShown, warningSkipped, None, isHd, visibleRange, dialog).showsGuide
            <==> guideShown.None? || guideShown.value == ""
  {
  }
}
