/** Two layout rules of public/app.js: `calculateChartDimensions`, which
    sizes the charts from their wrappers' measured sizes, and the chart type
    `addIndicatorToChart` picks for an indicator's series. */
module AppLayout {
  import opened Wrappers

  datatype Dimensions = Dimensions(mainHeight: int, subHeight: int, chartWidth: int,
                                   mainWrapperHeight: int, subWrapperHeight: int)

  /** The sizes used while the wrappers are not laid out yet. */
  const Fallback: Dimensions := Dimensions(400, 180, 800, 456, 236)

  /** A measured size is usable when the element exists and reports a
      non-zero size (`!size` is false). */
  predicate Measured(size: Option<nat>) {
    size.Some? && size.value != 0
  }

  function Max(a: int, b: int): int {
    if a >= b then a else b
  }

  /** `calculateChartDimensions`, given the main wrapper's `clientHeight`,
      the sub wrapper's `clientHeight` and the main wrapper's `clientWidth`
      (None where a wrapper is missing). */
  function ChartDimensions(mainHeight: Option<nat>, subHeight: Option<nat>, width: Option<nat>): Dimensions {
    if !Measured(mainHeight) || !Measured(subHeight) || !Measured(width) then Fallback
    else
      Dimensions(Max(mainHeight.value - 56, 400), Max(subHeight.value - 76, 150), Max(width.value - 24, 400),
                 mainHeight.value, subHeight.value)
  }

  /** No chart is ever smaller than its minimum, measured or not. */
  lemma DimensionsFloors(mainHeight: Option<nat>, subHeight: Option<nat>, width: Option<nat>)
    ensures ChartDimensions(mainHeight, subHeight, width).mainHeight >= 400
    ensures ChartDimensions(mainHeight, subHeight, width).subHeight >= 150
    ensures ChartDimensions(mainHeight, subHeight, width).chartWidth >= 400
  {
  }

  /** The fallback is answered exactly when some size is missing or zero:
      no measured layout produces the same five numbers. */
  lemma FallbackIff(mainHeight: Option<nat>, subHeight: Option<nat>, width: Option<nat>)
    ensures ChartDimensions(mainHeight, subHeight, width) == Fallback <==>
            !(Measured(mainHeight) && Measured(subHeight) && Measured(width))
  {
  }

  /** With every size measured, each chart takes its wrapper less the
      header and padding (56, 76 and 24 pixels), unless that falls below the
      minimum, and the wrapper heights are reported as measured. */
  lemma MeasuredLayout(mainHeight: nat, subHeight: nat, width: nat)
    requires mainHeight != 0 && subHeight != 0 && width != 0
    ensures var d := ChartDimensions(Some(mainHeight), Some(subHeight), Some(width));
            d.mainWrapperHeight == mainHeight && d.subWrapperHeight == subHeight
            && (mainHeight >= 456 ==> d.mainHeight + 56 == mainHeight)
            && (mainHeight < 456 ==> d.mainHeight == 400)
            && (subHeight >= 226 ==> d.subHeight + 76 == subHeight)
            && (subHeight < 226 ==> d.subHeight == 150)
            && (width >= 424 ==> d.chartWidth + 24 == width)
            && (width < 424 ==> d.chartWidth == 400)
  {
  }

  /** A larger measured wrapper never gives a smaller chart. */
  lemma MeasuredMonotone(h1: nat, s1: nat, w1: nat, h2: nat, s2: nat, w2: nat)
    requires 0 < h1 <= h2 && 0 < s1 <= s2 && 0 < w1 <= w2
    ensures ChartDimensions(Some(h1), Some(s1), Some(w1)).mainHeight <= ChartDimensions(Some(h2), Some(s2), Some(w2)).mainHeight
    ensures ChartDimensions(Some(h1), Some(s1), Some(w1)).subHeight <= ChartDimensions(Some(h2), Some(s2), Some(w2)).subHeight
    ensures ChartDimensions(Some(h1), Some(s1), Some(w1)).chartWidth <= ChartDimensions(Some(h2), Some(s2), Some(w2)).chartWidth
  {
  }

  /** The `chartType` of each entry of `INDICATOR_CONFIGS`.  Names that are
      not entries (inherited properties included) have no `chartType`. */
  const ConfiguredChartTypes: map<string, string> :=
    map["sma" := "main", "ema" := "main", "rsi" := "sub", "macd" := "sub",
        "bollinger" := "main", "atr" := "readonly", "adx" := "readonly"]

  /** `metadata?.chartType || INDICATOR_CONFIGS[name]?.chartType || 'main'`;
      `metadataChartType` is None when the metadata or its field is absent. */
  function ChartType(name: string, metadataChartType: Option<string>): string {
    if metadataChartType.Some? && metadataChartType.value != "" then metadataChartType.value
    else if name in ConfiguredChartTypes && ConfiguredChartTypes[name] != "" then ConfiguredChartTypes[name]
    else "main"
  }

  datatype Placement = MainChart | SubChart | NotDrawn

  /** `addIndicatorToChart`: main-chart and sub-chart series are drawn,
      any other chart type is not. */
  function AddIndicatorToChart(name: string, metadataChartType: Option<string>): Placement {
    var chartType := ChartType(name, metadataChartType);
    if chartType == "main" then MainChart
    else if chartType == "sub" then SubChart
    else NotDrawn
  }

  /** A non-empty chart type from the metadata decides on its own. */
  lemma MetadataDecides(n1: string, n2: string, t: string)
    requires t != ""
    ensures ChartType(n1, Some(t)) == t
    ensures AddIndicatorToChart(n1, Some(t)) == AddIndicatorToChart(n2, Some(t))
    ensures AddIndicatorToChart(n1, Some(t)) != NotDrawn <==> t == "main" || t == "sub"
  {
  }

  /** Without a metadata chart type, the static table decides: ATR and ADX
      are shown as values only and never drawn, and the others land on the
      chart their entry names. */
  lemma ConfiguredPlacement(metadataChartType: Option<string>)
    requires metadataChartType.None? || metadataChartType.value == ""
    ensures AddIndicatorToChart("sma", metadataChartType) == MainChart
    ensures AddIndicatorToChart("ema", metadataChartType) == MainChart
    ensures AddIndicatorToChart("bollinger", metadataChartType) == MainChart
    ensures AddIndicatorToChart("rsi", metadataChartType) == SubChart
    ensures AddIndicatorToChart("macd", metadataChartType) == SubChart
    ensures AddIndicatorToChart("atr", metadataChartType) == NotDrawn
    ensures AddIndicatorToChart("adx", metadataChartType) == NotDrawn
  {
  }

  /** Every other name falls back to the main chart. */
  lemma UnknownOnMainChart(name: string, metadataChartType: Option<string>)
    requires metadataChartType.None? || metadataChartType.value == ""
    requires name !in ConfiguredChartTypes
    ensures AddIndicatorToChart(name, metadataChartType) == MainChart
  {
  }
}
