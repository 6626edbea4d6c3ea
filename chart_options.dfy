/**
 * The configuration of a chart and the option enums that set it.
 *
 * A `ChartSettings` value holds every stored property that a
 * `BaseChartViewOption` can assign, plus the scroll-view flags the options
 * forward to. Options are applied in list order; each option assigns exactly
 * the properties it names, so the last option naming a property wins.
 */
module ChartOptions {
  import opened Wrappers
  import opened Geometry

  // ---------------------------------------------------------------- chart options

  /** `BaseChartViewOption`. */
  datatype ChartOption =
    | AnimationDuration(duration: real)
    | AnimationDelay(delay: real)
    | MaxVisibleCount(maxVisible: int)
    | ShowAvgLine(avgLine: bool)
    | ShowHorizontalLines(horizontalLines: bool)
    | ShowXAxis(xAxis: bool)
    | ShowYAxis(yAxis: bool)
    | AvgTintColor(avgTint: Color)
    | AxisTintColor(axisTint: Color)
    | HorizontalLineTintColor(lineTint: Color)
    | XAxisFont(xFont: Font)
    | YAxisFont(yFont: Font)
    | MinEntryCount(minCount: int)
    | MinSpacing(spacing: real)
    | BackgroundColor(background: Color)
    | ShouldAutoFormatXAxis(autoFormat: bool)
    | XAxisSpacing(axisSpacing: real)
    | UseMinMaxRange(minMaxRange: bool)
    | ShowScrollIndicator(indicator: bool)
    | ScrollViewWidthInsets(widthInsets: real)
    | IsScrollable(scrollable: bool)
    | Insets(edgeInsets: EdgeInsets)

  /**
   * The stored configuration of a `BaseChartView`. `bottomSpace` is the
   * property the `xAxisSpacing` option assigns; the two scroll indicator
   * flags and `isScrollEnabled` belong to the chart's scroll view.
   */
  datatype ChartSettings = ChartSettings(
    animationDuration: real,
    animationDelay: real,
    maxVisibleCount: Option<int>,
    showAvgLine: bool,
    showHorizontalLines: bool,
    showXAxis: bool,
    showYAxis: bool,
    avgTintColor: Color,
    axisTintColor: Color,
    horizontalLineTintColor: Color,
    xAxisFont: Font,
    yAxisFont: Font,
    minEntryCount: Option<int>,
    minSpacing: Option<real>,
    backgroundColor: Color,
    autoFormatXAxis: bool,
    bottomSpace: real,
    useMinMaxRange: bool,
    showsVerticalScrollIndicator: bool,
    showsHorizontalScrollIndicator: bool,
    scrollViewWidthInsets: real,
    isScrollEnabled: bool,
    insets: EdgeInsets)

  /** Opaque stand-ins for the system colours and fonts used as defaults. */
  const SystemBlue: Color := Color(1, 1.0)
  const LabelColor: Color := Color(2, 1.0)
  const LightGray: Color := Color(3, 1.0)
  const SystemFont12: Font := Font(12)

  /** The property initialisers of `BaseChartView` and a fresh scroll view. */
  const DefaultSettings: ChartSettings := ChartSettings(
    0.5, 0.0, None, false, true, true, true,
    SystemBlue, LabelColor, LightGray, SystemFont12, SystemFont12,
    None, None, Clear, true, 30.0, true, true, true, 0.0, true, ZeroInsets)

  /** `animated`: a chart animates exactly when its animation duration is positive. */
  predicate Animated(s: ChartSettings) {
    s.animationDuration > 0.0
  }

  /** Names of the assignable properties, so that "which property an option writes" can be stated. */
  datatype Field =
    | DurationField | DelayField | MaxVisibleField | AvgLineField | HorizontalLinesField
    | XAxisField | YAxisField | AvgTintField | AxisTintField | LineTintField
    | XFontField | YFontField | MinCountField | MinSpacingField | BackgroundField
    | AutoFormatField | BottomSpaceField | MinMaxRangeField | VerticalIndicatorField
    | HorizontalIndicatorField | WidthInsetsField | ScrollEnabledField | InsetsField

  /** The value of one property, whatever its type. */
  datatype FieldValue =
    | RealValue(r: real)
    | OptIntValue(oi: Option<int>)
    | OptRealValue(or: Option<real>)
    | BoolValue(b: bool)
    | ColorValue(c: Color)
    | FontValue(f: Font)
    | InsetsValue(e: EdgeInsets)

  /** Reads one property. */
  function Get(s: ChartSettings, f: Field): FieldValue {
    match f
    case DurationField => RealValue(s.animationDuration)
    case DelayField => RealValue(s.animationDelay)
    case MaxVisibleField => OptIntValue(s.maxVisibleCount)
    case AvgLineField => BoolValue(s.showAvgLine)
    case HorizontalLinesField => BoolValue(s.showHorizontalLines)
    case XAxisField => BoolValue(s.showXAxis)
    case YAxisField => BoolValue(s.showYAxis)
    case AvgTintField => ColorValue(s.avgTintColor)
    case AxisTintField => ColorValue(s.axisTintColor)
    case LineTintField => ColorValue(s.horizontalLineTintColor)
    case XFontField => FontValue(s.xAxisFont)
    case YFontField => FontValue(s.yAxisFont)
    case MinCountField => OptIntValue(s.minEntryCount)
    case MinSpacingField => OptRealValue(s.minSpacing)
    case BackgroundField => ColorValue(s.backgroundColor)
    case AutoFormatField => BoolValue(s.autoFormatXAxis)
    case BottomSpaceField => RealValue(s.bottomSpace)
    case MinMaxRangeField => BoolValue(s.useMinMaxRange)
    case VerticalIndicatorField => BoolValue(s.showsVerticalScrollIndicator)
    case HorizontalIndicatorField => BoolValue(s.showsHorizontalScrollIndicator)
    case WidthInsetsField => RealValue(s.scrollViewWidthInsets)
    case ScrollEnabledField => BoolValue(s.isScrollEnabled)
    case InsetsField => InsetsValue(s.insets)
  }

  // Proof steps of `SettingsExtensionality`: agreement on every property gives agreement on one group of stored fields.

  lemma AgreeOnAnimationAndVisibility(a: ChartSettings, b: ChartSettings)
    requires forall f :: Get(a, f) == Get(b, f)
    ensures a.animationDuration == b.animationDuration
      && a.animationDelay == b.animationDelay
      && a.maxVisibleCount == b.maxVisibleCount
      && a.showAvgLine == b.showAvgLine
      && a.showHorizontalLines == b.showHorizontalLines
      && a.showXAxis == b.showXAxis
  {
    assert Get(a, DurationField) == Get(b, DurationField);
    assert Get(a, DelayField) == Get(b, DelayField);
    assert Get(a, MaxVisibleField) == Get(b, MaxVisibleField);
    assert Get(a, AvgLineField) == Get(b, AvgLineField);
    assert Get(a, HorizontalLinesField) == Get(b, HorizontalLinesField);
    assert Get(a, XAxisField) == Get(b, XAxisField);
  }

  lemma AgreeOnStyle(a: ChartSettings, b: ChartSettings)
    requires forall f :: Get(a, f) == Get(b, f)
    ensures a.showYAxis == b.showYAxis
      && a.avgTintColor == b.avgTintColor
      && a.axisTintColor == b.axisTintColor
      && a.horizontalLineTintColor == b.horizontalLineTintColor
      && a.xAxisFont == b.xAxisFont
      && a.yAxisFont == b.yAxisFont
  {
    assert Get(a, YAxisField) == Get(b, YAxisField);
    assert Get(a, AvgTintField) == Get(b, AvgTintField);
    assert Get(a, AxisTintField) == Get(b, AxisTintField);
    assert Get(a, LineTintField) == Get(b, LineTintField);
    assert Get(a, XFontField) == Get(b, XFontField);
    assert Get(a, YFontField) == Get(b, YFontField);
  }

  lemma AgreeOnLayout(a: ChartSettings, b: ChartSettings)
    requires forall f :: Get(a, f) == Get(b, f)
    ensures a.minEntryCount == b.minEntryCount
      && a.minSpacing == b.minSpacing
      && a.backgroundColor == b.backgroundColor
      && a.autoFormatXAxis == b.autoFormatXAxis
      && a.bottomSpace == b.bottomSpace
      && a.useMinMaxRange == b.useMinMaxRange
  {
    assert Get(a, MinCountField) == Get(b, MinCountField);
    assert Get(a, MinSpacingField) == Get(b, MinSpacingField);
    assert Get(a, BackgroundField) == Get(b, BackgroundField);
    assert Get(a, AutoFormatField) == Get(b, AutoFormatField);
    assert Get(a, BottomSpaceField) == Get(b, BottomSpaceField);
    assert Get(a, MinMaxRangeField) == Get(b, MinMaxRangeField);
  }

  lemma AgreeOnScrolling(a: ChartSettings, b: ChartSettings)
    requires forall f :: Get(a, f) == Get(b, f)
    ensures a.showsVerticalScrollIndicator == b.showsVerticalScrollIndicator
      && a.showsHorizontalScrollIndicator == b.showsHorizontalScrollIndicator
      && a.scrollViewWidthInsets == b.scrollViewWidthInsets
      && a.isScrollEnabled == b.isScrollEnabled
      && a.insets == b.insets
  {
    assert Get(a, VerticalIndicatorField) == Get(b, VerticalIndicatorField);
    assert Get(a, HorizontalIndicatorField) == Get(b, HorizontalIndicatorField);
    assert Get(a, WidthInsetsField) == Get(b, WidthInsetsField);
    assert Get(a, ScrollEnabledField) == Get(b, ScrollEnabledField);
    assert Get(a, InsetsField) == Get(b, InsetsField);
  }

  /** Two settings that agree on every property are the same settings. */
  lemma {:induction false} SettingsExtensionality(a: ChartSettings, b: ChartSettings)
    requires forall f :: Get(a, f) == Get(b, f)
    ensures a == b
  {
    AgreeOnAnimationAndVisibility(a, b);
    AgreeOnStyle(a, b);
    AgreeOnLayout(a, b);
    AgreeOnScrolling(a, b);
  }

  /**
   * What option `o` writes into property `f`: nothing unless `f` is a
   * property the option names (the scroll indicator option names both
   * indicators); optional properties receive a present value.
   */
  function Write(o: ChartOption, f: Field): Option<FieldValue> {
    match f
    case DurationField => if o.AnimationDuration? then Some(RealValue(o.duration)) else None
    case DelayField => if o.AnimationDelay? then Some(RealValue(o.delay)) else None
    case MaxVisibleField => if o.MaxVisibleCount? then Some(OptIntValue(Some(o.maxVisible))) else None
    case AvgLineField => if o.ShowAvgLine? then Some(BoolValue(o.avgLine)) else None
    case HorizontalLinesField => if o.ShowHorizontalLines? then Some(BoolValue(o.horizontalLines)) else None
    case XAxisField => if o.ShowXAxis? then Some(BoolValue(o.xAxis)) else None
    case YAxisField => if o.ShowYAxis? then Some(BoolValue(o.yAxis)) else None
    case AvgTintField => if o.AvgTintColor? then Some(ColorValue(o.avgTint)) else None
    case AxisTintField => if o.AxisTintColor? then Some(ColorValue(o.axisTint)) else None
    case LineTintField => if o.HorizontalLineTintColor? then Some(ColorValue(o.lineTint)) else None
    case XFontField => if o.XAxisFont? then Some(FontValue(o.xFont)) else None
    case YFontField => if o.YAxisFont? then Some(FontValue(o.yFont)) else None
    case MinCountField => if o.MinEntryCount? then Some(OptIntValue(Some(o.minCount))) else None
    case MinSpacingField => if o.MinSpacing? then Some(OptRealValue(Some(o.spacing))) else None
    case BackgroundField => if o.BackgroundColor? then Some(ColorValue(o.background)) else None
    case AutoFormatField => if o.ShouldAutoFormatXAxis? then Some(BoolValue(o.autoFormat)) else None
    case BottomSpaceField => if o.XAxisSpacing? then Some(RealValue(o.axisSpacing)) else None
    case MinMaxRangeField => if o.UseMinMaxRange? then Some(BoolValue(o.minMaxRange)) else None
    case VerticalIndicatorField => if o.ShowScrollIndicator? then Some(BoolValue(o.indicator)) else None
    case HorizontalIndicatorField => if o.ShowScrollIndicator? then Some(BoolValue(o.indicator)) else None
    case WidthInsetsField => if o.ScrollViewWidthInsets? then Some(RealValue(o.widthInsets)) else None
    case ScrollEnabledField => if o.IsScrollable? then Some(BoolValue(o.scrollable)) else None
    case InsetsField => if o.Insets? then Some(InsetsValue(o.edgeInsets)) else None
  }

  /**
   * One arm of the `setChartOptions` switch, read property by property: a
   * property takes the option's payload when the option is that property's
   * case (the scroll indicator case sets both indicators) and keeps its value
   * otherwise.
   */
  function Apply(s: ChartSettings, o: ChartOption): ChartSettings {
    ChartSettings(
      if o.AnimationDuration? then o.duration else s.animationDuration,
      if o.AnimationDelay? then o.delay else s.animationDelay,
      if o.MaxVisibleCount? then Some(o.maxVisible) else s.maxVisibleCount,
      if o.ShowAvgLine? then o.avgLine else s.showAvgLine,
      if o.ShowHorizontalLines? then o.horizontalLines else s.showHorizontalLines,
      if o.ShowXAxis? then o.xAxis else s.showXAxis,
      if o.ShowYAxis? then o.yAxis else s.showYAxis,
      if o.AvgTintColor? then o.avgTint else s.avgTintColor,
      if o.AxisTintColor? then o.axisTint else s.axisTintColor,
      if o.HorizontalLineTintColor? then o.lineTint else s.horizontalLineTintColor,
      if o.XAxisFont? then o.xFont else s.xAxisFont,
      if o.YAxisFont? then o.yFont else s.yAxisFont,
      if o.MinEntryCount? then Some(o.minCount) else s.minEntryCount,
      if o.MinSpacing? then Some(o.spacing) else s.minSpacing,
      if o.BackgroundColor? then o.background else s.backgroundColor,
      if o.ShouldAutoFormatXAxis? then o.autoFormat else s.autoFormatXAxis,
      if o.XAxisSpacing? then o.axisSpacing else s.bottomSpace,
      if o.UseMinMaxRange? then o.minMaxRange else s.useMinMaxRange,
      if o.ShowScrollIndicator? then o.indicator else s.showsVerticalScrollIndicator,
      if o.ShowScrollIndicator? then o.indicator else s.showsHorizontalScrollIndicator,
      if o.ScrollViewWidthInsets? then o.widthInsets else s.scrollViewWidthInsets,
      if o.IsScrollable? then o.scrollable else s.isScrollEnabled,
      if o.Insets? then o.edgeInsets else s.insets)
  }

  /** Each option changes exactly its own properties to its value and keeps every other property. */
  lemma ApplyFrame(s: ChartSettings, o: ChartOption, f: Field)
    ensures Get(Apply(s, o), f) == Write(o, f).GetOr(Get(s, f))
  {
  }

  /** The value the last option in `os` that assigns `f` gives it, if any option does. */
  function LastWrite(os: seq<ChartOption>, f: Field): Option<FieldValue> {
    if os == [] then None
    else if Write(os[|os| - 1], f).Some? then Write(os[|os| - 1], f)
    else LastWrite(os[..|os| - 1], f)
  }

  /** The whole `setChartOptions` loop: options applied in list order. Every property ends with its last write, or keeps its value. */
  function ApplyAll(s: ChartSettings, os: seq<ChartOption>): ChartSettings {
    if os == [] then s else Apply(ApplyAll(s, os[..|os| - 1]), os[|os| - 1])
  }

  /** After the loop every property holds the value of the last option that names it, or its old value. */
  lemma {:induction false} ApplyAllFields(s: ChartSettings, os: seq<ChartOption>, f: Field)
    ensures Get(ApplyAll(s, os), f) == LastWrite(os, f).GetOr(Get(s, f))
  {
    if os != [] {
      ApplyAllFields(s, os[..|os| - 1], f);
      ApplyFrame(ApplyAll(s, os[..|os| - 1]), os[|os| - 1], f);
    }
  }

  /** A property that no option in the list names is left unchanged. */
  lemma {:induction false} UnmentionedUnchanged(s: ChartSettings, os: seq<ChartOption>, f: Field)
    requires forall i :: 0 <= i < |os| ==> Write(os[i], f).None?
    ensures Get(ApplyAll(s, os), f) == Get(s, f)
  {
    ApplyAllFields(s, os, f);
    NoWriteWithoutMention(os, f);
  }

  /** `LastWrite` finds nothing for a property no option names. */
  lemma {:induction false} NoWriteWithoutMention(os: seq<ChartOption>, f: Field)
    requires forall i :: 0 <= i < |os| ==> Write(os[i], f).None?
    ensures LastWrite(os, f) == None
  {
    if os != [] {
      NoWriteWithoutMention(os[..|os| - 1], f);
    }
  }

  /** When option `i` is the last to name `f`, `f` ends with option `i`'s value: later options override earlier ones. */
  lemma {:induction false} LastOptionWins(s: ChartSettings, os: seq<ChartOption>, i: nat, f: Field)
    requires i < |os| && Write(os[i], f).Some?
    requires forall j :: i < j < |os| ==> Write(os[j], f).None?
    ensures Get(ApplyAll(s, os), f) == Write(os[i], f).value
  {
    ApplyAllFields(s, os, f);
    LastWriteIsLastMention(os, i, f);
  }

  /** `LastWrite` finds the value of the last option that names the property. */
  lemma {:induction false} LastWriteIsLastMention(os: seq<ChartOption>, i: nat, f: Field)
    requires i < |os| && Write(os[i], f).Some?
    requires forall j :: i < j < |os| ==> Write(os[j], f).None?
    ensures LastWrite(os, f) == Write(os[i], f)
  {
    if i < |os| - 1 {
      LastWriteIsLastMention(os[..|os| - 1], i, f);
    }
  }

  /** Applying the same option list twice gives the same settings as applying it once. */
  lemma ApplyAllIdempotent(s: ChartSettings, os: seq<ChartOption>)
    ensures ApplyAll(ApplyAll(s, os), os) == ApplyAll(s, os)
  {
    var once := ApplyAll(s, os);
    var twice := ApplyAll(once, os);
    forall f ensures Get(twice, f) == Get(once, f) {
      ApplyAllFields(s, os, f);
      ApplyAllFields(once, os, f);
    }
    SettingsExtensionality(twice, once);
  }

  /** Setting the animation duration last decides `animated`. */
  lemma AnimatedFollowsDuration(s: ChartSettings, os: seq<ChartOption>, d: real)
    ensures Animated(ApplyAll(s, os + [AnimationDuration(d)])) <==> d > 0.0
  {
    var all := os + [AnimationDuration(d)];
    LastOptionWins(s, all, |os|, DurationField);
  }

  // ---------------------------------------------------------------- bar chart options

  /** `BaseBarChartViewOption`. */
  datatype BarOption =
    | MinBarWidth(barWidth: real)
    | MarkSelected(mark: bool)
    | ContainerColor(containerPaint: Color)
    | CornerRounding(rounding: real)

  /** The stored configuration added by `BaseBarChartView`. */
  datatype BarSettings = BarSettings(
    minBarWidth: Option<real>,
    markSelected: bool,
    containerColor: Option<Color>,
    cornerRounding: real)

  /** The property initialisers of `BaseBarChartView`. */
  const DefaultBarSettings: BarSettings := BarSettings(None, true, None, 5.0)

  /** One arm of the bar-option switch: exactly the named property changes. */
  function ApplyBar(b: BarSettings, o: BarOption): (r: BarSettings)
    ensures r.minBarWidth == (if o.MinBarWidth? then Some(o.barWidth) else b.minBarWidth)
    ensures r.markSelected == (if o.MarkSelected? then o.mark else b.markSelected)
    ensures r.containerColor == (if o.ContainerColor? then Some(o.containerPaint) else b.containerColor)
    ensures r.cornerRounding == (if o.CornerRounding? then o.rounding else b.cornerRounding)
  {
    match o
    case MinBarWidth(v) => b.(minBarWidth := Some(v))
    case MarkSelected(v) => b.(markSelected := v)
    case ContainerColor(v) => b.(containerColor := Some(v))
    case CornerRounding(v) => b.(cornerRounding := v)
  }

  /** The bar-option loop of `setBarChartOptions`, options applied in list order. */
  function ApplyBarAll(b: BarSettings, os: seq<BarOption>): (r: BarSettings)
    ensures (forall i :: 0 <= i < |os| ==> !os[i].MarkSelected?) ==> r.markSelected == b.markSelected
    ensures (forall i :: 0 <= i < |os| ==> !os[i].MinBarWidth?) ==> r.minBarWidth == b.minBarWidth
    ensures (forall i :: 0 <= i < |os| ==> !os[i].ContainerColor?) ==> r.containerColor == b.containerColor
    ensures (forall i :: 0 <= i < |os| ==> !os[i].CornerRounding?) ==> r.cornerRounding == b.cornerRounding
  {
    if os == [] then b else ApplyBar(ApplyBarAll(b, os[..|os| - 1]), os[|os| - 1])
  }

  /** Applying two bar-option lists one after the other is applying their concatenation. */
  lemma {:induction false} ApplyBarAllConcat(b: BarSettings, xs: seq<BarOption>, ys: seq<BarOption>)
    ensures ApplyBarAll(ApplyBarAll(b, xs), ys) == ApplyBarAll(b, xs + ys)
  {
    if ys != [] {
      ApplyBarAllConcat(b, xs, ys[..|ys| - 1]);
      assert (xs + ys)[..|xs + ys| - 1] == xs + ys[..|ys| - 1];
    } else {
      assert xs + ys == xs;
    }
  }

  /** A bar-option list ending in a given option leaves that option's value in place. */
  lemma LastBarOptionWins(b: BarSettings, os: seq<BarOption>, o: BarOption)
    ensures var r := ApplyBarAll(b, os + [o]);
      (o.MinBarWidth? ==> r.minBarWidth == Some(o.barWidth))
      && (o.MarkSelected? ==> r.markSelected == o.mark)
      && (o.ContainerColor? ==> r.containerColor == Some(o.containerPaint))
      && (o.CornerRounding? ==> r.cornerRounding == o.rounding)
  {
    assert (os + [o])[..|os + [o]| - 1] == os;
  }

  // ---------------------------------------------------------------- grouped chart options

  /** `GroupBarChartViewOption`. */
  datatype GroupOption =
    | BarchartOptions(barOptions: seq<BarOption>)
    | GroupSpacing(groupSpacing: real)

  /** All bar options carried by a group-option list, in order. */
  function GroupBarOptions(gos: seq<GroupOption>): (bos: seq<BarOption>)
    ensures gos == [] ==> bos == []
    ensures |gos| == 1 && gos[0].BarchartOptions? ==> bos == gos[0].barOptions
    ensures |gos| == 1 && gos[0].GroupSpacing? ==> bos == []
  {
    if gos == [] then []
    else GroupBarOptions(gos[..|gos| - 1])
         + (if gos[|gos| - 1].BarchartOptions? then gos[|gos| - 1].barOptions else [])
  }

  /** The bar options of two lists one after the other are those of their concatenation. */
  lemma {:induction false} GroupBarOptionsConcat(xs: seq<GroupOption>, ys: seq<GroupOption>)
    ensures GroupBarOptions(xs + ys) == GroupBarOptions(xs) + GroupBarOptions(ys)
  {
    if ys == [] {
      assert xs + ys == xs;
    } else {
      var init := ys[..|ys| - 1];
      assert (xs + ys)[..|xs + ys| - 1] == xs + init;
      assert (xs + ys)[|xs + ys| - 1] == ys[|ys| - 1];
      GroupBarOptionsConcat(xs, init);
    }
  }

  /** The group spacing after a group-option list: the last `groupSpacing` option's value, or the current one. */
  function LastGroupSpacing(gos: seq<GroupOption>, current: real): (r: real)
    ensures (forall i :: 0 <= i < |gos| ==> gos[i].BarchartOptions?) ==> r == current
    ensures gos != [] && gos[|gos| - 1].GroupSpacing? ==> r == gos[|gos| - 1].groupSpacing
    ensures forall i :: (0 <= i < |gos| && gos[i].GroupSpacing?
                         && forall j :: i < j < |gos| ==> gos[j].BarchartOptions?) ==> r == gos[i].groupSpacing
  {
    if gos == [] then current
    else if gos[|gos| - 1].GroupSpacing? then gos[|gos| - 1].groupSpacing
    else
      var init := gos[..|gos| - 1];
      assert forall i :: 0 <= i < |init| ==> init[i] == gos[i];
      LastGroupSpacing(init, current)
  }
}
