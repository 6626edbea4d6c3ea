/**
 * The scale and position engine of `BaseChartView`: effective slot counts,
 * spacing, the value-to-y mapping, the base x position, x-axis label
 * thinning, the y-grid ticks, the average line and the frame arithmetic of
 * `layoutSublayers`.
 *
 * Everything here reads a `Metrics` snapshot: the chart's settings, its base
 * entries, its entry count (the range chart overrides it), the width of the
 * view and the size of the bar container.
 */
module Scale {
  import opened Wrappers
  import opened Geometry
  import opened Extensions
  import opened Entries
  import opened ChartOptions
  import opened Arith

  /** Width reserved for the y-axis labels (`leftSpacing`). */
  const LeftSpacing: real := 20.0
  /** The top grid line sits 10% above the largest value (`topHorizontalLine`). */
  const TopHorizontalLine: real := 1.1
  /** The bottom grid line sits 5% below the smallest value (`bottomHorizontalLine`). */
  const BottomHorizontalLine: real := 0.95
  /** Room to the right of the container for the average label (`rightAvgSpacing`). */
  const RightAvgSpacing: real := 20.0
  /** Gap between the y-axis labels and the container (`containerLeftMargin`). */
  const ContainerLeftMargin: real := 10.0

  /** What the layout formulas of a chart read. */
  datatype Metrics = Metrics(
    settings: ChartSettings,
    bar: BarSettings,
    baseEntries: seq<BaseEntry>,
    numberOfEntries: nat,
    viewWidth: real,
    viewHeight: real,
    containerWidth: real,
    containerHeight: real)

  /** The values of the base entries. */
  function BaseValues(m: Metrics): (vs: seq<real>)
    ensures |vs| == |m.baseEntries|
  {
    Values(m.baseEntries)
  }

  // ---------------------------------------------------------------- slot counts

  /** `_maxEntries`: the number of entries shown, at most `maxVisibleCount` when it is set. */
  function MaxEntries(m: Metrics): (r: int)
    ensures r <= |m.baseEntries|
    ensures m.settings.maxVisibleCount.None? ==> r == |m.baseEntries|
    ensures m.settings.maxVisibleCount.Some? ==>
      r <= m.settings.maxVisibleCount.value
      && (r == m.settings.maxVisibleCount.value || r == |m.baseEntries|)
  {
    match m.settings.maxVisibleCount
    case None => |m.baseEntries|
    case Some(v) => if v < |m.baseEntries| then v else |m.baseEntries|
  }

  /** `_minEntryCount`: the number of slots, at least `minEntryCount` when it is set. */
  function MinEntries(m: Metrics): (r: int)
    ensures r >= m.numberOfEntries
    ensures m.settings.minEntryCount.None? ==> r == m.numberOfEntries
    ensures m.settings.minEntryCount.Some? ==>
      r >= m.settings.minEntryCount.value
      && (r == m.settings.minEntryCount.value || r == m.numberOfEntries)
  {
    match m.settings.minEntryCount
    case None => m.numberOfEntries
    case Some(v) => if v > m.numberOfEntries then v else m.numberOfEntries
  }

  // ---------------------------------------------------------------- spacing

  /** `spacing` is a finite number: either it is set, or the visible-entry count it divides by is not 0. */
  predicate SpacingDefined(m: Metrics) {
    m.settings.minSpacing.Some? || MaxEntries(m) != 0
  }

  /**
   * `spacing`: the explicit `minSpacing` when set; otherwise the visible
   * entries share 20% of the container width.
   */
  function Spacing(m: Metrics): (r: real)
    requires SpacingDefined(m)
    ensures m.settings.minSpacing.Some? ==> r == m.settings.minSpacing.value
    ensures m.settings.minSpacing.None? ==> r * (MaxEntries(m) as real) == 0.2 * m.containerWidth
  {
    match m.settings.minSpacing
    case Some(s) => s
    case None => m.containerWidth * (0.2 / (MaxEntries(m) as real))
  }

  /** Without `minSpacing` the spacings of all `_maxEntries` slots add up to a fifth of the container width. */
  lemma SpacingSplitsContainer(m: Metrics)
    requires SpacingDefined(m) && m.settings.minSpacing.None?
    ensures Spacing(m) * (MaxEntries(m) as real) == 0.2 * m.containerWidth
  {
  }

  // ---------------------------------------------------------------- value to y

  /**
   * `translateHeightValueToYPosition`: the y coordinate, inside the container,
   * of the top of a bar of value `v`. With no entries it is the container
   * height. In min/max range mode the value range, stretched by 10%, is mapped
   * onto the container and the result is scaled by 0.95; otherwise `v` is
   * measured against the largest value alone, and 0 sits on the bottom.
   */
  function YPosition(m: Metrics, v: real): (y: real)
    ensures m.baseEntries == [] ==> y == m.containerHeight
    ensures !m.settings.useMinMaxRange && v == 0.0 ==> y == m.containerHeight
  {
    var h := m.containerHeight;
    match (MaxOf(BaseValues(m)), MinOf(BaseValues(m)))
    case (Some(max), Some(min)) =>
      if m.settings.useMinMaxRange then
        h * (1.0 - SatDiv(v - min, (max - min) * TopHorizontalLine)) * BottomHorizontalLine
      else if v == 0.0 then h
      else h * (1.0 - SatDiv(v, max))
    case _ => h
  }

  /** The largest base value (only meaningful with entries). */
  function MaxValue(m: Metrics): (r: real)
    requires m.baseEntries != []
    ensures r in BaseValues(m) && forall x :: x in BaseValues(m) ==> x <= r
  {
    MaxOf(BaseValues(m)).value
  }

  /** The smallest base value (only meaningful with entries). */
  function MinValue(m: Metrics): (r: real)
    requires m.baseEntries != []
    ensures r in BaseValues(m) && forall x :: x in BaseValues(m) ==> r <= x
  {
    MinOf(BaseValues(m)).value
  }

  /** Range mode: the smallest value sits at 95% of the container height. */
  lemma YPositionAtMin(m: Metrics)
    requires m.baseEntries != [] && m.settings.useMinMaxRange
    ensures YPosition(m, MinValue(m)) == m.containerHeight * BottomHorizontalLine
  {
  }

  /** Range mode: when all values are equal, every value sits at 95% of the container height. */
  lemma YPositionFlat(m: Metrics, v: real)
    requires m.baseEntries != [] && m.settings.useMinMaxRange
    requires MinValue(m) == MaxValue(m)
    ensures YPosition(m, v) == m.containerHeight * BottomHorizontalLine
  {
  }

  /** Range mode: the largest value sits 1/11 of 95% of the height below the top, leaving the 10% head room. */
  lemma YPositionAtMax(m: Metrics)
    requires m.baseEntries != [] && m.settings.useMinMaxRange
    requires MinValue(m) < MaxValue(m)
    ensures YPosition(m, MaxValue(m)) == m.containerHeight * BottomHorizontalLine / 11.0
  {
    var max, min := MaxValue(m), MinValue(m);
    var d := max - min;
    var q := SatDiv(d, d * TopHorizontalLine);
    assert q * (d * TopHorizontalLine) == d;
    assert (q * TopHorizontalLine) * d == 1.0 * d;
    MulCancel(q * TopHorizontalLine, 1.0, d);
    assert q == 10.0 / 11.0;
  }

  /** Without range mode, a non-zero largest value reaches the top of the container. */
  lemma YPositionAtMaxPlain(m: Metrics)
    requires m.baseEntries != [] && !m.settings.useMinMaxRange
    requires MaxValue(m) != 0.0
    ensures YPosition(m, MaxValue(m)) == 0.0
  {
    assert SatDiv(MaxValue(m), MaxValue(m)) == 1.0;
  }

  /** In range mode a larger value is drawn higher (at a smaller or equal y) in a container of non-negative height. */
  lemma YPositionMonotone(m: Metrics, a: real, b: real)
    requires m.baseEntries != [] && m.settings.useMinMaxRange
    requires m.containerHeight >= 0.0 && a <= b
    ensures YPosition(m, b) <= YPosition(m, a)
  {
    var h, max, min := m.containerHeight, MaxValue(m), MinValue(m);
    assert YPosition(m, a) == RangeY(h, min, max, a);
    assert YPosition(m, b) == RangeY(h, min, max, b);
    RangeYMonotone(h, min, max, a, b);
  }

  /** The range-mode y formula on plain numbers. */
  function RangeY(h: real, min: real, max: real, v: real): real {
    h * (1.0 - SatDiv(v - min, (max - min) * TopHorizontalLine)) * BottomHorizontalLine
  }

  /** The range-mode y formula is non-increasing in the value when the extremes are ordered. */
  lemma RangeYMonotone(h: real, min: real, max: real, a: real, b: real)
    requires h >= 0.0 && min <= max && a <= b
    ensures RangeY(h, min, max, b) <= RangeY(h, min, max, a)
  {
    var d := (max - min) * TopHorizontalLine;
    if d != 0.0 {
      assert d > 0.0;
      SatDivMonotone(a - min, b - min, d);
      var qa, qb := SatDiv(a - min, d), SatDiv(b - min, d);
      MulMonotone(h * BottomHorizontalLine, 1.0 - qb, 1.0 - qa);
      assert RangeY(h, min, max, a) == h * BottomHorizontalLine * (1.0 - qa);
      assert RangeY(h, min, max, b) == h * BottomHorizontalLine * (1.0 - qb);
    }
  }

  /** In range mode a value between the extremes lands inside the container, below the 10% head room. */
  lemma YPositionInBand(m: Metrics, v: real)
    requires m.baseEntries != [] && m.settings.useMinMaxRange
    requires m.containerHeight >= 0.0
    requires MinValue(m) <= v <= MaxValue(m)
    ensures m.containerHeight * BottomHorizontalLine / 11.0 <= YPosition(m, v) <= m.containerHeight * BottomHorizontalLine
  {
    YPositionAtMin(m);
    YPositionMonotone(m, MinValue(m), v);
    if MinValue(m) < MaxValue(m) {
      YPositionAtMax(m);
      YPositionMonotone(m, v, MaxValue(m));
    } else {
      YPositionFlat(m, v);
    }
  }

  // ---------------------------------------------------------------- base x position

  /** The number of slots `calculateXPos` divides the width into: the entry count, raised to `minEntryCount`. */
  function BaseSlots(m: Metrics): (r: int)
    ensures r >= m.numberOfEntries
    ensures m.settings.minEntryCount.Some? ==> r >= m.settings.minEntryCount.value
    ensures r == m.numberOfEntries || (m.settings.minEntryCount.Some? && r == m.settings.minEntryCount.value)
  {
    match m.settings.minEntryCount
    case None => m.numberOfEntries
    case Some(min) => if m.numberOfEntries > min then m.numberOfEntries else min
  }

  /**
   * `BaseChartView.calculateXPos`: slot `index` of the container width divided
   * into equal slots; 0 when there are no slots.
   */
  method BaseXPosition(m: Metrics, index: int) returns (x: real)
    ensures BaseSlots(m) != 0 ==> x * (BaseSlots(m) as real) == (index as real) * m.containerWidth
    ensures BaseSlots(m) == 0 ==> x == 0.0
  {
    var width := m.containerWidth;
    var entries := m.numberOfEntries;
    if m.settings.minEntryCount.Some? {
      var min := m.settings.minEntryCount.value;
      entries := if m.numberOfEntries > min then m.numberOfEntries else min;
    }
    var slot := SatDiv(width, entries as real);
    x := (index as real) * slot;
    if entries != 0 {
      calc {
        x * (entries as real);
        (index as real) * (slot * (entries as real));
        (index as real) * width;
      }
    }
  }

  /** `BaseChartView.getXLabel`: the label of the base entry at `index`, if there is one. */
  function BaseXLabel(m: Metrics, index: int): (r: Option<string>)
    ensures r.Some? <==> 0 <= index < |m.baseEntries|
    ensures r.Some? ==> r.value == m.baseEntries[index].caption
  {
    match SafeGet(m.baseEntries, index)
    case None => None
    case Some(e) => Some(e.caption)
  }

  // ---------------------------------------------------------------- x-axis labels

  /** A label of the x axis: the entry index it belongs to and its text. */
  datatype AxisLabel = AxisLabel(index: int, text: string)

  /**
   * How many labels fit next to each other when every label is given the
   * width of the widest one (`Int(width &/ maxWidth)`); `None` when there are
   * no label widths.
   */
  function MaxLabels(labelWidths: seq<real>, axisWidth: real): (r: Option<int>)
    ensures r.None? <==> labelWidths == []
  {
    match MaxOf(labelWidths)
    case None => None
    case Some(widest) => Some(Truncate(SatDiv(axisWidth, widest)))
  }

  /**
   * The stride between labelled indices, or `None` when `addXAxis` draws no
   * label at all: the axis is hidden, there are no entries, or not even one
   * label fits.
   */
  function LabelGap(m: Metrics, labelWidths: seq<real>, axisWidth: real): (r: Option<int>)
    ensures r.Some? ==> r.value >= 1
    ensures !m.settings.showXAxis || m.numberOfEntries == 0 ==> r.None?
    ensures m.settings.showXAxis && m.numberOfEntries > 0 && !m.settings.autoFormatXAxis ==> r == Some(1)
  {
    if !m.settings.showXAxis || m.numberOfEntries <= 0 then None
    else if !m.settings.autoFormatXAxis then Some(1)
    else match MaxLabels(labelWidths, axisWidth)
      case None => Some(1)
      case Some(k) => if k <= 0 then None else Some(m.numberOfEntries / k + 1)
  }

  /** The labels of indices `i`, `i + gap`, ... below the entry count that have an entry and a text. */
  function StrideLabels(m: Metrics, texts: seq<Option<string>>, gap: int, i: int): seq<AxisLabel>
    requires gap >= 1 && i >= 0
    requires |texts| == m.numberOfEntries
    decreases m.numberOfEntries - i
  {
    if i >= m.numberOfEntries then []
    else
      (if i < |m.baseEntries| && texts[i].Some? then [AxisLabel(i, texts[i].value)] else [])
      + StrideLabels(m, texts, gap, i + gap)
  }

  /** The labels `addXAxis` draws, in drawing order. */
  function ExpectedLabels(m: Metrics, labelWidths: seq<real>, axisWidth: real, texts: seq<Option<string>>): seq<AxisLabel>
    requires |texts| == m.numberOfEntries
  {
    match LabelGap(m, labelWidths, axisWidth)
    case None => []
    case Some(gap) => StrideLabels(m, texts, gap, 0)
  }

  /**
   * The first half of `addXAxis`: the guards and the stride between labels,
   * `None` when no label is drawn.
   */
  method XAxisStride(m: Metrics, labelWidths: seq<real>, axisWidth: real) returns (gap: Option<int>)
    ensures gap == LabelGap(m, labelWidths, axisWidth)
  {
    if !m.settings.showXAxis || m.numberOfEntries <= 0 {
      return None;
    }
    var step := 1;
    if m.settings.autoFormatXAxis {
      var widest := MaxOf(labelWidths);
      if widest.Some? {
        var maxLabels := Truncate(SatDiv(axisWidth, widest.value));
        if maxLabels <= 0 {
          return None;
        }
        step := m.numberOfEntries / maxLabels + 1;
      }
    }
    gap := Some(step);
  }

  /**
   * `addXAxis`, without drawing: which entry indices receive a label and
   * with what text. `labelWidths` are the rendered widths of the base entries'
   * labels, `axisWidth` the width of the axis layer and `texts[i]` what the
   * chart's `getXLabel(i)` returns.
   */
  method XAxisLabels(m: Metrics, labelWidths: seq<real>, axisWidth: real, texts: seq<Option<string>>)
    returns (labels: seq<AxisLabel>)
    requires |texts| == m.numberOfEntries
    ensures labels == ExpectedLabels(m, labelWidths, axisWidth, texts)
  {
    labels := [];
    var stride := XAxisStride(m, labelWidths, axisWidth);
    if stride.None? {
      return;
    }
    var gap := stride.value;
    var i := 0;
    while i < m.numberOfEntries
      invariant i >= 0
      invariant labels + StrideLabels(m, texts, gap, i) == StrideLabels(m, texts, gap, 0)
      decreases m.numberOfEntries - i
    {
      ghost var rest := StrideLabels(m, texts, gap, i + gap);
      var entry := SafeGet(m.baseEntries, i);
      if entry.Some? && texts[i].Some? {
        var drawn := AxisLabel(i, texts[i].value);
        assert StrideLabels(m, texts, gap, i) == [drawn] + rest;
        assert labels + ([drawn] + rest) == (labels + [drawn]) + rest;
        labels := labels + [drawn];
      } else {
        assert StrideLabels(m, texts, gap, i) == rest;
      }
      i := i + gap;
    }
  }

  /** The labels `ls` all sit at multiples of `gap` past `i`, below the entry count, on an entry with the chart's text. */
  predicate OnStride(m: Metrics, texts: seq<Option<string>>, gap: int, i: int, ls: seq<AxisLabel>)
    requires gap >= 1 && i >= 0 && |texts| == m.numberOfEntries
  {
    forall k :: 0 <= k < |ls| ==>
      i <= ls[k].index < m.numberOfEntries && (ls[k].index - i) % gap == 0
      && ls[k].index < |m.baseEntries| && texts[ls[k].index] == Some(ls[k].text)
  }

  /** Strictly increasing label indices. */
  predicate Increasing(ls: seq<AxisLabel>) {
    forall k, l :: 0 <= k < l < |ls| ==> ls[k].index < ls[l].index
  }

  /** Every label sits at a multiple of the gap below the entry count, on an entry, with the chart's text. */
  lemma {:induction false} StrideLabelsOnStride(m: Metrics, texts: seq<Option<string>>, gap: int, i: int)
    requires gap >= 1 && i >= 0 && |texts| == m.numberOfEntries
    ensures OnStride(m, texts, gap, i, StrideLabels(m, texts, gap, i))
    decreases m.numberOfEntries - i
  {
    if i < m.numberOfEntries {
      StrideLabelsOnStride(m, texts, gap, i + gap);
      var rest := StrideLabels(m, texts, gap, i + gap);
      forall k | 0 <= k < |rest|
        ensures (rest[k].index - i) % gap == 0
      {
        ModShift(rest[k].index - (i + gap), gap);
      }
      if i < |m.baseEntries| && texts[i].Some? {
        var ls := StrideLabels(m, texts, gap, i);
        assert ls == [AxisLabel(i, texts[i].value)] + rest;
        assert (i - i) % gap == 0;
        assert forall k :: 1 <= k < |ls| ==> ls[k] == rest[k - 1];
      }
    }
  }

  /** The labels come in increasing index order. */
  lemma {:induction false} StrideLabelsIncreasing(m: Metrics, texts: seq<Option<string>>, gap: int, i: int)
    requires gap >= 1 && i >= 0 && |texts| == m.numberOfEntries
    ensures Increasing(StrideLabels(m, texts, gap, i))
    decreases m.numberOfEntries - i
  {
    if i < m.numberOfEntries {
      StrideLabelsIncreasing(m, texts, gap, i + gap);
      StrideLabelsOnStride(m, texts, gap, i + gap);
      var rest := StrideLabels(m, texts, gap, i + gap);
      if i < |m.baseEntries| && texts[i].Some? {
        var ls := StrideLabels(m, texts, gap, i);
        assert ls == [AxisLabel(i, texts[i].value)] + rest;
        assert forall k :: 1 <= k < |ls| ==> ls[k] == rest[k - 1];
      }
    }
  }

  /** Every index at a multiple of the gap that has an entry and a text is labelled. */
  lemma {:induction false} StrideLabelsComplete(m: Metrics, texts: seq<Option<string>>, gap: int, i: int, j: int)
    requires gap >= 1 && i >= 0 && |texts| == m.numberOfEntries
    requires i <= j < m.numberOfEntries && (j - i) % gap == 0
    requires j < |m.baseEntries| && texts[j].Some?
    ensures AxisLabel(j, texts[j].value) in StrideLabels(m, texts, gap, i)
    decreases m.numberOfEntries - i
  {
    var ls := StrideLabels(m, texts, gap, i);
    var rest := StrideLabels(m, texts, gap, i + gap);
    if j == i {
      assert ls[0] == AxisLabel(j, texts[j].value);
    } else {
      if j - i < gap {
        DivModUnique(j - i, gap, 0, j - i);
      }
      ModShift(j - (i + gap), gap);
      StrideLabelsComplete(m, texts, gap, i + gap, j);
      assert ls[|ls| - |rest|..] == rest;
    }
  }

  /** The last of the labels from index `i` on lies at least `gap` times their count minus one after `i`. */
  lemma {:induction false} StrideLabelsCount(m: Metrics, texts: seq<Option<string>>, gap: int, i: int)
    requires gap >= 1 && i >= 0 && |texts| == m.numberOfEntries
    ensures var c := |StrideLabels(m, texts, gap, i)|;
      c == 0 || i + (c - 1) * gap < m.numberOfEntries
    decreases m.numberOfEntries - i
  {
    if i < m.numberOfEntries {
      StrideLabelsCount(m, texts, gap, i + gap);
      var c := |StrideLabels(m, texts, gap, i)|;
      var r := |StrideLabels(m, texts, gap, i + gap)|;
      if r > 0 {
        assert (c - 1) * gap <= r * gap;
        assert i + r * gap == (i + gap) + (r - 1) * gap;
      }
    }
  }

  /** With automatic formatting, no more labels are drawn than fit next to each other. */
  lemma LabelsFit(m: Metrics, labelWidths: seq<real>, axisWidth: real, texts: seq<Option<string>>)
    requires |texts| == m.numberOfEntries
    requires m.settings.autoFormatXAxis && labelWidths != []
    requires MaxLabels(labelWidths, axisWidth).value >= 0
    ensures |ExpectedLabels(m, labelWidths, axisWidth, texts)| <= MaxLabels(labelWidths, axisWidth).value
  {
    var k := MaxLabels(labelWidths, axisWidth).value;
    var gap := LabelGap(m, labelWidths, axisWidth);
    if gap.Some? {
      var n := m.numberOfEntries;
      var c := |StrideLabels(m, texts, gap.value, 0)|;
      StrideLabelsCount(m, texts, gap.value, 0);
      if c > 0 {
        GapBound(n, k, c);
      }
    }
  }

  // ---------------------------------------------------------------- y-grid

  /**
   * One tick of the y grid: its fraction of the grid height measured from
   * the top, its y coordinate, the value printed next to it, and whether a
   * horizontal line is drawn through it.
   */
  datatype GridTick = GridTick(fraction: real, y: real, printed: int, line: bool)

  /** The grid fractions: top, middle and bottom, or only top and bottom for fewer than 3 entries or a flat chart. */
  function GridFractions(m: Metrics): (fs: seq<real>)
    requires m.baseEntries != []
    ensures fs == [0.0, 1.0] || fs == [0.0, 0.5, 1.0]
    ensures fs == [0.0, 0.5, 1.0] <==> m.numberOfEntries >= 3 && MinValue(m) != MaxValue(m)
  {
    if m.numberOfEntries < 3 || MinValue(m) == MaxValue(m) then [0.0, 1.0] else [0.0, 0.5, 1.0]
  }

  /** `ceil` over exact reals. */
  function Ceil(x: real): (r: int)
    ensures r as real - 1.0 < x <= r as real
  {
    -((-x).Floor)
  }

  /** The exact value of the tick at `fraction`: `1 - fraction` of the rounded scale gap above the scale's bottom. */
  function TickValue(m: Metrics, fraction: real): real
    requires m.baseEntries != []
  {
    var low := MinValue(m) * BottomHorizontalLine;
    (1.0 - fraction) * (Ceil(MaxValue(m) * TopHorizontalLine - low) as real) + low
  }

  /**
   * The value printed next to the tick at `fraction` (0 at the top, 1 at the
   * bottom): both parts of `TickValue` truncated separately, so within 2 of
   * the exact value.
   */
  function TickLabel(m: Metrics, fraction: real): (printed: int)
    requires m.baseEntries != []
    ensures TickValue(m, fraction) - 2.0 < printed as real < TickValue(m, fraction) + 2.0
  {
    var low := MinValue(m) * BottomHorizontalLine;
    var above := (1.0 - fraction) * (Ceil(MaxValue(m) * TopHorizontalLine - low) as real);
    assert TickValue(m, fraction) == above + low;
    TruncatedSumNear(above, low);
    Truncate(above) + Truncate(low)
  }

  /** Truncating two terms separately moves their sum by less than 2. */
  lemma TruncatedSumNear(a: real, b: real)
    ensures a + b - 2.0 < (Truncate(a) + Truncate(b)) as real < a + b + 2.0
  {
  }

  /**
   * The tick part of `drawHorizontalLines` (its call to `drawAvgLine` is
   * `AverageLine` below): nothing without entries or with the y axis hidden;
   * otherwise one tick per grid fraction.
   */
  method GridTicks(m: Metrics, gridHeight: real) returns (ticks: seq<GridTick>)
    ensures m.baseEntries == [] || !m.settings.showYAxis ==> ticks == []
    ensures m.baseEntries != [] && m.settings.showYAxis ==>
      var fs := GridFractions(m);
      |ticks| == |fs|
      && forall k :: 0 <= k < |ticks| ==>
        ticks[k] == GridTick(fs[k], fs[k] * gridHeight, TickLabel(m, fs[k]), m.settings.showHorizontalLines)
  {
    ticks := [];
    if |m.baseEntries| == 0 || !m.settings.showYAxis {
      return;
    }
    var gridValues := [0.0, 0.5, 1.0];
    if m.numberOfEntries < 3 {
      gridValues := [0.0, 1.0];
    }
    var maxValue, minValue := MaxValue(m), MinValue(m);
    if minValue == maxValue {
      gridValues := [0.0, 1.0];
    }
    for k := 0 to |gridValues|
      invariant |ticks| == k
      invariant forall j :: 0 <= j < k ==>
        ticks[j] == GridTick(gridValues[j], gridValues[j] * gridHeight, TickLabel(m, gridValues[j]), m.settings.showHorizontalLines)
    {
      var value := gridValues[k];
      ticks := ticks + [GridTick(value, value * gridHeight, TickLabel(m, value), m.settings.showHorizontalLines)];
    }
  }

  /** The bottom tick is labelled with the truncated bottom of the scale (95% of the smallest value). */
  lemma BottomTickLabel(m: Metrics)
    requires m.baseEntries != []
    ensures TickLabel(m, 1.0) == Truncate(MinValue(m) * BottomHorizontalLine)
  {
    assert Truncate(0.0) == 0;
  }

  // ---------------------------------------------------------------- average line

  /**
   * The value `drawAvgLine` places its line at, as written: the sum of the
   * base values divided by `numberOfEntries`. The range chart keeps two base
   * entries (minimum and maximum) per entry but counts one, so there the sum
   * is divided by half its number of terms.
   */
  function AverageAsWritten(m: Metrics): (avg: real)
    requires m.numberOfEntries > 0
    ensures avg * (m.numberOfEntries as real) == Sum(BaseValues(m))
  {
    Sum(BaseValues(m)) / (m.numberOfEntries as real)
  }

  /** The mean of the base values: the value the average line is meant to mark. */
  function Average(m: Metrics): (avg: real)
    requires m.baseEntries != []
    ensures avg * (|m.baseEntries| as real) == Sum(BaseValues(m))
  {
    Sum(BaseValues(m)) / (|m.baseEntries| as real)
  }

  /** The sum of a list lies between its length times its smallest and its length times its largest element. */
  lemma {:induction false} SumBounds(xs: seq<real>, lo: real, hi: real)
    requires forall x :: x in xs ==> lo <= x <= hi
    ensures (|xs| as real) * lo <= Sum(xs) <= (|xs| as real) * hi
  {
    if xs != [] {
      var init := xs[..|xs| - 1];
      assert forall x :: x in init ==> x in xs;
      assert xs[|xs| - 1] in xs;
      SumBounds(init, lo, hi);
    }
  }

  /** The mean lies between the smallest and the largest value, so its line is drawn inside the data band. */
  lemma AverageInRange(m: Metrics)
    requires m.baseEntries != []
    ensures MinValue(m) <= Average(m) <= MaxValue(m)
  {
    var xs, avg := BaseValues(m), Average(m);
    assert |xs| == |m.baseEntries|;
    assert avg * (|xs| as real) == Sum(xs);
    BaseValuesBetween(m);
    MeanInRange(xs, avg, MinValue(m), MaxValue(m));
  }

  /** Every base value lies between the smallest and the largest. */
  lemma BaseValuesBetween(m: Metrics)
    requires m.baseEntries != []
    ensures forall x :: x in BaseValues(m) ==> MinValue(m) <= x <= MaxValue(m)
  {
  }

  /** A mean of values that all lie between two bounds lies between them too. */
  lemma MeanInRange(xs: seq<real>, avg: real, lo: real, hi: real)
    requires xs != [] && avg * (|xs| as real) == Sum(xs)
    requires forall x :: x in xs ==> lo <= x <= hi
    ensures lo <= avg <= hi
  {
    SumBounds(xs, lo, hi);
    MeanBetween(avg, |xs| as real, Sum(xs), lo, hi);
  }

  /** Where the value count is the entry count (bar and grouped charts), the written average is the mean. */
  lemma AverageAsWrittenIsMean(m: Metrics)
    requires m.baseEntries != [] && m.numberOfEntries == |m.baseEntries|
    ensures AverageAsWritten(m) == Average(m)
  {
  }

  /**
   * A range chart with one entry spanning 10 to 20 has base values [10, 20]
   * and one entry: the written average is 30, above the largest value.
   */
  lemma AverageAsWrittenOverflows()
    ensures var m := Metrics(DefaultSettings, DefaultBarSettings,
                             [BaseEntry("a", 10.0), BaseEntry("a", 20.0)], 1, 100.0, 100.0, 100.0, 100.0);
      AverageAsWritten(m) == 30.0 && AverageAsWritten(m) > MaxValue(m) && Average(m) == 15.0
  {
    var m := Metrics(DefaultSettings, DefaultBarSettings,
                     [BaseEntry("a", 10.0), BaseEntry("a", 20.0)], 1, 100.0, 100.0, 100.0, 100.0);
    assert BaseValues(m) == [10.0, 20.0];
    assert [10.0, 20.0][..1] == [10.0];
    assert [10.0][..0] == [];
    assert Sum(BaseValues(m)) == 30.0;
    assert MaxOf([20.0]) == Some(20.0);
    assert MaxValue(m) == 20.0;
  }

  /** The dashed average line: the value it marks, its y, and the x it starts at. */
  datatype AvgLine = AvgLine(value: real, y: real, startX: real)

  /**
   * `drawAvgLine`, called by `drawHorizontalLines` once there are entries:
   * `None` when the line is switched off or there are no entries; otherwise
   * the line at the average as written (the sum over `numberOfEntries`),
   * starting at the y-axis label column when the y axis is shown. Every chart
   * with base entries counts at least one entry; a metrics value with base
   * entries and a count of 0 gets no line.
   */
  function AverageLine(m: Metrics): (r: Option<AvgLine>)
    ensures r.Some? <==> m.settings.showAvgLine && m.baseEntries != [] && m.numberOfEntries > 0
    ensures r.Some? ==>
      r.value.value == AverageAsWritten(m)
      && r.value.y == YPosition(m, r.value.value)
      && r.value.startX == (if m.settings.showYAxis then LeftSpacing else 0.0)
  {
    if !m.settings.showAvgLine || m.baseEntries == [] || m.numberOfEntries == 0 then None
    else
      var avg := AverageAsWritten(m);
      Some(AvgLine(avg, YPosition(m, avg), if m.settings.showYAxis then LeftSpacing else 0.0))
  }

  /**
   * Where the entry count is the number of base values (bar and grouped
   * charts), the line marks the mean, and in range mode it lies inside the
   * data band of the container.
   */
  lemma AverageLineInBand(m: Metrics)
    requires m.settings.showAvgLine && m.baseEntries != [] && m.settings.useMinMaxRange
    requires m.numberOfEntries == |m.baseEntries| && m.containerHeight >= 0.0
    ensures AverageLine(m).Some? && AverageLine(m).value.value == Average(m)
    ensures var y := AverageLine(m).value.y;
      m.containerHeight * BottomHorizontalLine / 11.0 <= y <= m.containerHeight * BottomHorizontalLine
  {
    AverageAsWrittenIsMean(m);
    AverageInRange(m);
    YPositionInBand(m, Average(m));
  }

  /**
   * The range chart of `AverageAsWrittenOverflows` in range mode, 100 points
   * high: its average line, at 30, is drawn at y = -855/11, above the top of
   * the container.
   */
  lemma AverageLineAboveRangeChart()
    ensures var s := DefaultSettings.(showAvgLine := true, useMinMaxRange := true);
      var m := Metrics(s, DefaultBarSettings, [BaseEntry("a", 10.0), BaseEntry("a", 20.0)], 1, 100.0, 100.0, 100.0, 100.0);
      AverageLine(m).Some? && AverageLine(m).value.y == -855.0 / 11.0 && AverageLine(m).value.y < 0.0
  {
    var s := DefaultSettings.(showAvgLine := true, useMinMaxRange := true);
    var m := Metrics(s, DefaultBarSettings, [BaseEntry("a", 10.0), BaseEntry("a", 20.0)], 1, 100.0, 100.0, 100.0, 100.0);
    assert BaseValues(m) == [10.0, 20.0];
    assert [10.0, 20.0][..1] == [10.0];
    assert [10.0][..0] == [];
    assert Sum(BaseValues(m)) == 30.0;
    assert MaxOf([20.0]) == Some(20.0);
    assert MaxOf(BaseValues(m)) == Some(20.0);
    assert MinOf([20.0]) == Some(20.0);
    assert MinOf(BaseValues(m)) == Some(10.0);
    assert AverageAsWritten(m) == 30.0;
    assert SatDiv(20.0, 11.0) == 20.0 / 11.0;
    assert YPosition(m, 30.0) == 100.0 * (1.0 - 20.0 / 11.0) * 0.95;
  }

  // ---------------------------------------------------------------- layout

  /** The frames `layoutSublayers` assigns. */
  datatype ChartLayout = ChartLayout(scrollContent: Size, container: Rect, xAxis: Rect, grid: Rect)

  /**
   * `layoutSublayers(of:)` for the view's own layer: the container starts
   * right of the y-axis labels, is at least as wide as the view minus the
   * label column, and the x axis strip sits directly below it.
   */
  function ComputeLayout(s: ChartSettings, contentSize: Size, viewWidth: real): (l: ChartLayout)
    ensures var contentX := (if s.showYAxis then LeftSpacing + ContainerLeftMargin else 0.0) + s.insets.left;
      l.container.x == contentX && l.container.y == s.insets.top
      && l.container.width >= contentSize.width && l.container.width >= viewWidth - LeftSpacing
      && (l.container.width == contentSize.width || l.container.width == viewWidth - LeftSpacing)
      && l.container.height == contentSize.height - (if s.showXAxis then s.bottomSpace else 0.0) + s.insets.top
    ensures l.xAxis.x == l.container.x && l.xAxis.width == l.container.Width()
      && l.xAxis.y == l.container.y + l.container.Height()
      && l.xAxis.height == (if s.showXAxis then s.bottomSpace else 0.0)
    ensures l.grid.x == s.insets.left && l.grid.y == l.container.y && l.grid.height == l.container.height
      && l.grid.x + l.grid.width == l.container.x + l.container.Width() + (if s.showAvgLine then RightAvgSpacing else 0.0)
    ensures l.scrollContent.height == contentSize.height
      && l.scrollContent.width == l.container.x + l.container.width + RightAvgSpacing
  {
    var y := s.insets.top;
    var contentX := (if s.showYAxis then LeftSpacing + ContainerLeftMargin else 0.0) + s.insets.left;
    var contentWidth := if contentSize.width >= viewWidth - LeftSpacing then contentSize.width else viewWidth - LeftSpacing;
    var totalWidth := contentWidth + RightAvgSpacing + contentX;
    var height := contentSize.height - (if s.showXAxis then s.bottomSpace else 0.0) + s.insets.top;
    var container := Rect(contentX, y, contentWidth, height);
    ChartLayout(
      Size(totalWidth, contentSize.height),
      container,
      Rect(contentX, y + container.Height(), container.Width(), if s.showXAxis then s.bottomSpace else 0.0),
      Rect(s.insets.left, y, contentX + container.Width() + (if s.showAvgLine then RightAvgSpacing else 0.0) - s.insets.left, height))
  }
}
