/**
 * The bar geometry of `BaseBarChartView`: bar width, bar positions, the
 * content width of the scrollable area and the x-axis label slots.
 *
 * Swift evaluates these formulas in floating point, where a division by a
 * zero slot count yields an infinity or NaN. Here they are exact, and
 * `BarGeometryDefined` names the inputs for which every intermediate value is
 * finite; `ContentSize` reproduces the source's mapping of the non-finite
 * case to a width of 0.
 */
module BarScale {
  import opened Wrappers
  import opened Geometry
  import opened ChartOptions
  import opened Scale

  /** `barWidth` is finite: `minBarWidth` is set, or the slot count it divides by is not 0 and the spacing is finite. */
  predicate BarWidthDefined(m: Metrics) {
    m.bar.minBarWidth.Some? || (MinEntries(m) != 0 && SpacingDefined(m))
  }

  /** Both the spacing and the bar width are finite. */
  predicate BarGeometryDefined(m: Metrics) {
    SpacingDefined(m) && BarWidthDefined(m)
  }

  /**
   * `barWidth`: `minBarWidth` when set; otherwise the view width is divided
   * into `_minEntryCount` slots and each bar is a slot minus the spacing.
   */
  function BarWidth(m: Metrics): (r: real)
    requires BarWidthDefined(m)
    ensures m.bar.minBarWidth.Some? ==> r == m.bar.minBarWidth.value
    ensures m.bar.minBarWidth.None? ==> (r + Spacing(m)) * (MinEntries(m) as real) == m.viewWidth
  {
    match m.bar.minBarWidth
    case Some(w) => w
    case None => m.viewWidth / (MinEntries(m) as real) - Spacing(m)
  }

  /** Without `minBarWidth` the view width is exactly `_minEntryCount` pitches. */
  lemma BarWidthFillsView(m: Metrics)
    requires BarWidthDefined(m) && m.bar.minBarWidth.None?
    ensures (BarWidth(m) + Spacing(m)) * (MinEntries(m) as real) == m.viewWidth
  {
  }

  /** The distance from one bar's left edge to the next: a bar plus the spacing. */
  function Pitch(m: Metrics): real
    requires BarGeometryDefined(m)
  {
    BarWidth(m) + Spacing(m)
  }

  /** `BaseBarChartView.calculateXPos`: the left edge of bar `index`. */
  function BarX(m: Metrics, index: int): real
    requires BarGeometryDefined(m)
  {
    (index as real) * Pitch(m)
  }

  /** Consecutive bars are exactly one spacing apart: bar `i` ends `spacing` before bar `i + 1` starts. */
  lemma BarsSpacedEvenly(m: Metrics, i: int)
    requires BarGeometryDefined(m)
    ensures BarX(m, i + 1) - (BarX(m, i) + BarWidth(m)) == Spacing(m)
  {
    assert BarX(m, i + 1) == BarX(m, i) + Pitch(m);
  }

  /**
   * `BaseBarChartView.computeContentSize`: the bars and the spacings between
   * them (one spacing fewer than bars), by the view height; a width that is
   * not a number becomes 0.
   */
  function ContentSize(m: Metrics): (size: Size)
    ensures size.height == m.viewHeight
    ensures BarGeometryDefined(m) ==> size.width == Pitch(m) * (m.numberOfEntries as real) - Spacing(m)
    ensures !BarGeometryDefined(m) ==> size.width == 0.0
  {
    Size(if BarGeometryDefined(m) then Pitch(m) * (m.numberOfEntries as real) - Spacing(m) else 0.0, m.viewHeight)
  }

  /** The content ends exactly at the right edge of the last bar. */
  lemma ContentEndsAtLastBar(m: Metrics)
    requires BarGeometryDefined(m) && m.numberOfEntries > 0
    ensures BarX(m, m.numberOfEntries - 1) + BarWidth(m) == Pitch(m) * (m.numberOfEntries as real) - Spacing(m)
  {
    var n := m.numberOfEntries as real;
    assert BarX(m, m.numberOfEntries - 1) == (n - 1.0) * Pitch(m);
  }

  /**
   * With neither `minBarWidth` nor `minEntryCount` set, the bars and their
   * spacings fill the view exactly, less the one trailing spacing.
   */
  lemma DefaultBarsFillView(m: Metrics)
    requires m.bar.minBarWidth.None? && m.settings.minEntryCount.None?
    requires m.numberOfEntries > 0 && SpacingDefined(m)
    ensures BarGeometryDefined(m)
    ensures Pitch(m) * (m.numberOfEntries as real) - Spacing(m) == m.viewWidth - Spacing(m)
  {
    assert MinEntries(m) == m.numberOfEntries;
  }

  /** `BaseBarChartView.getXPostionForXAxis`: a label slot starts half a spacing left of its bar. */
  function AxisLabelX(m: Metrics, index: int): real
    requires BarGeometryDefined(m)
  {
    BarX(m, index) - Spacing(m) / 2.0
  }

  /** `BaseBarChartView.widthForXLabel`: every label slot is one pitch wide. */
  function AxisLabelWidth(m: Metrics): real
    requires BarGeometryDefined(m)
  {
    BarWidth(m) + Spacing(m)
  }

  /** Each label slot is centred under its bar. */
  lemma LabelCentredUnderBar(m: Metrics, i: int)
    requires BarGeometryDefined(m)
    ensures AxisLabelX(m, i) + AxisLabelWidth(m) / 2.0 == BarX(m, i) + BarWidth(m) / 2.0
  {
  }

  /** The label slots tile the axis: each ends where the next begins. */
  lemma LabelSlotsTile(m: Metrics, i: int)
    requires BarGeometryDefined(m)
    ensures AxisLabelX(m, i) + AxisLabelWidth(m) == AxisLabelX(m, i + 1)
  {
    BarsSpacedEvenly(m, i);
  }

  // ---------------------------------------------------------------- bar frames

  /**
   * The bar width the generators hand to each bar: `barWidth` where it is
   * finite; where Swift's value is infinite or not a number the model
   * records 0.
   */
  function UsedBarWidth(m: Metrics): real {
    if BarGeometryDefined(m) then BarWidth(m) else 0.0
  }

  /** `calculateXPos(for:)` for a bar, with 0 where Swift's value is not finite. */
  function UsedBarX(m: Metrics, index: int): real {
    if BarGeometryDefined(m) then BarX(m, index) else 0.0
  }

  /** The frame of the container of bar `index`: its slot, the full height of the chart's container. */
  function SlotFrame(m: Metrics, index: int): (r: Rect)
    ensures r.y == 0.0 && r.height == m.containerHeight
    ensures BarGeometryDefined(m) ==> r.x == BarX(m, index) && r.width == BarWidth(m)
  {
    Rect(UsedBarX(m, index), 0.0, UsedBarWidth(m), m.containerHeight)
  }

  /** Bar containers of neighbouring slots are exactly one spacing apart. */
  lemma SlotFramesSpaced(m: Metrics, i: int)
    requires BarGeometryDefined(m)
    ensures SlotFrame(m, i + 1).x - (SlotFrame(m, i).x + SlotFrame(m, i).width) == Spacing(m)
  {
    BarsSpacedEvenly(m, i);
  }
}
