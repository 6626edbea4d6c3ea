/**
 * `LegendLayer`: the legend under a chart. Every entry is a coloured dot
 * followed by its label; all entries take the width of the widest, and
 * they are laid out in rows across the layer's width.
 *
 * Text measurement is foreign: the label widths are given, in entry order.
 * Swift's `Int(floor(x))` traps when `x` is not finite and `%` traps on a
 * zero divisor; those are the preconditions below.
 */
module Legends {
  import opened Geometry
  import opened Arith

  /** `circleDiameter`, `spacing`, `labelSpacing` and `rowSpacing`. */
  const CircleDiameter: real := 10.0
  const EntrySpacing: real := 10.0
  const LabelSpacing: real := 14.0
  const RowSpacing: real := 20.0

  /** `LegendEntry`: a colour and a label (`caption`). */
  datatype LegendEntry = LegendEntry(color: Color, caption: string)

  /**
   * `maxLabelWidth`: the `reduce` with `max` over the widths of the first `n`
   * labels, starting at 0.
   */
  function MaxLabelWidth(widths: seq<real>, n: nat := |widths|): (r: real)
    requires n <= |widths|
    ensures r >= 0.0
    ensures forall i :: 0 <= i < n ==> widths[i] <= r
    ensures r == 0.0 || exists i :: 0 <= i < n && r == widths[i]
  {
    if n == 0 then 0.0
    else
      var acc := MaxLabelWidth(widths, n - 1);
      if acc < widths[n - 1] then widths[n - 1] else acc
  }

  /** `legendWidth`: the room one entry takes, the dot, the gap to the label, the widest label and the spacing. */
  function LegendWidth(widths: seq<real>): (r: real)
    ensures r == CircleDiameter + LabelSpacing + MaxLabelWidth(widths) + EntrySpacing
    ensures r >= CircleDiameter + LabelSpacing + EntrySpacing
    ensures forall i :: 0 <= i < |widths| ==> LabelSpacing + widths[i] < r
  {
    CircleDiameter + LabelSpacing + MaxLabelWidth(widths) + EntrySpacing
  }

  /** `maxEntryPerRow`: how many entry widths fit in the layer's width. */
  function EntriesPerRow(width: real, legendWidth: real): (p: int)
    requires legendWidth > 0.0
    ensures p as real <= width / legendWidth < p as real + 1.0
  {
    (width / legendWidth).Floor
  }

  /** The entries of a row never stick out of the layer: `maxEntryPerRow` entry widths fit in its width. */
  lemma RowFits(width: real, legendWidth: real)
    requires legendWidth > 0.0
    ensures (EntriesPerRow(width, legendWidth) as real) * legendWidth <= width
    ensures width < (EntriesPerRow(width, legendWidth) as real + 1.0) * legendWidth
  {
    var p := EntriesPerRow(width, legendWidth) as real;
    ScaleAtLeast(p, width, legendWidth);
    ScaleBelow(p + 1.0, width, legendWidth);
  }

  /** Scaling `p <= w / f` by a positive `f` gives `p * f <= w`. */
  lemma ScaleAtLeast(p: real, w: real, f: real)
    requires f > 0.0 && p <= w / f
    ensures p * f <= w
  {
    var q := w / f;
    assert q * f == w;
    assert (q - p) * f >= 0.0;
    assert (q - p) * f == w - p * f;
  }

  /** Scaling `w / f < p` by a positive `f` gives `w < p * f`. */
  lemma ScaleBelow(p: real, w: real, f: real)
    requires f > 0.0 && w / f < p
    ensures w < p * f
  {
    var q := w / f;
    assert q * f == w;
    MulPositive(p - q, f);
    assert (p - q) * f == p * f - w;
  }

  // ---------------------------------------------------------------- rows as written

  /** `getRowNumber(for:)`: how many layer widths the right edge of entry `index`, laid out in one long line, has passed. */
  function RowNumber(width: real, legendWidth: real, index: int): int
    requires width > 0.0
  {
    ((legendWidth * (index as real) + legendWidth) / width).Floor
  }

  /** `totalNumberOfRows`: the same count for the last of `count` entries. */
  function TotalRows(width: real, legendWidth: real, count: int): int
    requires width > 0.0
  {
    ((legendWidth * ((count - 1) as real) + legendWidth) / width).Floor
  }

  /** The x of entry `index`: its column, `index % maxEntryPerRow`, times the entry width. */
  function ColumnX(width: real, legendWidth: real, index: nat): real
    requires legendWidth > 0.0 && EntriesPerRow(width, legendWidth) >= 1
  {
    legendWidth * ((index % EntriesPerRow(width, legendWidth)) as real)
  }

  /** `getPoint(at:)`: the column from `index % maxEntryPerRow`, the row from `getRowNumber(for:)`. */
  function EntryPoint(width: real, legendWidth: real, index: nat): Point
    requires legendWidth > 0.0 && width > 0.0 && EntriesPerRow(width, legendWidth) >= 1
  {
    Point(ColumnX(width, legendWidth, index), RowSpacing * (RowNumber(width, legendWidth, index) as real))
  }

  /** `layoutIfNeeded`: the layer is one row spacing taller than the last row's top. */
  function LayerHeight(width: real, legendWidth: real, count: int): real
    requires width > 0.0
  {
    (TotalRows(width, legendWidth, count) as real) * RowSpacing + RowSpacing
  }

  /**
   * `layoutIfNeeded`: the layer spans the width of its superlayer and sits
   * at its bottom edge; its rows are counted with the layer's current
   * width.
   */
  function LegendFrame(superWidth: real, superHeight: real, width: real, widths: seq<real>): (r: Rect)
    requires width > 0.0
    ensures r.y + r.height == superHeight && r.width == superWidth
    ensures r.height == LayerHeight(width, LegendWidth(widths), |widths|)
  {
    var height := LayerHeight(width, LegendWidth(widths), |widths|);
    Rect(0.0, superHeight - height, superWidth, height)
  }

  /** `addLabel(for:at:)`: the label's frame starts `labelSpacing` right of its dot, as wide as its text. */
  function LabelFrame(point: Point, labelWidth: real, pointSize: real): (r: Rect)
    ensures r.x - point.x == LabelSpacing && r.y == point.y && r.width == labelWidth
  {
    Rect(point.x + LabelSpacing, point.y, labelWidth, pointSize + 2.0)
  }

  /** Every entry's dot and label lie inside the layer's width. */
  lemma EntryInsideWidth(width: real, legendWidth: real, index: nat)
    requires legendWidth > 0.0 && width > 0.0 && EntriesPerRow(width, legendWidth) >= 1
    ensures 0.0 <= EntryPoint(width, legendWidth, index).x
    ensures EntryPoint(width, legendWidth, index).x + legendWidth <= width
  {
    var p := EntriesPerRow(width, legendWidth);
    var c := index % p;
    assert EntryPoint(width, legendWidth, index).x == legendWidth * (c as real);
    RowFits(width, legendWidth);
    ColumnFits(width, legendWidth, c as real, p as real);
  }

  /** A column `c` before column `p` ends within `p` entry widths, and so within the width. */
  lemma ColumnFits(width: real, legendWidth: real, c: real, p: real)
    requires legendWidth > 0.0 && 0.0 <= c && c + 1.0 <= p && p * legendWidth <= width
    ensures 0.0 <= legendWidth * c && legendWidth * c + legendWidth <= width
  {
    MulMonotone(legendWidth, 0.0, c);
    MulMonotone(legendWidth, c + 1.0, p);
    assert legendWidth * (c + 1.0) == legendWidth * c + legendWidth;
    assert legendWidth * p == p * legendWidth;
  }

  /** Later entries never sit in an earlier row. */
  lemma RowsNonDecreasing(width: real, legendWidth: real, i: int, j: int)
    requires width > 0.0 && legendWidth >= 0.0 && i <= j
    ensures RowNumber(width, legendWidth, i) <= RowNumber(width, legendWidth, j)
  {
    var a := legendWidth * (i as real) + legendWidth;
    var b := legendWidth * (j as real) + legendWidth;
    MulMonotone(legendWidth, i as real, j as real);
    DivMonotone(a, b, width);
  }

  /** Dividing by a positive number keeps the order. */
  lemma DivMonotone(a: real, b: real, d: real)
    requires d > 0.0 && a <= b
    ensures a / d <= b / d
  {
    assert (a / d) * d == a && (b / d) * d == b;
  }

  /** The number of rows is the row of the last entry. */
  lemma TotalRowsIsLastRow(width: real, legendWidth: real, count: int)
    requires width > 0.0
    ensures TotalRows(width, legendWidth, count) == RowNumber(width, legendWidth, count - 1)
  {
  }

  /** The layer is tall enough for every entry: each row's top plus one row spacing is within its height. */
  lemma EntriesInsideHeight(width: real, legendWidth: real, count: int, index: nat)
    requires legendWidth > 0.0 && width > 0.0 && EntriesPerRow(width, legendWidth) >= 1
    requires index < count
    ensures EntryPoint(width, legendWidth, index).y + RowSpacing <= LayerHeight(width, legendWidth, count)
  {
    RowsNonDecreasing(width, legendWidth, index, count - 1);
  }

  /**
   * The columns repeat every `maxEntryPerRow` entries but the rows are
   * counted by width: with a layer 100 wide and entries 40 wide (labels 6
   * wide) two entries fit in a row, yet entries 4, 5 and 6 all get row 2,
   * and entries 4 and 6 are drawn at the same point.
   */
  lemma RowCollision()
    ensures LegendWidth([6.0]) == 40.0 && EntriesPerRow(100.0, 40.0) == 2
    ensures EntryPoint(100.0, 40.0, 4) == EntryPoint(100.0, 40.0, 6) == Point(0.0, 40.0)
  {
    assert MaxLabelWidth([6.0]) == 6.0;
    assert (100.0 / 40.0).Floor == 2;
    assert ((40.0 * 4.0 + 40.0) / 100.0).Floor == 2;
    assert ((40.0 * 6.0 + 40.0) / 100.0).Floor == 2;
  }

  // ---------------------------------------------------------------- rows as intended

  /** The row the column arithmetic implies: `index / maxEntryPerRow`. */
  function GridRow(width: real, legendWidth: real, index: nat): (row: nat)
    requires legendWidth > 0.0 && EntriesPerRow(width, legendWidth) >= 1
    ensures row * EntriesPerRow(width, legendWidth) + index % EntriesPerRow(width, legendWidth) == index
  {
    index / EntriesPerRow(width, legendWidth)
  }

  /** The point of entry `index` with rows of `maxEntryPerRow` entries each. */
  function GridPoint(width: real, legendWidth: real, index: nat): (pt: Point)
    requires legendWidth > 0.0 && EntriesPerRow(width, legendWidth) >= 1
    ensures pt.x == ColumnX(width, legendWidth, index)
  {
    Point(ColumnX(width, legendWidth, index), RowSpacing * (GridRow(width, legendWidth, index) as real))
  }

  /** The layer height for `count` entries in rows of `maxEntryPerRow`. */
  function GridHeight(width: real, legendWidth: real, count: nat): real
    requires legendWidth > 0.0 && EntriesPerRow(width, legendWidth) >= 1
  {
    if count == 0 then RowSpacing
    else (GridRow(width, legendWidth, count - 1) as real) * RowSpacing + RowSpacing
  }

  /** With rows of `maxEntryPerRow` entries no two entries share a point. */
  lemma GridPointsDistinct(width: real, legendWidth: real, i: nat, j: nat)
    requires legendWidth > 0.0 && EntriesPerRow(width, legendWidth) >= 1
    requires i != j
    ensures GridPoint(width, legendWidth, i) != GridPoint(width, legendWidth, j)
  {
    var p := EntriesPerRow(width, legendWidth);
    var ci, cj := i % p, j % p;
    if ci != cj {
      MulDistinct(ci as real, cj as real, legendWidth);
      assert GridPoint(width, legendWidth, i).x != GridPoint(width, legendWidth, j).x;
    } else {
      assert GridRow(width, legendWidth, i) != GridRow(width, legendWidth, j);
      assert GridPoint(width, legendWidth, i).y != GridPoint(width, legendWidth, j).y;
    }
  }

  /** Every entry of the grid lies inside the layer, across and down. */
  lemma GridInsideLayer(width: real, legendWidth: real, count: nat, index: nat)
    requires legendWidth > 0.0 && width > 0.0 && EntriesPerRow(width, legendWidth) >= 1
    requires index < count
    ensures 0.0 <= GridPoint(width, legendWidth, index).x
    ensures GridPoint(width, legendWidth, index).x + legendWidth <= width
    ensures GridPoint(width, legendWidth, index).y + RowSpacing <= GridHeight(width, legendWidth, count)
  {
    EntryInsideWidth(width, legendWidth, index);
    var p := EntriesPerRow(width, legendWidth);
    DivLeq(index, count - 1, p);
  }

  /** Integer division by a positive number keeps the order. */
  lemma DivLeq(a: nat, b: nat, d: int)
    requires d >= 1 && a <= b
    ensures a / d <= b / d
  {
    var qa, qb := a / d, b / d;
    assert qa * d <= a;
    assert b < (qb + 1) * d;
    MulLessCancel(qa, qb + 1, d);
  }

  /** Where the rows agree: the two layouts put the first `maxEntryPerRow` entries at the same points in row 0. */
  lemma FirstRowAgrees(width: real, legendWidth: real, index: nat)
    requires legendWidth > 0.0 && width > 0.0 && EntriesPerRow(width, legendWidth) >= 1
    requires index + 1 < EntriesPerRow(width, legendWidth)
    ensures GridPoint(width, legendWidth, index) == EntryPoint(width, legendWidth, index)
  {
    var p := EntriesPerRow(width, legendWidth);
    DivModUnique(index, p, 0, index);
    assert GridRow(width, legendWidth, index) == 0;
    RowFits(width, legendWidth);
    PrefixFits(width, legendWidth, p as real, index as real);
    DivBelowOne(legendWidth * (index as real) + legendWidth, width);
    assert RowNumber(width, legendWidth, index) == 0;
  }

  /** An entry two or more places before the end of a full row ends strictly inside the width. */
  lemma PrefixFits(width: real, legendWidth: real, p: real, k: real)
    requires legendWidth > 0.0 && 0.0 <= k && k + 2.0 <= p && p * legendWidth <= width
    ensures 0.0 <= legendWidth * k + legendWidth < width
  {
    MulMonotone(legendWidth, k + 2.0, p);
    MulMonotone(legendWidth, 0.0, k);
    assert legendWidth * (k + 2.0) == legendWidth * k + legendWidth + legendWidth;
    assert legendWidth * p == p * legendWidth;
  }

  /** A non-negative number below a positive one divides to a floor of 0. */
  lemma DivBelowOne(a: real, d: real)
    requires d > 0.0 && 0.0 <= a < d
    ensures (a / d).Floor == 0
  {
    assert (a / d) * d == a;
    if a / d >= 1.0 {
      MulMonotone(d, 1.0, a / d);
    }
  }
}
