/**
 * `LineChartView`: a week of integer values drawn as a line over seven
 * columns. The points are sorted by date, the earliest seven are kept, and
 * a shorter list is padded at the front with copies of its earliest value
 * on the days before it.
 *
 * Dates are whole days (`Day`), and going back one day always succeeds.
 * The view's bounds are the fields `width` and `height`.
 */
module LineCharts {
  import opened Wrappers
  import opened Geometry
  import opened Entries
  import opened Arith

  /** How many points the chart shows: one per day of a week. */
  const WeekLength: nat := 7

  // ---------------------------------------------------------------- sorting

  /** Ascending by date (`LineChartEntryModel.<`), entries on the same day in any order. */
  predicate DateSorted(s: seq<LineEntry>) {
    forall i, j :: 0 <= i < j < |s| ==> s[i].date <= s[j].date
  }

  /** Inserts `e` before the first entry that is not earlier than it. */
  function InsertByDate(e: LineEntry, s: seq<LineEntry>): (r: seq<LineEntry>)
    requires DateSorted(s)
    ensures multiset(r) == multiset(s) + multiset{e}
    ensures |r| == |s| + 1 && (r[0] == e || (s != [] && r[0] == s[0]))
    ensures DateSorted(r)
  {
    if s == [] || !LineLess(s[0], e) then [e] + s
    else
      var tail := s[1..];
      TailSorted(s);
      var rest := InsertByDate(e, tail);
      InsertStep(e, s, rest);
      [s[0]] + rest
  }

  /** The tail of a sorted list is sorted. */
  lemma TailSorted(s: seq<LineEntry>)
    requires DateSorted(s) && s != []
    ensures DateSorted(s[1..])
  {
    var tail := s[1..];
    forall i, j | 0 <= i < j < |tail| ensures tail[i].date <= tail[j].date {
      assert tail[i] == s[i + 1] && tail[j] == s[j + 1];
    }
  }

  /** Putting the head back in front of the tail with `e` inserted completes the insertion. */
  lemma InsertStep(e: LineEntry, s: seq<LineEntry>, rest: seq<LineEntry>)
    requires DateSorted(s) && s != [] && LineLess(s[0], e)
    requires multiset(rest) == multiset(s[1..]) + multiset{e}
    requires |rest| == |s| && (rest[0] == e || (|s| > 1 && rest[0] == s[1]))
    requires DateSorted(rest)
    ensures multiset([s[0]] + rest) == multiset(s) + multiset{e}
    ensures DateSorted([s[0]] + rest)
  {
    assert s == [s[0]] + s[1..];
    assert multiset(s) == multiset{s[0]} + multiset(s[1..]);
    assert |s| > 1 ==> s[0].date <= s[1].date;
    SortedCons(s[0], rest);
  }

  /** An entry no later than the head of a sorted list keeps it sorted in front. */
  lemma SortedCons(x: LineEntry, s: seq<LineEntry>)
    requires DateSorted(s) && (s == [] || x.date <= s[0].date)
    ensures DateSorted([x] + s)
  {
    var r := [x] + s;
    forall i, j | 0 <= i < j < |r|
      ensures r[i].date <= r[j].date
    {
      if i == 0 && j > 1 {
        assert r[j] == s[j - 1] && s[0].date <= s[j - 1].date;
      }
    }
  }

  /** `sorted()`: the entries in ascending date order (an insertion sort, stable). */
  function SortByDate(ps: seq<LineEntry>): (r: seq<LineEntry>)
    ensures multiset(r) == multiset(ps) && |r| == |ps|
    ensures DateSorted(r)
  {
    if ps == [] then []
    else
      assert ps == [ps[0]] + ps[1..];
      InsertByDate(ps[0], SortByDate(ps[1..]))
  }

  /** `Array(graphPoints.sorted().prefix(7))`: the earliest seven entries, in date order. */
  function Kept(ps: seq<LineEntry>): (r: seq<LineEntry>)
    ensures |r| == if |ps| < WeekLength then |ps| else WeekLength
  {
    var s := SortByDate(ps);
    if |s| < WeekLength then s else s[..WeekLength]
  }

  /** The entries `prefix(7)` leaves out. */
  function Dropped(ps: seq<LineEntry>): seq<LineEntry> {
    var s := SortByDate(ps);
    if |s| < WeekLength then [] else s[WeekLength..]
  }

  /**
   * The kept entries are the earliest: together with the dropped ones they
   * are the input, they are in date order, and none of them is later than
   * a dropped one.
   */
  lemma KeptAreEarliest(ps: seq<LineEntry>)
    ensures multiset(Kept(ps)) + multiset(Dropped(ps)) == multiset(ps)
    ensures DateSorted(Kept(ps))
    ensures forall i, j :: 0 <= i < |Kept(ps)| && 0 <= j < |Dropped(ps)| ==> Kept(ps)[i].date <= Dropped(ps)[j].date
  {
    var s := SortByDate(ps);
    if |s| >= WeekLength {
      var k, d := s[..WeekLength], s[WeekLength..];
      assert s == k + d;
      forall i, j | 0 <= i < |k| && 0 <= j < |d|
        ensures k[i].date <= d[j].date
      {
        assert k[i] == s[i] && d[j] == s[WeekLength + j];
      }
      forall i, j | 0 <= i < j < |k|
        ensures k[i].date <= k[j].date
      {
        assert k[i] == s[i] && k[j] == s[j];
      }
    }
  }

  // ---------------------------------------------------------------- the week

  /** `count` copies of `first`'s value on the `count` days before `first`, earliest first. */
  function Padding(first: LineEntry, count: nat): (r: seq<LineEntry>) {
    seq(count, j => LineEntry(first.value, first.date - count + j))
  }

  /** One more day of padding is one more entry, the day before, in front. */
  lemma PaddingStep(first: LineEntry, count: nat)
    ensures [LineEntry(first.value, first.date - count - 1)] + Padding(first, count) == Padding(first, count + 1)
  {
    var a := [LineEntry(first.value, first.date - count - 1)] + Padding(first, count);
    var b := Padding(first, count + 1);
    assert |a| == |b|;
    forall j | 0 <= j < |a|
      ensures a[j] == b[j]
    {
      if j > 0 {
        assert a[j] == Padding(first, count)[j - 1];
      }
    }
  }

  /** `sortedGraphPoints` as `setSortedGraphPoints()` leaves it: the kept entries, padded in front to a week. */
  function Week(ps: seq<LineEntry>): (r: seq<LineEntry>) {
    var k := Kept(ps);
    if k == [] then [] else Padding(k[0], WeekLength - |k|) + k
  }

  /** No input gives nothing to draw; any input gives exactly a week of points. */
  lemma WeekLengthIsSeven(ps: seq<LineEntry>)
    ensures ps == [] ==> Week(ps) == []
    ensures ps != [] ==> |Week(ps)| == WeekLength
  {
  }

  /**
   * The week ends with the kept entries, in date order, and starts with
   * the padding: the earliest value, one entry per day, on the days just
   * before the earliest kept entry.
   */
  lemma WeekShape(ps: seq<LineEntry>)
    requires ps != []
    ensures var w, k := Week(ps), Kept(ps);
      && w[WeekLength - |k|..] == k
      && (forall j :: 0 <= j < WeekLength - |k| ==> w[j].value == k[0].value)
      && (forall j :: 0 <= j < WeekLength - |k| ==> w[j + 1].date == w[j].date + 1)
  {
    var w, k := Week(ps), Kept(ps);
    var n := WeekLength - |k|;
    assert w == Padding(k[0], n) + k;
    forall j | 0 <= j < n
      ensures w[j + 1].date == w[j].date + 1
    {
      if j + 1 == n {
        assert w[j + 1] == k[0];
      }
    }
  }

  /** The week is in ascending date order. */
  lemma WeekSorted(ps: seq<LineEntry>)
    ensures DateSorted(Week(ps))
  {
    var w, k := Week(ps), Kept(ps);
    KeptAreEarliest(ps);
    if k != [] {
      var n := WeekLength - |k|;
      assert w == Padding(k[0], n) + k;
      forall i, j | 0 <= i < j < |w|
        ensures w[i].date <= w[j].date
      {
        if j >= n {
          assert w[j] == k[j - n];
          if i >= n {
            assert w[i] == k[i - n];
          } else {
            assert k[0].date <= k[j - n].date;
          }
        }
      }
    }
  }

  /** Every value in the week is the value of one of the input points. */
  lemma WeekValuesFromInput(ps: seq<LineEntry>, j: nat)
    requires j < |Week(ps)|
    ensures Week(ps)[j].value as real in LineValues(ps)
  {
    var w, k := Week(ps), Kept(ps);
    var n := WeekLength - |k|;
    KeptAreEarliest(ps);
    var e := if j < n then k[0] else k[j - n];
    assert w[j].value == e.value;
    assert e in multiset(k);
    assert e in multiset(ps);
    var i :| 0 <= i < |ps| && ps[i] == e;
    assert LineValues(ps)[i] == e.value as real;
  }

  // ---------------------------------------------------------------- columns

  /** `columnXPoint(_:)`: seven columns spread over the width less the margins and 2 on each side. */
  function ColumnX(width: real, margin: real, column: int): real {
    (column as real) * ((width - margin * 2.0 - 4.0) / 6.0) + margin + 2.0
  }

  /** Column 0 is 2 right of the left margin, column 6 is 2 left of the right margin, and the columns are evenly spaced. */
  lemma ColumnsSpan(width: real, margin: real, column: int)
    ensures ColumnX(width, margin, 0) == margin + 2.0
    ensures ColumnX(width, margin, 6) == width - margin - 2.0
    ensures ColumnX(width, margin, column + 1) - ColumnX(width, margin, column) == (width - margin * 2.0 - 4.0) / 6.0
  {
  }

  /** The values of `graphPoints`, which `max()` and `min()` compare. */
  function LineValues(ps: seq<LineEntry>): (vs: seq<real>)
    ensures |vs| == |ps| && forall i :: 0 <= i < |ps| ==> vs[i] == ps[i].value as real
  {
    seq(|ps|, i requires 0 <= i < |ps| => ps[i].value as real)
  }

  /**
   * `columnYPoint(_:)` for value `v`, with the scale taken from all of
   * `values` (the unsorted `graphPoints`). The graph spans from `top` down
   * to `height - bottom`; the smallest value is pinned to its middle and the
   * others are placed by their share of the largest. A largest value of 0
   * divides by zero: 0/0 is not a number, which the source replaces by half
   * the graph height; any other value over 0 is infinite, times a graph
   * height of 0 not a number again, and otherwise the result is not
   * finite, which the model records as 0.
   */
  function ColumnY(height: real, top: real, bottom: real, values: seq<real>, v: int): (y: real)
    ensures values == [] ==> y == height - bottom
    ensures MinOf(values) == Some(v as real) ==> y == (top + (height - bottom)) / 2.0
  {
    var graphHeight := height - top - bottom;
    match MaxOf(values)
    case None => graphHeight + top
    case Some(maxValue) =>
      if MinOf(values) == Some(v as real) then graphHeight * 0.5 + top
      else if maxValue != 0.0 then ScaledY(graphHeight, top, v as real, maxValue)
      else if v == 0 || graphHeight == 0.0 then graphHeight + top - 0.5 * graphHeight
      else 0.0
  }

  /** The height of `x` as a share of `maxValue`, measured up from the bottom of a graph `graphHeight` tall starting at `top`. */
  function ScaledY(graphHeight: real, top: real, x: real, maxValue: real): real
    requires maxValue != 0.0
  {
    graphHeight + top - x / maxValue * graphHeight
  }

  /** Shares between 0 and 1 land between the top and the bottom of the graph, a share of 1 on the top. */
  lemma ScaledInBand(graphHeight: real, top: real, x: real, maxValue: real)
    requires 0.0 <= x <= maxValue && maxValue > 0.0 && graphHeight >= 0.0
    ensures top <= ScaledY(graphHeight, top, x, maxValue) <= graphHeight + top
    ensures x == maxValue ==> ScaledY(graphHeight, top, x, maxValue) == top
  {
    var f := x / maxValue;
    assert f * maxValue == x;
    assert 0.0 <= f <= 1.0;
    MulMonotone(graphHeight, 0.0, f);
    MulMonotone(graphHeight, f, 1.0);
    assert f * graphHeight == graphHeight * f;
  }

  /** A larger share is drawn higher up. */
  lemma ScaledOrder(graphHeight: real, top: real, x1: real, x2: real, maxValue: real)
    requires maxValue > 0.0 && graphHeight > 0.0 && x1 < x2
    ensures ScaledY(graphHeight, top, x2, maxValue) < ScaledY(graphHeight, top, x1, maxValue)
  {
    var f1, f2 := x1 / maxValue, x2 / maxValue;
    DivStrict(x1, x2, maxValue);
    MulPositive(f2 - f1, graphHeight);
    assert f2 * graphHeight - f1 * graphHeight == (f2 - f1) * graphHeight;
  }

  /**
   * With non-negative values, a positive largest one and room for the graph,
   * every value of the set is drawn between the top and bottom borders, the
   * largest one on the top border.
   */
  lemma ColumnYInBand(height: real, top: real, bottom: real, values: seq<real>, v: int)
    requires v as real in values
    requires MinOf(values).value >= 0.0 && MaxOf(values).value > 0.0
    requires height - top - bottom >= 0.0
    ensures top <= ColumnY(height, top, bottom, values, v) <= height - bottom
    ensures Some(v as real) == MaxOf(values) != MinOf(values) ==> ColumnY(height, top, bottom, values, v) == top
  {
    var x := v as real;
    assert MinOf(values).value <= x <= MaxOf(values).value;
    if MinOf(values) != Some(x) {
      ScaledInBand(height - top - bottom, top, x, MaxOf(values).value);
    }
  }

  /** Between a positive largest value and the pinned smallest one, a larger value is drawn higher up. */
  lemma ColumnYOrder(height: real, top: real, bottom: real, values: seq<real>, v1: int, v2: int)
    requires MaxOf(values).Some? && MaxOf(values).value > 0.0 && height - top - bottom > 0.0
    requires MinOf(values) != Some(v1 as real) && MinOf(values) != Some(v2 as real)
    requires v1 < v2
    ensures ColumnY(height, top, bottom, values, v2) < ColumnY(height, top, bottom, values, v1)
  {
    ScaledOrder(height - top - bottom, top, v1 as real, v2 as real, MaxOf(values).value);
  }

  /** Dividing by a positive number keeps a strict order. */
  lemma DivStrict(a: real, b: real, d: real)
    requires d > 0.0 && a < b
    ensures a / d < b / d
  {
    assert (a / d) * d == a && (b / d) * d == b;
  }

  // ---------------------------------------------------------------- the view

  /** A straight line of the grid. */
  datatype Segment = Segment(from: Point, to: Point)

  /** What `draw(_:)` strokes and fills: the line through the points, the seven grid lines and a dot on every point. */
  datatype Drawing = Drawing(path: seq<Point>, gridLines: seq<Segment>, circles: seq<Rect>)

  /** Every point of the week lies between the borders when the values are non-negative and not all 0. */
  lemma WeekInBand(ps: seq<LineEntry>, height: real, top: real, bottom: real, j: nat)
    requires j < |Week(ps)|
    requires MinOf(LineValues(ps)).Some? && MinOf(LineValues(ps)).value >= 0.0
    requires MaxOf(LineValues(ps)).Some? && MaxOf(LineValues(ps)).value > 0.0
    requires height - top - bottom >= 0.0
    ensures top <= ColumnY(height, top, bottom, LineValues(ps), Week(ps)[j].value) <= height - bottom
  {
    WeekValuesFromInput(ps, j);
    ColumnYInBand(height, top, bottom, LineValues(ps), Week(ps)[j].value);
  }

  class LineChart {
    /** `graphPoints`: the entries as set by the caller. */
    var graphPoints: seq<LineEntry>
    /** `sortedGraphPoints`: the week that is drawn. */
    var sortedGraphPoints: seq<LineEntry>
    var margin: real
    var topBorder: real
    var bottomBorder: real
    var circleDiameter: real
    /** The size of the view's bounds. */
    var width: real
    var height: real

    /** `init(frame:)`: no points and the default borders. */
    constructor (width: real, height: real)
      ensures graphPoints == [] && sortedGraphPoints == []
      ensures margin == 8.0 && topBorder == 15.0 && bottomBorder == 20.0 && circleDiameter == 6.0
      ensures this.width == width && this.height == height
    {
      graphPoints := [];
      sortedGraphPoints := [];
      margin := 8.0;
      topBorder := 15.0;
      bottomBorder := 20.0;
      circleDiameter := 6.0;
      this.width := width;
      this.height := height;
    }

    /** The setter of `graphPoints`: stores the points, then its `didSet` rebuilds the week. */
    method SetGraphPoints(ps: seq<LineEntry>)
      modifies this
      ensures graphPoints == ps && sortedGraphPoints == Week(ps)
      ensures margin == old(margin) && topBorder == old(topBorder) && bottomBorder == old(bottomBorder)
      ensures circleDiameter == old(circleDiameter) && width == old(width) && height == old(height)
    {
      graphPoints := ps;
      SetSortedGraphPoints();
    }

    /** `setSortedGraphPoints()`: the earliest seven points, and before them one copy of the earliest value per missing day. */
    method SetSortedGraphPoints()
      modifies this
      ensures sortedGraphPoints == Week(graphPoints)
      ensures graphPoints == old(graphPoints) && margin == old(margin) && topBorder == old(topBorder)
      ensures bottomBorder == old(bottomBorder) && circleDiameter == old(circleDiameter)
      ensures width == old(width) && height == old(height)
    {
      var filtered := Kept(graphPoints);
      if |filtered| < WeekLength {
        if |filtered| > 0 {
          filtered := PadFront(filtered[0], filtered, WeekLength - |filtered|);
        }
      } else {
        assert Padding(filtered[0], 0) == [];
      }
      sortedGraphPoints := filtered;
    }

    /** The padding loop of `setSortedGraphPoints()`: `diff` times, one day back and a copy of `first` in front. */
    static method PadFront(first: LineEntry, kept: seq<LineEntry>, diff: nat) returns (filtered: seq<LineEntry>)
      ensures filtered == Padding(first, diff) + kept
    {
      filtered := kept;
      var today := first.date;
      for t := 0 to diff
        invariant today == first.date - t
        invariant filtered == Padding(first, t) + kept
      {
        today := today - 1;
        PaddingStep(first, t);
        filtered := [LineEntry(first.value, today)] + filtered;
      }
    }

    /** Where point `i` of the week is drawn: its column, and the height of its value on the scale of all `graphPoints`. */
    function PlotPoint(i: nat): Point
      reads this
      requires i < |sortedGraphPoints|
    {
      Point(ColumnX(width, margin, i), ColumnY(height, topBorder, bottomBorder, LineValues(graphPoints), sortedGraphPoints[i].value))
    }

    /**
     * `draw(_:)`: nothing without points; otherwise the line through every
     * point, a vertical grid line from the top border to the bottom border at
     * each of the seven columns, and a dot centred on every point.
     */
    method Draw() returns (d: Drawing)
      ensures sortedGraphPoints == [] ==> d == Drawing([], [], [])
      ensures |d.path| == |sortedGraphPoints| && |d.circles| == |sortedGraphPoints|
      ensures sortedGraphPoints != [] ==> |d.gridLines| == WeekLength
      ensures forall i :: 0 <= i < |d.path| ==> d.path[i] == PlotPoint(i)
      ensures forall i :: 0 <= i < |d.gridLines| ==>
        d.gridLines[i] == Segment(Point(ColumnX(width, margin, i), topBorder), Point(ColumnX(width, margin, i), height - bottomBorder))
      ensures forall i :: 0 <= i < |d.circles| ==>
        d.circles[i].width == d.circles[i].height == circleDiameter &&
        d.circles[i].x + circleDiameter / 2.0 == d.path[i].x && d.circles[i].y + circleDiameter / 2.0 == d.path[i].y
    {
      if |sortedGraphPoints| == 0 {
        return Drawing([], [], []);
      }
      var path := [PlotPoint(0)];
      for i := 1 to |sortedGraphPoints|
        invariant |path| == i
        invariant forall k :: 0 <= k < i ==> path[k] == PlotPoint(k)
      {
        path := path + [PlotPoint(i)];
      }
      var lines := [];
      for i := 0 to WeekLength
        invariant |lines| == i
        invariant forall k :: 0 <= k < i ==>
          lines[k] == Segment(Point(ColumnX(width, margin, k), topBorder), Point(ColumnX(width, margin, k), height - bottomBorder))
      {
        lines := lines + [Segment(Point(ColumnX(width, margin, i), topBorder), Point(ColumnX(width, margin, i), height - bottomBorder))];
      }
      var circles := [];
      for i := 0 to |sortedGraphPoints|
        invariant |circles| == i
        invariant forall k :: 0 <= k < i ==>
          circles[k] == Rect(path[k].x - circleDiameter / 2.0, path[k].y - circleDiameter / 2.0, circleDiameter, circleDiameter)
      {
        var point := PlotPoint(i);
        point := point.(x := point.x - circleDiameter / 2.0);
        point := point.(y := point.y - circleDiameter / 2.0);
        circles := circles + [Rect(point.x, point.y, circleDiameter, circleDiameter)];
      }
      d := Drawing(path, lines, circles);
    }
  }
}
