/**
 * `RangeBarChartView`: every range entry is drawn as two bars in the same
 * slot, meeting at the entry's value: a faded one hanging down from the
 * value to the entry's minimum and a full-colour one standing up from the
 * value to its maximum.
 */
module RangeCharts {
  import opened Wrappers
  import opened Geometry
  import opened Entries
  import opened ChartOptions
  import opened Scale
  import opened BarScale
  import opened Layers
  import opened BarList
  import opened ChartCore

  /** `minBarAlphaValue`: the opacity of the bar that draws an entry's minimum. */
  const MinBarAlpha: real := 0.3

  // ---------------------------------------------------------------- base entries

  /**
   * The base entries the `entries` observer derives from the first `n`
   * range entries: the minimum, then the maximum, of each, both under the
   * entry's label.
   */
  function RangeBases(es: seq<RangeEntry>, n: nat := |es|): (bs: seq<BaseEntry>)
    requires n <= |es|
    ensures |bs| == 2 * n
    ensures forall k :: 0 <= k < |bs| && k % 2 == 0 ==> bs[k] == BaseEntry(es[k / 2].caption, es[k / 2].min)
    ensures forall k :: 0 <= k < |bs| && k % 2 == 1 ==> bs[k] == BaseEntry(es[k / 2].caption, es[k / 2].max)
  {
    if n == 0 then []
    else RangeBases(es, n - 1) + [BaseEntry(es[n - 1].caption, es[n - 1].min), BaseEntry(es[n - 1].caption, es[n - 1].max)]
  }

  /** The loop of the `entries` observer that builds the base entries, two per range entry. */
  method BuildBases(es: seq<RangeEntry>) returns (en: seq<BaseEntry>)
    ensures en == RangeBases(es)
  {
    en := [];
    for i := 0 to |es|
      invariant en == RangeBases(es, i)
    {
      en := en + [BaseEntry(es[i].caption, es[i].min)];
      en := en + [BaseEntry(es[i].caption, es[i].max)];
    }
  }

  /**
   * The scale of a range chart is set by the ends of the ranges alone:
   * every minimum and maximum is one of its base values, and each base value
   * is the minimum or the maximum of some entry. The entries' own values
   * play no part.
   */
  lemma RangeBasesAreEnds(es: seq<RangeEntry>)
    ensures forall i :: 0 <= i < |es| ==> es[i].min in Values(RangeBases(es)) && es[i].max in Values(RangeBases(es))
    ensures forall x :: x in Values(RangeBases(es)) ==> exists i :: 0 <= i < |es| && (x == es[i].min || x == es[i].max)
  {
    forall i | 0 <= i < |es|
      ensures es[i].min in Values(RangeBases(es)) && es[i].max in Values(RangeBases(es))
    {
      EndsOfEntry(es, i);
    }
    forall x | x in Values(RangeBases(es))
      ensures exists i :: 0 <= i < |es| && (x == es[i].min || x == es[i].max)
    {
      var k :| 0 <= k < |Values(RangeBases(es))| && Values(RangeBases(es))[k] == x;
      EntryOfBase(es, k);
    }
  }

  /** Base values `2 i` and `2 i + 1` are the minimum and the maximum of entry `i`. */
  lemma EndsOfEntry(es: seq<RangeEntry>, i: nat)
    requires i < |es|
    ensures Values(RangeBases(es))[2 * i] == es[i].min && Values(RangeBases(es))[2 * i + 1] == es[i].max
  {
    var bs := RangeBases(es);
    assert (2 * i) / 2 == i && (2 * i) % 2 == 0 && (2 * i + 1) / 2 == i && (2 * i + 1) % 2 == 1;
    assert bs[2 * i] == BaseEntry(es[i].caption, es[i].min);
    assert bs[2 * i + 1] == BaseEntry(es[i].caption, es[i].max);
  }

  /** Base value `k` is an end of entry `k / 2`. */
  lemma EntryOfBase(es: seq<RangeEntry>, k: nat)
    requires k < 2 * |es|
    ensures 0 <= k / 2 < |es|
    ensures Values(RangeBases(es))[k] == es[k / 2].min || Values(RangeBases(es))[k] == es[k / 2].max
  {
    assert Values(RangeBases(es))[k] == RangeBases(es)[k].value;
  }

  /**
   * `_maxEntries` counts base entries, two per range entry, while
   * `generateBars` uses it to bound entry indices: without
   * `maxVisibleCount` every entry is drawn, and a `maxVisibleCount` of `v`
   * draws `v` entries, not `v / 2`.
   */
  lemma VisibleEntries(m: Metrics, es: seq<RangeEntry>)
    requires m.baseEntries == RangeBases(es)
    ensures m.settings.maxVisibleCount.None? ==> VisibleRanges(m, es) == |es|
    ensures m.settings.maxVisibleCount.Some? && 0 <= m.settings.maxVisibleCount.value ==>
      VisibleRanges(m, es) == if m.settings.maxVisibleCount.value < |es| then m.settings.maxVisibleCount.value else |es|
  {
  }

  // ---------------------------------------------------------------- the bars to build

  /** One bar `generateBars` builds: an end of entry `index`, the minimum or the maximum. */
  datatype RangeSlot = RangeSlot(entry: RangeEntry, index: nat, isMax: bool)

  /** How many entries `generateBars` draws: those whose index is below `_maxEntries`. */
  function VisibleRanges(m: Metrics, es: seq<RangeEntry>): (n: nat)
    ensures n <= |es|
    ensures MaxEntries(m) >= 0 ==> n == if |es| < MaxEntries(m) then |es| else MaxEntries(m)
  {
    if MaxEntries(m) < 0 then 0 else if |es| < MaxEntries(m) then |es| else MaxEntries(m)
  }

  /** The bars built for the first `n` entries, in order: the minimum of each, then its maximum. */
  function RangeSlots(es: seq<RangeEntry>, n: nat): (ss: seq<RangeSlot>)
    requires n <= |es|
    ensures |ss| == 2 * n
    ensures forall k :: 0 <= k < |ss| ==> ss[k] == RangeSlot(es[k / 2], k / 2, k % 2 == 1)
  {
    if n == 0 then []
    else RangeSlots(es, n - 1) + [RangeSlot(es[n - 1], n - 1, false), RangeSlot(es[n - 1], n - 1, true)]
  }

  /** The bars of one more entry follow those of the entries before it. */
  lemma RangeSlotsStep(es: seq<RangeEntry>, n: nat)
    requires n < |es|
    ensures RangeSlots(es, n + 1) == RangeSlots(es, n) + [RangeSlot(es[n], n, false), RangeSlot(es[n], n, true)]
    ensures forall k :: 0 <= k < 2 * n ==> RangeSlots(es, n + 1)[k] == RangeSlots(es, n)[k]
  {
  }

  /** The entry a bar of the chart shows: the end's value and label; the minimum faded to `MinBarAlpha`. */
  function EndEntry(s: RangeSlot): (b: BarEntry)
    ensures b.caption == s.entry.caption
    ensures b.value == if s.isMax then s.entry.max else s.entry.min
    ensures b.color.paint == s.entry.color.paint
    ensures b.color.alpha == if s.isMax then s.entry.color.alpha else MinBarAlpha
  {
    if s.isMax then BarEntry(s.entry.max, s.entry.color, s.entry.caption)
    else BarEntry(s.entry.min, WithAlpha(s.entry.color, MinBarAlpha), s.entry.caption)
  }

  /** The data attached to the bar of slot `s`: its entry, and the index of the range entry as id. */
  function SlotData(s: RangeSlot): BarContainerData {
    BarContainerData(Some(EndEntry(s)), s.index)
  }

  /** The direction a bar grows in: the minimum hangs from the top of its container, the maximum stands on its bottom. */
  function EndDirection(isMax: bool): AnimationDirection {
    if isMax then Bottom else Top
  }

  /** `calculateXPos(for:)` where it is finite, 0 where Swift's value is not a number. */
  function UsedAxisLabelX(m: Metrics, index: int): real {
    if BarGeometryDefined(m) then AxisLabelX(m, index) else 0.0
  }

  /**
   * The container frame of one end of entry `index`: in the entry's slot,
   * a bar wide, from the y of the end to the y of the entry's value (a
   * negative height when the end lies below the value).
   */
  function RangeFrame(m: Metrics, index: int, initial: real, end: real): (r: Rect)
    ensures r.x == UsedBarX(m, index) && r.width == UsedBarWidth(m)
    ensures r.y == YPosition(m, end) && r.y + r.height == YPosition(m, initial)
  {
    Rect(UsedBarX(m, index), YPosition(m, end), UsedBarWidth(m), YPosition(m, initial) - YPosition(m, end))
  }

  /** The container frame `generateBar(entry:index:)` gives the bar of slot `s`. */
  function EndFrame(m: Metrics, s: RangeSlot): Rect {
    RangeFrame(m, s.index, s.entry.value, EndEntry(s).value)
  }

  /** The frame of the bar in a container with frame `frame`: `setBarLayerHeight(to: 0)`, in the bar's direction. */
  function EndLayerFrame(frame: Rect, isMax: bool): Rect {
    BarFrame(frame.Width(), frame.Height(), 0.0, EndDirection(isMax))
  }

  /** Either way, a bar sized for a top of 0 fills its container; the direction only moves its anchor. */
  lemma EndLayerFillsContainer(frame: Rect, isMax: bool)
    ensures EndLayerFrame(frame, isMax) == Rect(0.0, 0.0, frame.Width(), frame.Height())
    ensures EndLayerFrame(frame, isMax) == EndLayerFrame(frame, !isMax)
  {
  }

  /**
   * In range mode, for an entry whose value lies between its ends, the two
   * containers meet at the y of the value: the minimum's runs from there
   * down to the y of the minimum (a negative height), the maximum's up to
   * the y of the maximum, and together they span exactly from the y of the
   * maximum to the y of the minimum.
   */
  lemma EndsMeetAtValue(m: Metrics, e: RangeEntry, index: nat)
    requires m.baseEntries != [] && m.settings.useMinMaxRange && m.containerHeight >= 0.0
    requires e.min <= e.value <= e.max
    ensures var lo := EndFrame(m, RangeSlot(e, index, false));
      var hi := EndFrame(m, RangeSlot(e, index, true));
      lo.x == hi.x && lo.width == hi.width
      && lo.height <= 0.0 && hi.height >= 0.0
      && lo.y + lo.height == YPosition(m, e.value) && hi.y + hi.height == YPosition(m, e.value)
      && hi.y == YPosition(m, e.max) && lo.y == YPosition(m, e.min)
      && hi.Height() + lo.Height() == YPosition(m, e.min) - YPosition(m, e.max)
  {
    YPositionMonotone(m, e.min, e.value);
    YPositionMonotone(m, e.value, e.max);
  }

  /**
   * In range mode both ends of every entry of a range chart lie in the
   * band of the container the scale uses: at most 95% of its height down,
   * and below the 10% head room at the top.
   */
  lemma EndsInBand(m: Metrics, es: seq<RangeEntry>, i: nat)
    requires m.baseEntries == RangeBases(es) && i < |es|
    requires m.settings.useMinMaxRange && m.containerHeight >= 0.0
    ensures var lo, hi := m.containerHeight * BottomHorizontalLine / 11.0, m.containerHeight * BottomHorizontalLine;
      lo <= YPosition(m, es[i].min) <= hi && lo <= YPosition(m, es[i].max) <= hi
  {
    RangeBasesAreEnds(es);
    assert m.baseEntries != [];
    YPositionInBand(m, es[i].min);
    YPositionInBand(m, es[i].max);
  }

  // ---------------------------------------------------------------- the bars of a chart

  /** The bars of a list of range bars. */
  function RangeBarsOf(rbs: seq<RangeBar>): (bs: seq<Bar>)
    ensures |bs| == |rbs|
    ensures forall i :: 0 <= i < |rbs| ==> bs[i] == rbs[i].bar
  {
    seq(|rbs|, i requires 0 <= i < |rbs| => rbs[i].bar)
  }

  /** The bars of two lists of range bars, one after the other. */
  lemma RangeBarsOfConcat(xs: seq<RangeBar>, ys: seq<RangeBar>)
    ensures RangeBarsOf(xs + ys) == RangeBarsOf(xs) + RangeBarsOf(ys)
  {
    assert forall i :: 0 <= i < |xs + ys| ==> RangeBarsOf(xs + ys)[i] == (RangeBarsOf(xs) + RangeBarsOf(ys))[i];
  }

  /** A list of range bars carries the given slots: group, end, initial value and bar data. */
  predicate Tagged(rbs: seq<RangeBar>, ss: seq<RangeSlot>) {
    |rbs| == |ss|
    && forall k :: 0 <= k < |rbs| ==>
      rbs[k].groupId == ss[k].index && rbs[k].isMax == ss[k].isMax
      && rbs[k].initialValue == ss[k].entry.value && rbs[k].bar.data == SlotData(ss[k])
  }

  // ---------------------------------------------------------------- lookups

  /** `rangeBars.first(where: { $0.bar.data.id == index })`, as a position in the list: the search from `from` on. */
  function FindById(rbs: seq<RangeBar>, id: int, from: nat := 0): (r: Option<nat>)
    requires from <= |rbs|
    ensures r.None? <==> forall i :: from <= i < |rbs| ==> rbs[i].bar.data.id != id
    ensures r.Some? ==> from <= r.value < |rbs| && rbs[r.value].bar.data.id == id
    ensures r.Some? ==> forall i :: from <= i < r.value ==> rbs[i].bar.data.id != id
    decreases |rbs| - from
  {
    if from == |rbs| then None
    else if rbs[from].bar.data.id == id then Some(from)
    else FindById(rbs, id, from + 1)
  }

  /** `rangeBars.first(where: { $0.groupId == group })`, as a position in the list: the search from `from` on. */
  function FindInGroup(rbs: seq<RangeBar>, group: int, from: nat := 0): (r: Option<nat>)
    requires from <= |rbs|
    ensures r.None? <==> forall i :: from <= i < |rbs| ==> rbs[i].groupId != group
    ensures r.Some? ==> from <= r.value < |rbs| && rbs[r.value].groupId == group
    ensures r.Some? ==> forall i :: from <= i < r.value ==> rbs[i].groupId != group
    decreases |rbs| - from
  {
    if from == |rbs| then None
    else if rbs[from].groupId == group then Some(from)
    else FindInGroup(rbs, group, from + 1)
  }

  /** `getGroup(for:)`: the group of the first bar with the given id. */
  function GetGroup(rbs: seq<RangeBar>, index: int): (r: Option<int>)
    ensures r.None? <==> forall i :: 0 <= i < |rbs| ==> rbs[i].bar.data.id != index
  {
    match FindById(rbs, index)
    case None => None
    case Some(k) => Some(rbs[k].groupId)
  }

  /**
   * `getXLabel(for:)`: the label of the first bar of the group of the bar
   * with the given id; none if there is no such bar.
   */
  function XLabel(rbs: seq<RangeBar>, index: int): Option<string> {
    match GetGroup(rbs, index)
    case None => None
    case Some(g) =>
      match FindInGroup(rbs, g)
      case None => None
      case Some(k) =>
        match rbs[k].bar.data.model
        case None => None
        case Some(e) => Some(e.caption)
  }

  /**
   * `getXPostionForXAxis(for:)`: half a spacing left of the slot of the
   * first bar of the group of the bar with the given id, or -100 if there
   * is no such bar.
   */
  function AxisX(m: Metrics, rbs: seq<RangeBar>, index: int): real {
    match GetGroup(rbs, index)
    case None => -100.0
    case Some(g) =>
      match FindInGroup(rbs, g)
      case None => -100.0
      case Some(k) => UsedAxisLabelX(m, rbs[k].bar.data.id)
  }

  /** In the bars built for the first `n` entries, the first bar with id `i` (and the first of group `i`) is the minimum of entry `i`. */
  lemma FirstOfEntry(es: seq<RangeEntry>, n: nat, rbs: seq<RangeBar>, i: nat)
    requires n <= |es| && Tagged(rbs, RangeSlots(es, n)) && i < n
    ensures FindById(rbs, i) == Some(2 * i) && FindInGroup(rbs, i) == Some(2 * i)
  {
    var ss := RangeSlots(es, n);
    assert ss[2 * i] == RangeSlot(es[i], i, false);
    assert rbs[2 * i].bar.data.id == i && rbs[2 * i].groupId == i;
    assert forall k :: 0 <= k < 2 * i ==> ss[k].index < i;
  }

  /**
   * The labels and label positions of a generated chart: entry `i`'s label
   * half a spacing left of its slot for every drawn entry, and nothing (at
   * -100) for any other index.
   */
  lemma LabelsOfGenerated(m: Metrics, es: seq<RangeEntry>, n: nat, rbs: seq<RangeBar>, i: int)
    requires n <= |es| && Tagged(rbs, RangeSlots(es, n))
    ensures 0 <= i < n ==> XLabel(rbs, i) == Some(es[i].caption) && AxisX(m, rbs, i) == UsedAxisLabelX(m, i)
    ensures !(0 <= i < n) ==> XLabel(rbs, i) == None && AxisX(m, rbs, i) == -100.0
  {
    var ss := RangeSlots(es, n);
    if 0 <= i < n {
      FirstOfEntry(es, n, rbs, i);
      assert ss[2 * i] == RangeSlot(es[i], i, false);
    } else {
      forall k | 0 <= k < |rbs|
        ensures rbs[k].bar.data.id != i
      {
        assert ss[k].index == k / 2;
      }
    }
  }

  // ---------------------------------------------------------------- built, shown and placed

  /** A freshly built range bar: its group, end and initial value, its data, its appearance and its frames. */
  predicate RangeBuilt(rb: RangeBar, m: Metrics, s: RangeSlot)
    reads rb.bar.container, rb.bar.container.barLayer
  {
    var c := rb.bar.container;
    var frame := EndFrame(m, s);
    rb.groupId == s.index && rb.isMax == s.isMax && rb.initialValue == s.entry.value
    && rb.bar.data == SlotData(s) && c.barEntry == Some(SlotData(s)) && !c.selected
    && c.containerColor == Some(Clear) && c.frame == frame
    && c.barLayer != null
    && c.barLayer.color == EndEntry(s).color && c.barLayer.backgroundColor == EndEntry(s).color
    && c.barLayer.width == UsedBarWidth(m)
    && c.barLayer.animationDuration == m.settings.animationDuration
    && c.barLayer.animationDelay == m.settings.animationDelay
    && c.barLayer.cornerRounding == m.bar.cornerRounding
    && c.barLayer.frame == EndLayerFrame(frame, s.isMax)
    && c.barLayer.anchor == BarAnchor(EndDirection(s.isMax))
  }

  /** Bars built for the slots `ss`, one each, carry those slots' tags. */
  lemma BuiltAreTagged(rbs: seq<RangeBar>, m: Metrics, ss: seq<RangeSlot>)
    requires |rbs| == |ss|
    requires forall k :: 0 <= k < |rbs| ==> RangeBuilt(rbs[k], m, ss[k])
    ensures Tagged(rbs, ss)
  { }

  /** Range bar `rb` shows slot `s`: its tags and data, its container frame, its bar layer's frame and anchor for the end it draws, its colour. */
  predicate RangeShownAs(rb: RangeBar, m: Metrics, s: RangeSlot)
    reads rb.bar.container, rb.bar.container.barLayer
  {
    var frame := EndFrame(m, s);
    rb.groupId == s.index && rb.isMax == s.isMax && rb.initialValue == s.entry.value
    && rb.bar.data == SlotData(s)
    && rb.bar.container.frame == frame
    && rb.bar.container.barLayer != null
    && rb.bar.container.barLayer.frame == EndLayerFrame(frame, s.isMax)
    && rb.bar.container.barLayer.anchor == BarAnchor(EndDirection(s.isMax))
    && rb.bar.container.barLayer.color == EndEntry(s).color
  }

  /** The bars generated for `es`: two per drawn entry, each shown as its slot says. */
  predicate RangeShown(rbs: seq<RangeBar>, m: Metrics, es: seq<RangeEntry>)
    reads Containers(RangeBarsOf(rbs)), LayersOf(RangeBarsOf(rbs))
  {
    var ss := RangeSlots(es, VisibleRanges(m, es));
    |rbs| == |ss| && forall k :: 0 <= k < |rbs| ==> RangeShownAs(rbs[k], m, ss[k])
  }

  /** The value a bar stands for: its entry's value, 0 when it has none. */
  function DataValue(d: BarContainerData): real {
    match d.model
    case Some(e) => e.value
    case None => 0.0
  }

  /** Where `notifyConstraintChanges` puts a range bar: in the slot of its id, between the y of its initial value and of its own value. */
  function NotifiedFrame(m: Metrics, rb: RangeBar): Rect {
    RangeFrame(m, rb.bar.data.id, rb.initialValue, DataValue(rb.bar.data))
  }

  /** A bar carrying slot `s` is laid out again exactly where it was built: the notified frame is the slot's frame. */
  lemma NotifiedFrameOfSlot(m: Metrics, rb: RangeBar, s: RangeSlot)
    requires rb.bar.data == SlotData(s) && rb.initialValue == s.entry.value
    ensures NotifiedFrame(m, rb) == EndFrame(m, s)
  {
  }

  /** The bars are where `notifyConstraintChanges` puts them, each bar filling its container in its own direction. */
  predicate Placed(rbs: seq<RangeBar>, m: Metrics)
    reads Containers(RangeBarsOf(rbs)), LayersOf(RangeBarsOf(rbs))
  {
    forall i :: 0 <= i < |rbs| ==>
      rbs[i].bar.container.frame == NotifiedFrame(m, rbs[i])
      && rbs[i].bar.container.barLayer != null
      && rbs[i].bar.container.barLayer.frame == EndLayerFrame(NotifiedFrame(m, rbs[i]), rbs[i].isMax)
      && rbs[i].bar.container.barLayer.anchor == BarAnchor(EndDirection(rbs[i].isMax))
  }

  // ---------------------------------------------------------------- the view

  class RangeChart {
    const chart: ChartView
    var entries: seq<RangeEntry>
    var rangeBars: seq<RangeBar>

    /** The snapshot the layout formulas read: `numberOfEntries` is the number of range entries. */
    function Metrics(): (m: Metrics)
      reads this, chart
      ensures m.numberOfEntries == |entries| && m.baseEntries == chart.baseEntries
    {
      chart.Snapshot(|entries|)
    }

    /** Each bar has its own container and layer. */
    predicate Valid()
      reads this, Containers(RangeBarsOf(rangeBars))
    {
      WellFormed(RangeBarsOf(rangeBars))
    }

    constructor(viewWidth: real, viewHeight: real)
      ensures fresh(chart) && entries == [] && rangeBars == [] && Valid()
      ensures chart.settings == DefaultSettings && chart.bar == DefaultBarSettings && chart.baseEntries == []
    {
      chart := new ChartView(viewWidth, viewHeight);
      entries := [];
      rangeBars := [];
    }

    /** One half of `generateBar(entry:index:)`: a new container and layer for one end of an entry. */
    static method GenerateEnd(m: Metrics, s: RangeSlot) returns (rb: RangeBar)
      ensures fresh(rb.bar.container) && fresh(rb.bar.container.barLayer)
      ensures RangeBuilt(rb, m, s)
    {
      var data := SlotData(s);
      var c := new BarContainer(UsedBarWidth(m), EndEntry(s).color, m.settings.animationDuration,
                                m.settings.animationDelay, m.bar.cornerRounding, Some(Clear));
      c.frame := EndFrame(m, s);
      c.SetBarLayerHeight(0.0, EndDirection(s.isMax));
      c.barEntry := Some(data);
      rb := RangeBar(s.index, s.isMax, s.entry.value, Bar(c, data));
    }

    /** One step of the loop of `generateBars`: a new bar for the next slot, the bars built so far left as they are. */
    static method GenerateNext(m: Metrics, slots: seq<RangeSlot>, result: seq<RangeBar>) returns (r: seq<RangeBar>)
      requires |result| < |slots| && WellFormed(RangeBarsOf(result))
      ensures |r| == |result| + 1 && forall k :: 0 <= k < |result| ==> r[k] == result[k]
      ensures fresh(r[|result|].bar.container) && fresh(r[|result|].bar.container.barLayer)
      ensures RangeBuilt(r[|result|], m, slots[|result|])
      ensures WellFormed(RangeBarsOf(r))
    {
      var rb := GenerateEnd(m, slots[|result|]);
      WellFormedAppend(RangeBarsOf(result), rb.bar);
      RangeBarsOfConcat(result, [rb]);
      r := result + [rb];
    }

    /**
     * One turn of the loop of `generateBars`, with `generateBar(entry:index:)`:
     * the bar of the minimum of entry `index`, then the bar of its maximum,
     * after those built before.
     */
    static method AppendPair(m: Metrics, es: seq<RangeEntry>, index: nat, result: seq<RangeBar>) returns (r: seq<RangeBar>)
      requires index < |es| && |result| == 2 * index && WellFormed(RangeBarsOf(result))
      requires forall k :: 0 <= k < |result| ==> RangeBuilt(result[k], m, RangeSlots(es, index)[k])
      ensures |r| == 2 * (index + 1) && forall k :: 0 <= k < |result| ==> r[k] == result[k]
      ensures forall k :: |result| <= k < |r| ==> fresh(r[k].bar.container) && fresh(r[k].bar.container.barLayer)
      ensures forall k :: 0 <= k < |r| ==> RangeBuilt(r[k], m, RangeSlots(es, index + 1)[k])
      ensures WellFormed(RangeBarsOf(r))
    {
      var ss := RangeSlots(es, index + 1);
      RangeSlotsStep(es, index);
      var lo := GenerateNext(m, ss, result);
      r := GenerateNext(m, ss, lo);
    }

    /**
     * `generateBars(entries:)`: for every index below `_maxEntries` that
     * has an entry, the bar of its minimum, then the bar of its maximum.
     */
    static method GenerateBars(m: Metrics, es: seq<RangeEntry>) returns (result: seq<RangeBar>)
      requires MaxEntries(m) >= 0
      ensures Tagged(result, RangeSlots(es, VisibleRanges(m, es)))
      ensures forall k :: 0 <= k < |result| ==> RangeBuilt(result[k], m, RangeSlots(es, VisibleRanges(m, es))[k])
      ensures forall k :: 0 <= k < |result| ==> fresh(result[k].bar.container) && fresh(result[k].bar.container.barLayer)
      ensures WellFormed(RangeBarsOf(result))
    {
      result := [];
      ghost var n := 0;
      ghost var ss := RangeSlots(es, 0);
      for index := 0 to MaxEntries(m)
        invariant n == if index < |es| then index else |es|
        invariant ss == RangeSlots(es, n) && |result| == |ss|
        invariant forall k :: 0 <= k < |result| ==> RangeBuilt(result[k], m, ss[k])
        invariant forall k :: 0 <= k < |result| ==> fresh(result[k].bar.container) && fresh(result[k].bar.container.barLayer)
        invariant WellFormed(RangeBarsOf(result))
      {
        if index < |es| {
          result := AppendPair(m, es, index, result);
          n := index + 1;
          ss := RangeSlots(es, n);
        }
      }
      assert n == VisibleRanges(m, es);
      BuiltAreTagged(result, m, ss);
    }

    /**
     * Assigning `baseEntries`: when a non-empty list is replaced by one of
     * another length the chart is laid out again, and its current bars are
     * moved.
     */
    method AssignBaseEntries(bases: seq<BaseEntry>)
      requires Valid()
      modifies chart, Containers(RangeBarsOf(rangeBars)), LayersOf(RangeBarsOf(rangeBars))
      ensures Valid() && chart.baseEntries == bases && unchanged(this)
      ensures chart.settings == old(chart.settings) && chart.bar == old(chart.bar)
      ensures chart.updatingEntries == old(chart.updatingEntries)
      ensures chart.viewWidth == old(chart.viewWidth) && chart.viewHeight == old(chart.viewHeight)
      ensures Relayout(old(|chart.baseEntries|), |bases|) ==>
        chart.layout == ComputeLayout(chart.settings, ContentSize(old(Metrics()).(baseEntries := bases)), chart.viewWidth)
        && Placed(rangeBars, Metrics())
      ensures !Relayout(old(|chart.baseEntries|), |bases|) ==> chart.layout == old(chart.layout)
    {
      var before := |chart.baseEntries|;
      chart.SetBaseEntries(bases);
      if Relayout(before, |bases|) {
        LayoutSublayers();
      }
    }

    /**
     * Assigning `entries`: the base entries follow (two per range entry),
     * new bars are built and presented, bar `i` against the old bar `i`
     * while entries are being updated.
     */
    method SetEntries(es: seq<RangeEntry>, now: real)
      requires Valid()
      requires MaxEntries(Metrics().(baseEntries := RangeBases(es))) >= 0
      modifies this, chart, Containers(RangeBarsOf(rangeBars)), LayersOf(RangeBarsOf(rangeBars))
      ensures Valid() && entries == es && chart.baseEntries == RangeBases(es)
      ensures chart.settings == old(chart.settings) && chart.bar == old(chart.bar)
      ensures chart.updatingEntries == old(chart.updatingEntries)
      ensures chart.viewWidth == old(chart.viewWidth) && chart.viewHeight == old(chart.viewHeight)
      ensures Relayout(old(|chart.baseEntries|), |RangeBases(es)|) ==>
        chart.layout == ComputeLayout(chart.settings, ContentSize(old(Metrics()).(baseEntries := RangeBases(es), numberOfEntries := |es|)), chart.viewWidth)
      ensures !Relayout(old(|chart.baseEntries|), |RangeBases(es)|) ==> chart.layout == old(chart.layout)
      ensures RangeShown(rangeBars, Metrics(), es)
      ensures forall i :: 0 <= i < |rangeBars| ==>
        PresentedFrom(rangeBars[i].bar, RangeBarsOf(old(rangeBars)), i, chart.updatingEntries, Animated(chart.settings), now)
    {
      entries := es;
      var en := BuildBases(es);
      AssignBaseEntries(en);
      var m := Metrics();
      var generated := GenerateBars(m, es);
      AssignRangeBars(generated, now, m, es);
    }

    /**
     * Assigning `rangeBars`: every new bar is presented, bar `i` against
     * the old bar `i` while entries are being updated. The bars stay shown
     * as they were built.
     */
    method AssignRangeBars(generated: seq<RangeBar>, now: real, ghost m: Metrics, ghost es: seq<RangeEntry>)
      requires WellFormed(RangeBarsOf(generated))
      requires |generated| == |RangeSlots(es, VisibleRanges(m, es))|
      requires forall k :: 0 <= k < |generated| ==> RangeBuilt(generated[k], m, RangeSlots(es, VisibleRanges(m, es))[k])
      modifies this, LayersOf(RangeBarsOf(generated))
      ensures rangeBars == generated && entries == old(entries)
      ensures Valid() && RangeShown(rangeBars, m, es)
      ensures forall i :: 0 <= i < |rangeBars| ==>
        PresentedFrom(rangeBars[i].bar, RangeBarsOf(old(rangeBars)), i, chart.updatingEntries, Animated(chart.settings), now)
    {
      var previous := rangeBars;
      rangeBars := generated;
      ghost var ss := RangeSlots(es, VisibleRanges(m, es));
      label Assigned:
      PresentBars(RangeBarsOf(generated), RangeBarsOf(previous), chart.updatingEntries, Animated(chart.settings), now);
      forall k | 0 <= k < |generated|
        ensures RangeShownAs(generated[k], m, ss[k])
      {
        assert old@Assigned(RangeBuilt(generated[k], m, ss[k]));
      }
    }

    /**
     * `updateEntries(entries:animationDuration:)`: a list that is not a list
     * of range entries is ignored; otherwise the new duration is set and the
     * entries are assigned with `updatingEntries` raised, then lowered.
     */
    method UpdateEntries(input: EntryList, duration: real, now: real)
      requires Valid()
      requires AsRangeEntries(input).Some? ==>
        MaxEntries(Metrics().(baseEntries := RangeBases(AsRangeEntries(input).value))) >= 0
      modifies this, chart, Containers(RangeBarsOf(rangeBars)), LayersOf(RangeBarsOf(rangeBars))
      ensures Valid()
      ensures chart.viewWidth == old(chart.viewWidth) && chart.viewHeight == old(chart.viewHeight)
      ensures AsRangeEntries(input).None? ==>
        unchanged(this, chart) && unchanged(old(Containers(RangeBarsOf(rangeBars))), old(LayersOf(RangeBarsOf(rangeBars))))
      ensures AsRangeEntries(input).Some? ==>
        entries == AsRangeEntries(input).value && !chart.updatingEntries
        && chart.settings == old(chart.settings).(animationDuration := duration)
        && chart.baseEntries == RangeBases(entries) && chart.bar == old(chart.bar)
        && (Relayout(old(|chart.baseEntries|), |chart.baseEntries|) ==>
              chart.layout == ComputeLayout(chart.settings, ContentSize(old(Metrics()).(settings := chart.settings, baseEntries := chart.baseEntries, numberOfEntries := |entries|)), chart.viewWidth))
        && (!Relayout(old(|chart.baseEntries|), |chart.baseEntries|) ==> chart.layout == old(chart.layout))
        && RangeShown(rangeBars, Metrics(), entries)
        && forall i :: 0 <= i < |rangeBars| ==>
          PresentedFrom(rangeBars[i].bar, RangeBarsOf(old(rangeBars)), i, true, duration > 0.0, now)
    {
      var cast := AsRangeEntries(input);
      if cast.None? {
        return;
      }
      var es := cast.value;
      var previous := rangeBars;
      chart.SetAnimationDuration(duration);
      chart.SetUpdating(true);
      SetEntries(es, now);
      EndUpdate(RangeBarsOf(previous), es, duration > 0.0, now);
    }

    /** Lowering `updatingEntries` once the new bars are presented: the bars are left as they are. */
    method EndUpdate(ghost previous: seq<Bar>, ghost es: seq<RangeEntry>, ghost animated: bool, ghost now: real)
      requires Valid() && RangeShown(rangeBars, Metrics(), es)
      requires forall i :: 0 <= i < |rangeBars| ==> PresentedFrom(rangeBars[i].bar, previous, i, true, animated, now)
      modifies chart
      ensures !chart.updatingEntries && Metrics() == old(Metrics()) && chart.layout == old(chart.layout)
      ensures chart.settings == old(chart.settings) && chart.baseEntries == old(chart.baseEntries)
      ensures Valid() && RangeShown(rangeBars, Metrics(), es)
      ensures forall i :: 0 <= i < |rangeBars| ==> PresentedFrom(rangeBars[i].bar, previous, i, true, animated, now)
    {
      chart.SetUpdating(false);
      ghost var ss := RangeSlots(es, VisibleRanges(Metrics(), es));
      forall i | 0 <= i < |rangeBars|
        ensures PresentedFrom(rangeBars[i].bar, previous, i, true, animated, now)
        ensures RangeShownAs(rangeBars[i], Metrics(), ss[i])
      {
        assert old(PresentedFrom(rangeBars[i].bar, previous, i, true, animated, now));
        assert old(RangeShownAs(rangeBars[i], Metrics(), ss[i]));
      }
    }

    /**
     * `notifyConstraintChanges`: every bar is moved to the slot of its id,
     * between the y of its initial value and of its own value, its bar
     * filling the container from the top (a minimum) or the bottom (a
     * maximum).
     */
    method NotifyConstraintChanges()
      requires Valid()
      modifies Containers(RangeBarsOf(rangeBars)), LayersOf(RangeBarsOf(rangeBars))
      ensures Valid() && Placed(rangeBars, Metrics())
      ensures forall i :: 0 <= i < |rangeBars| ==>
        rangeBars[i].bar.container.barLayer == old(rangeBars[i].bar.container.barLayer)
        && rangeBars[i].bar.container.selected == old(rangeBars[i].bar.container.selected)
        && rangeBars[i].bar.container.barEntry == old(rangeBars[i].bar.container.barEntry)
    {
      var m := Metrics();
      var rbs := rangeBars;
      var bs := RangeBarsOf(rbs);
      var frames := seq(|rbs|, i requires 0 <= i < |rbs| => NotifiedFrame(m, rbs[i]));
      var directions := seq(|rbs|, i requires 0 <= i < |rbs| => EndDirection(rbs[i].isMax));
      PlaceAll(bs, frames, seq(|bs|, _ => 0.0), directions);
    }

    /**
     * `layoutSublayers(of:)`: the content size of one slot per range entry,
     * computed with the current frames, decides the new frames; then the
     * bars are moved.
     */
    method LayoutSublayers()
      requires Valid()
      modifies chart, Containers(RangeBarsOf(rangeBars)), LayersOf(RangeBarsOf(rangeBars))
      ensures Valid() && Placed(rangeBars, Metrics())
      ensures chart.layout == ComputeLayout(chart.settings, ContentSize(old(Metrics())), chart.viewWidth)
      ensures chart.settings == old(chart.settings) && chart.bar == old(chart.bar) && chart.baseEntries == old(chart.baseEntries)
      ensures chart.updatingEntries == old(chart.updatingEntries)
      ensures chart.viewWidth == old(chart.viewWidth) && chart.viewHeight == old(chart.viewHeight)
      ensures forall i :: 0 <= i < |rangeBars| ==>
        rangeBars[i].bar.container.barLayer == old(rangeBars[i].bar.container.barLayer)
        && rangeBars[i].bar.container.selected == old(rangeBars[i].bar.container.selected)
        && rangeBars[i].bar.container.barEntry == old(rangeBars[i].bar.container.barEntry)
    {
      chart.LayoutSublayers(ContentSize(Metrics()));
      NotifyConstraintChanges();
    }

    /**
     * `touchesBegan(_:with:)` once the touch has been resolved to a container
     * (or to none): with `markSelected` off or no container hit nothing
     * changes; otherwise the touched bar toggles and every other bar is
     * deselected.
     */
    method TouchesBegan(touched: BarContainer?) returns (events: seq<Bar>)
      requires Valid()
      modifies Containers(RangeBarsOf(rangeBars)), LayersOf(RangeBarsOf(rangeBars))
      ensures Valid() && |events| <= 1
      ensures !chart.bar.markSelected || touched == null ==>
        events == [] && forall i :: 0 <= i < |rangeBars| ==>
          rangeBars[i].bar.container.selected == old(rangeBars[i].bar.container.selected)
      ensures chart.bar.markSelected && touched != null ==>
        AtMostOneSelected(RangeBarsOf(rangeBars))
        && forall i :: 0 <= i < |rangeBars| ==>
          rangeBars[i].bar.container.selected
          == (rangeBars[i].bar.container == touched && !old(rangeBars[i].bar.container.selected))
      ensures chart.bar.markSelected && touched != null ==>
        (forall e :: e in events ==> e.container == touched && touched.selected && touched.barEntry == Some(e.data))
        && (((exists i :: 0 <= i < |rangeBars| && rangeBars[i].bar.container == touched && !old(rangeBars[i].bar.container.selected))
             && touched.barEntry.Some?) ==> events == [Bar(touched, touched.barEntry.value)])
    {
      if !chart.bar.markSelected || touched == null {
        return [];
      }
      events := ToggleSelection(RangeBarsOf(rangeBars), touched);
    }
  }
}
