/**
 * `BarChartView`: one bar per visible entry, padded with empty placeholder
 * bars up to `minEntryCount`.
 */
module BarCharts {
  import opened Wrappers
  import opened Geometry
  import opened Extensions
  import opened Entries
  import opened ChartOptions
  import opened Scale
  import opened BarScale
  import opened Layers
  import opened BarList
  import opened ChartCore

  // ---------------------------------------------------------------- the bars to build

  /** How many placeholder bars `generateBars` appends: enough to reach `minEntryCount`, if it is set. */
  function Padding(m: Metrics): (p: nat)
    ensures p > 0 <==> m.settings.minEntryCount.Some? && MaxEntries(m) < m.settings.minEntryCount.value
    ensures p > 0 ==> MaxEntries(m) + p == m.settings.minEntryCount.value
  {
    match m.settings.minEntryCount
    case Some(minBars) => if MaxEntries(m) < minBars then minBars - MaxEntries(m) else 0
    case None => 0
  }

  /**
   * The data of the bars `generateBars` builds, in order: bar `i` shows
   * entry `i` for every visible slot, then come the placeholders, without
   * an entry, numbered on from `numberOfEntries`.
   */
  function BarSlots(m: Metrics, entries: seq<BarEntry>): (ds: seq<BarContainerData>)
    requires MaxEntries(m) >= 0
    ensures |ds| == MaxEntries(m) + Padding(m)
    ensures forall i :: 0 <= i < MaxEntries(m) ==> ds[i] == BarContainerData(SafeGet(entries, i), i)
    ensures forall k :: MaxEntries(m) <= k < |ds| ==> ds[k] == BarContainerData(None, m.numberOfEntries + (k - MaxEntries(m)))
  {
    seq(MaxEntries(m), i => BarContainerData(SafeGet(entries, i), i))
    + seq(Padding(m), j => BarContainerData(None, m.numberOfEntries + j))
  }

  /**
   * The chart shows `max(_maxEntries, minEntryCount)` bars, and every bar
   * before the placeholders carries its entry.
   */
  lemma BarCount(m: Metrics, entries: seq<BarEntry>)
    requires MaxEntries(m) >= 0 && |entries| == |m.baseEntries|
    ensures m.settings.minEntryCount.None? ==> |BarSlots(m, entries)| == MaxEntries(m)
    ensures m.settings.minEntryCount.Some? ==>
      |BarSlots(m, entries)| == if MaxEntries(m) < m.settings.minEntryCount.value
                                then m.settings.minEntryCount.value else MaxEntries(m)
    ensures forall i :: 0 <= i < MaxEntries(m) ==> BarSlots(m, entries)[i].model == Some(entries[i])
  {
  }

  /**
   * In a bar chart (where `numberOfEntries` is the number of entries) no two
   * bars share an id, so no two bars are equal.
   */
  lemma BarIdsDistinct(m: Metrics, entries: seq<BarEntry>)
    requires MaxEntries(m) >= 0 && m.numberOfEntries == |m.baseEntries|
    ensures var ds := BarSlots(m, entries);
      forall i, j :: 0 <= i < j < |ds| ==> ds[i].id != ds[j].id
  {
    var ds := BarSlots(m, entries);
    forall i, j | 0 <= i < j < |ds|
      ensures ds[i].id != ds[j].id
    {
      if j < MaxEntries(m) {
        assert ds[i].id == i && ds[j].id == j;
      } else if i < MaxEntries(m) {
        assert ds[i].id == i && ds[j].id == m.numberOfEntries + (j - MaxEntries(m));
      } else {
        assert ds[i].id == m.numberOfEntries + (i - MaxEntries(m));
        assert ds[j].id == m.numberOfEntries + (j - MaxEntries(m));
      }
    }
  }

  /**
   * The placeholders are numbered from `numberOfEntries`, not from their
   * position: when `maxVisibleCount` hides entries, the first placeholder's
   * id (and so the slot `generateBar` places it in) is not its position in
   * the list, the slot `notifyConstraintChanges` later moves it to.
   */
  lemma PlaceholderIdSkipsHiddenEntries(m: Metrics, entries: seq<BarEntry>)
    requires MaxEntries(m) >= 0 && m.numberOfEntries == |m.baseEntries|
    requires m.settings.maxVisibleCount.Some? && 0 <= m.settings.maxVisibleCount.value < |m.baseEntries|
    requires Padding(m) > 0
    ensures var ds := BarSlots(m, entries);
      ds[MaxEntries(m)].id == |m.baseEntries| && ds[MaxEntries(m)].id != MaxEntries(m)
  {
  }

  /** The colour of a bar's layer: its entry's colour, or clear for a placeholder. */
  function SlotColor(d: BarContainerData): (c: Color)
    ensures d.model.Some? ==> c == d.model.value.color
    ensures d.model.None? ==> c == Clear
  {
    match d.model
    case Some(e) => e.color
    case None => Clear
  }

  /** The value whose height a bar shows: its entry's value, or the container height for a placeholder. */
  function SlotValue(m: Metrics, d: BarContainerData): real {
    match d.model
    case Some(e) => e.value
    case None => m.containerHeight
  }

  /** The frame of a bar's layer in a container placed at slot `index`: growing from the bottom up to the bar's y. */
  function SlotLayerFrame(m: Metrics, index: int, d: BarContainerData): (r: Rect)
    ensures var slot := SlotFrame(m, index);
      r.y == YPosition(m, SlotValue(m, d)) && r.y + r.height == slot.Height() && r.width == slot.Width()
  {
    BarFrame(SlotFrame(m, index).Width(), SlotFrame(m, index).Height(), YPosition(m, SlotValue(m, d)), Bottom)
  }

  /** Without range mode, a bar holding the largest value fills its container. */
  lemma TallestBarFillsContainer(m: Metrics, index: int, e: BarEntry, id: int)
    requires m.baseEntries != [] && !m.settings.useMinMaxRange && m.containerHeight >= 0.0
    requires e.value == MaxValue(m) && e.value != 0.0
    ensures SlotLayerFrame(m, index, BarContainerData(Some(e), id)) ==
      Rect(0.0, 0.0, SlotFrame(m, index).Width(), m.containerHeight)
  {
    YPositionAtMaxPlain(m);
  }

  /** A freshly built bar: its data, its appearance and its frames. */
  predicate Built(b: Bar, m: Metrics, d: BarContainerData, slot: int)
    reads b.container, b.container.barLayer
  {
    var c := b.container;
    b.data == d && c.barEntry == Some(d) && !c.selected && c.containerColor == m.bar.containerColor
    && c.frame == SlotFrame(m, slot)
    && c.barLayer != null
    && c.barLayer.color == SlotColor(d) && c.barLayer.backgroundColor == SlotColor(d)
    && c.barLayer.width == UsedBarWidth(m)
    && c.barLayer.animationDuration == m.settings.animationDuration
    && c.barLayer.animationDelay == m.settings.animationDelay
    && c.barLayer.frame == SlotLayerFrame(m, slot, d)
  }

  /** The bars of the chart sit in their slots: bar `i` in slot `i`, at the height of its value. */
  predicate InSlots(bars: seq<Bar>, m: Metrics)
    reads Containers(bars), LayersOf(bars)
  {
    forall i :: 0 <= i < |bars| ==>
      bars[i].container.frame == SlotFrame(m, i)
      && bars[i].container.barLayer != null
      && bars[i].container.barLayer.frame == SlotLayerFrame(m, i, bars[i].data)
  }

  /** Bar `b` shows slot data `d`: placed in the slot its id names, at the height of its value, in its colour. */
  predicate ShownAs(b: Bar, m: Metrics, d: BarContainerData)
    reads b.container, b.container.barLayer
  {
    b.data == d
    && b.container.frame == SlotFrame(m, d.id)
    && b.container.barLayer != null
    && b.container.barLayer.frame == SlotLayerFrame(m, d.id, d)
    && b.container.barLayer.color == SlotColor(d)
  }

  /** The bars generated for `entries`: one per slot of `BarSlots`, each shown as its data says. */
  predicate Shown(bars: seq<Bar>, m: Metrics, entries: seq<BarEntry>)
    reads Containers(bars), LayersOf(bars)
  {
    MaxEntries(m) >= 0 && |bars| == |BarSlots(m, entries)|
    && forall i :: 0 <= i < |bars| ==> ShownAs(bars[i], m, BarSlots(m, entries)[i])
  }

  // ---------------------------------------------------------------- the view

  class BarChart {
    const chart: ChartView
    var entries: seq<BarEntry>
    var bars: seq<Bar>

    /** The snapshot the layout formulas read: every entry counts. */
    function Metrics(): (m: Metrics)
      reads chart
      ensures m.numberOfEntries == |chart.baseEntries| && m.baseEntries == chart.baseEntries
    {
      chart.Snapshot(|chart.baseEntries|)
    }

    /** Every bar has a bar layer, and no two bars share a container or a bar layer. */
    predicate Valid()
      reads this, Containers(bars)
    {
      WellFormed(bars)
    }

    constructor(viewWidth: real, viewHeight: real)
      ensures fresh(chart) && entries == [] && bars == [] && Valid()
      ensures chart.settings == DefaultSettings && chart.bar == DefaultBarSettings && chart.baseEntries == []
    {
      chart := new ChartView(viewWidth, viewHeight);
      entries := [];
      bars := [];
    }

    /**
     * `generateBar(entry:index:)`: a new container and layer for one bar,
     * placed in slot `index`; `m` is the chart's current snapshot.
     */
    static method GenerateBar(m: Metrics, entry: Option<BarEntry>, index: int) returns (b: Bar)
      ensures fresh(b.container) && fresh(b.container.barLayer)
      ensures Built(b, m, BarContainerData(entry, index), index)
    {
      var data := BarContainerData(entry, index);
      var c := new BarContainer(UsedBarWidth(m), SlotColor(data), m.settings.animationDuration,
                                m.settings.animationDelay, m.bar.cornerRounding, m.bar.containerColor);
      var yPos := YPosition(m, SlotValue(m, data));
      c.frame := SlotFrame(m, index);
      c.SetBarLayerHeight(yPos, Bottom);
      c.barEntry := Some(data);
      b := Bar(c, data);
    }

    /**
     * `generateBars(entries:)`: one new bar per slot of `BarSlots`, the
     * visible entries first, then the placeholders.
     */
    method GenerateBars(es: seq<BarEntry>) returns (result: seq<Bar>)
      requires MaxEntries(Metrics()) >= 0
      ensures |result| == |BarSlots(Metrics(), es)|
      ensures forall i :: 0 <= i < |result| ==>
        Built(result[i], Metrics(), BarSlots(Metrics(), es)[i], BarSlots(Metrics(), es)[i].id)
      ensures forall i :: 0 <= i < |result| ==> fresh(result[i].container) && fresh(result[i].container.barLayer)
      ensures WellFormed(result)
    {
      var m := Metrics();
      var slots := BarSlots(m, es);
      result := [];
      for k := 0 to |slots|
        invariant |result| == k
        invariant forall i :: 0 <= i < k ==> Built(result[i], m, slots[i], slots[i].id)
        invariant forall i :: 0 <= i < k ==> fresh(result[i].container) && fresh(result[i].container.barLayer)
        invariant WellFormed(result)
      {
        result := GenerateNext(m, slots, result);
      }
    }

    /** One step of `generateBars`: a new bar for the next slot, the bars built so far left as they are. */
    static method GenerateNext(m: Metrics, slots: seq<BarContainerData>, result: seq<Bar>) returns (r: seq<Bar>)
      requires |result| < |slots| && WellFormed(result)
      requires forall i :: 0 <= i < |result| ==> Built(result[i], m, slots[i], slots[i].id)
      ensures |r| == |result| + 1 && r[..|result|] == result
      ensures fresh(r[|result|].container) && fresh(r[|result|].container.barLayer)
      ensures forall i :: 0 <= i < |r| ==> Built(r[i], m, slots[i], slots[i].id)
      ensures WellFormed(r)
    {
      var k := |result|;
      var b := GenerateBar(m, slots[k].model, slots[k].id);
      WellFormedAppend(result, b);
      r := result + [b];
      assert r[..k] == result;
    }

    /**
     * Assigning `baseEntries`: when a non-empty list is replaced by one of
     * another length the chart is laid out again, and its current bars are
     * moved into the new slots.
     */
    method AssignBaseEntries(bases: seq<BaseEntry>)
      requires Valid()
      modifies chart, Containers(bars), LayersOf(bars)
      ensures Valid() && chart.baseEntries == bases
      ensures chart.settings == old(chart.settings) && chart.bar == old(chart.bar)
      ensures chart.updatingEntries == old(chart.updatingEntries)
      ensures chart.viewWidth == old(chart.viewWidth) && chart.viewHeight == old(chart.viewHeight)
      ensures Relayout(old(|chart.baseEntries|), |bases|) ==>
        chart.layout == ComputeLayout(chart.settings, ContentSize(old(Metrics()).(baseEntries := bases, numberOfEntries := |bases|)), chart.viewWidth)
        && InSlots(bars, Metrics())
      ensures !Relayout(old(|chart.baseEntries|), |bases|) ==> chart.layout == old(chart.layout)
    {
      var before := |chart.baseEntries|;
      chart.SetBaseEntries(bases);
      if Relayout(before, |bases|) {
        LayoutSublayers();
      }
    }

    /**
     * Assigning `entries`: the base entries follow, new bars are built and
     * presented, bar `i` against the old bar `i` while entries are being
     * updated.
     */
    method SetEntries(es: seq<BarEntry>, now: real)
      requires Valid()
      requires MaxEntries(Metrics().(baseEntries := BarBases(es))) >= 0
      modifies this, chart, Containers(bars), LayersOf(bars)
      ensures Valid() && entries == es && chart.baseEntries == BarBases(es)
      ensures chart.settings == old(chart.settings) && chart.bar == old(chart.bar)
      ensures chart.updatingEntries == old(chart.updatingEntries)
      ensures chart.viewWidth == old(chart.viewWidth) && chart.viewHeight == old(chart.viewHeight)
      ensures Relayout(old(|chart.baseEntries|), |BarBases(es)|) ==>
        chart.layout == ComputeLayout(chart.settings, ContentSize(old(Metrics()).(baseEntries := BarBases(es), numberOfEntries := |BarBases(es)|)), chart.viewWidth)
      ensures !Relayout(old(|chart.baseEntries|), |BarBases(es)|) ==> chart.layout == old(chart.layout)
      ensures Shown(bars, Metrics(), es)
      ensures forall i :: 0 <= i < |bars| ==>
        PresentedFrom(bars[i], old(bars), i, chart.updatingEntries, Animated(chart.settings), now)
    {
      entries := es;
      AssignBaseEntries(BarBases(es));
      var m := Metrics();
      var generated := GenerateBars(es);
      AssignBars(generated, now, m, es);
    }

    /**
     * Assigning `bars`: every new bar is presented, bar `i` against the
     * old bar `i` while entries are being updated. The bars stay shown as
     * they were built.
     */
    method AssignBars(generated: seq<Bar>, now: real, ghost m: Metrics, ghost es: seq<BarEntry>)
      requires WellFormed(generated) && Shown(generated, m, es)
      modifies this, LayersOf(generated)
      ensures bars == generated && entries == old(entries) && Valid() && Shown(bars, m, es)
      ensures forall i :: 0 <= i < |bars| ==>
        PresentedFrom(bars[i], old(bars), i, chart.updatingEntries, Animated(chart.settings), now)
    {
      var previous := bars;
      bars := generated;
      label Assigned:
      PresentBars(generated, previous, chart.updatingEntries, Animated(chart.settings), now);
      forall i | 0 <= i < |generated|
        ensures ShownAs(generated[i], m, BarSlots(m, es)[i])
      {
        assert old@Assigned(ShownAs(generated[i], m, BarSlots(m, es)[i]));
      }
    }

    /**
     * `updateEntries(entries:animationDuration:)`: a list that is not a list
     * of bar entries is ignored; otherwise the new duration is set and the
     * entries are assigned with `updatingEntries` raised, then lowered.
     */
    method UpdateEntries(input: EntryList, duration: real, now: real)
      requires Valid()
      requires AsBarEntries(input).Some? ==>
        MaxEntries(Metrics().(baseEntries := BarBases(AsBarEntries(input).value))) >= 0
      modifies this, chart, Containers(bars), LayersOf(bars)
      ensures Valid()
      ensures chart.viewWidth == old(chart.viewWidth) && chart.viewHeight == old(chart.viewHeight)
      ensures AsBarEntries(input).None? ==> unchanged(this, chart) && unchanged(old(Containers(bars)), old(LayersOf(bars)))
      ensures AsBarEntries(input).Some? ==>
        entries == AsBarEntries(input).value && !chart.updatingEntries
        && chart.settings == old(chart.settings).(animationDuration := duration)
        && chart.baseEntries == BarBases(entries) && chart.bar == old(chart.bar)
        && (Relayout(old(|chart.baseEntries|), |chart.baseEntries|) ==>
              chart.layout == ComputeLayout(chart.settings, ContentSize(old(Metrics()).(settings := chart.settings, baseEntries := chart.baseEntries, numberOfEntries := |chart.baseEntries|)), chart.viewWidth))
        && (!Relayout(old(|chart.baseEntries|), |chart.baseEntries|) ==> chart.layout == old(chart.layout))
        && Shown(bars, Metrics(), entries)
        && forall i :: 0 <= i < |bars| ==> PresentedFrom(bars[i], old(bars), i, true, duration > 0.0, now)
    {
      var cast := AsBarEntries(input);
      if cast.None? {
        return;
      }
      var es := cast.value;
      var previous := bars;
      chart.SetAnimationDuration(duration);
      chart.SetUpdating(true);
      SetEntries(es, now);
      EndUpdate(previous, es, duration > 0.0, now);
    }

    /** Lowering `updatingEntries` once the new bars are presented: the bars are left as they are. */
    method EndUpdate(ghost previous: seq<Bar>, ghost es: seq<BarEntry>, ghost animated: bool, ghost now: real)
      requires Valid() && Shown(bars, Metrics(), es)
      requires forall i :: 0 <= i < |bars| ==> PresentedFrom(bars[i], previous, i, true, animated, now)
      modifies chart
      ensures !chart.updatingEntries && Metrics() == old(Metrics()) && chart.layout == old(chart.layout)
      ensures chart.settings == old(chart.settings) && chart.baseEntries == old(chart.baseEntries)
      ensures Valid() && Shown(bars, Metrics(), es)
      ensures forall i :: 0 <= i < |bars| ==> PresentedFrom(bars[i], previous, i, true, animated, now)
    {
      chart.SetUpdating(false);
      forall i | 0 <= i < |bars|
        ensures PresentedFrom(bars[i], previous, i, true, animated, now)
        ensures ShownAs(bars[i], Metrics(), BarSlots(Metrics(), es)[i])
      {
        assert old(PresentedFrom(bars[i], previous, i, true, animated, now));
        assert old(ShownAs(bars[i], Metrics(), BarSlots(Metrics(), es)[i]));
      }
    }

    /** `notifyConstraintChanges`: every bar is moved to the slot of its position in the list. */
    method NotifyConstraintChanges()
      requires Valid()
      modifies Containers(bars), LayersOf(bars)
      ensures Valid() && InSlots(bars, Metrics())
      ensures forall i :: 0 <= i < |bars| ==>
        bars[i].container.barLayer == old(bars[i].container.barLayer)
        && bars[i].container.selected == old(bars[i].container.selected)
        && bars[i].container.barEntry == old(bars[i].container.barEntry)
    {
      var m := Metrics();
      var bs := bars;
      var frames := seq(|bs|, i requires 0 <= i < |bs| => SlotFrame(m, i));
      var tops := seq(|bs|, i requires 0 <= i < |bs| => YPosition(m, SlotValue(m, bs[i].data)));
      PlaceAll(bs, frames, tops, seq(|bs|, _ => Bottom));
    }

    /**
     * `layoutSublayers(of:)`: the content size of the bars, computed with
     * the current frames, decides the new frames; then the bars are moved
     * into their slots.
     */
    method LayoutSublayers()
      requires Valid()
      modifies chart, Containers(bars), LayersOf(bars)
      ensures Valid() && InSlots(bars, Metrics())
      ensures chart.layout == ComputeLayout(chart.settings, ContentSize(old(Metrics())), chart.viewWidth)
      ensures chart.settings == old(chart.settings) && chart.bar == old(chart.bar) && chart.baseEntries == old(chart.baseEntries)
      ensures chart.updatingEntries == old(chart.updatingEntries)
      ensures chart.viewWidth == old(chart.viewWidth) && chart.viewHeight == old(chart.viewHeight)
      ensures forall i :: 0 <= i < |bars| ==>
        bars[i].container.barLayer == old(bars[i].container.barLayer)
        && bars[i].container.selected == old(bars[i].container.selected)
        && bars[i].container.barEntry == old(bars[i].container.barEntry)
    {
      chart.LayoutSublayers(ContentSize(Metrics()));
      NotifyConstraintChanges();
    }

    /**
     * `touchesBegan(_:with:)` once the touch has been resolved to a container
     * (or to none): with `markSelected` off or no container hit nothing
     * changes; otherwise the touched bar toggles and every other bar is
     * deselected.
     */
    method TouchesBegan(touched: BarContainer?) returns (events: seq<Bar>)
      requires Valid()
      modifies Containers(bars), LayersOf(bars)
      ensures Valid() && |events| <= 1
      ensures !chart.bar.markSelected || touched == null ==>
        events == [] && forall i :: 0 <= i < |bars| ==> bars[i].container.selected == old(bars[i].container.selected)
      ensures chart.bar.markSelected && touched != null ==>
        AtMostOneSelected(bars)
        && forall i :: 0 <= i < |bars| ==>
          bars[i].container.selected == (bars[i].container == touched && !old(bars[i].container.selected))
      ensures chart.bar.markSelected && touched != null ==>
        (forall e :: e in events ==> e.container == touched && touched.selected && touched.barEntry == Some(e.data))
        && (((exists i :: 0 <= i < |bars| && bars[i].container == touched && !old(bars[i].container.selected))
             && touched.barEntry.Some?) ==> events == [Bar(touched, touched.barEntry.value)])
    {
      if !chart.bar.markSelected || touched == null {
        return [];
      }
      events := ToggleSelection(bars, touched);
    }
  }
}
