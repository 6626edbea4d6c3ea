/**
 * The state `BaseChartView` and `BaseBarChartView` keep for every bar chart:
 * the configuration, the base entries, the "entries are being updated" flag,
 * the view's size and the frames `layoutSublayers` assigns. The concrete
 * charts hold one `ChartView` each.
 */
module ChartCore {
  import opened Geometry
  import opened Entries
  import opened ChartOptions
  import opened Scale

  /**
   * The `baseEntries` observer lays the chart out again when a non-empty
   * list is replaced by one of another length.
   */
  predicate Relayout(oldCount: nat, newCount: nat) {
    oldCount != 0 && newCount != oldCount
  }

  class ChartView {
    var settings: ChartSettings
    var bar: BarSettings
    var baseEntries: seq<BaseEntry>
    var updatingEntries: bool
    /** The size of the view's bounds. */
    var viewWidth: real
    var viewHeight: real
    /** The scroll view's content size and the frames of the bar container, the x axis and the grid. */
    var layout: ChartLayout

    /** The snapshot the layout formulas read, for a chart showing `numberOfEntries` entries. */
    function Snapshot(numberOfEntries: nat): (m: Metrics)
      reads this
      ensures m.settings == settings && m.bar == bar && m.baseEntries == baseEntries
      ensures m.numberOfEntries == numberOfEntries && m.viewWidth == viewWidth && m.viewHeight == viewHeight
      ensures m.containerWidth == layout.container.Width() && m.containerHeight == layout.container.Height()
    {
      Metrics(settings, bar, baseEntries, numberOfEntries, viewWidth, viewHeight,
              layout.container.Width(), layout.container.Height())
    }

    /** A chart of the given size with the default configuration and no entries. */
    constructor(viewWidth: real, viewHeight: real)
      ensures settings == DefaultSettings && bar == DefaultBarSettings
      ensures baseEntries == [] && !updatingEntries
      ensures this.viewWidth == viewWidth && this.viewHeight == viewHeight
    {
      settings := DefaultSettings;
      bar := DefaultBarSettings;
      baseEntries := [];
      updatingEntries := false;
      this.viewWidth := viewWidth;
      this.viewHeight := viewHeight;
      layout := ChartLayout(Size(0.0, 0.0), Rect(0.0, 0.0, 0.0, 0.0), Rect(0.0, 0.0, 0.0, 0.0), Rect(0.0, 0.0, 0.0, 0.0));
    }

    /** `setChartOptions(_:)`: the options are applied one after another. */
    method SetChartOptions(os: seq<ChartOption>)
      modifies this
      ensures settings == ApplyAll(old(settings), os)
      ensures bar == old(bar) && baseEntries == old(baseEntries) && updatingEntries == old(updatingEntries)
      ensures viewWidth == old(viewWidth) && viewHeight == old(viewHeight) && layout == old(layout)
    {
      for k := 0 to |os|
        invariant settings == ApplyAll(old(settings), os[..k])
        invariant bar == old(bar) && baseEntries == old(baseEntries) && updatingEntries == old(updatingEntries)
        invariant viewWidth == old(viewWidth) && viewHeight == old(viewHeight) && layout == old(layout)
      {
        assert os[..k + 1][..k] == os[..k];
        settings := Apply(settings, os[k]);
      }
      assert os[..|os|] == os;
    }

    /** `setBarChartOptions(_:barOptions:)`: the chart options, then the bar options one after another. */
    method SetBarChartOptions(os: seq<ChartOption>, bos: seq<BarOption>)
      modifies this
      ensures settings == ApplyAll(old(settings), os)
      ensures bar == ApplyBarAll(old(bar), bos)
      ensures baseEntries == old(baseEntries) && updatingEntries == old(updatingEntries)
      ensures viewWidth == old(viewWidth) && viewHeight == old(viewHeight) && layout == old(layout)
    {
      SetChartOptions(os);
      for k := 0 to |bos|
        invariant bar == ApplyBarAll(old(bar), bos[..k])
        invariant settings == ApplyAll(old(settings), os)
        invariant baseEntries == old(baseEntries) && updatingEntries == old(updatingEntries)
        invariant viewWidth == old(viewWidth) && viewHeight == old(viewHeight) && layout == old(layout)
      {
        assert bos[..k + 1][..k] == bos[..k];
        bar := ApplyBar(bar, bos[k]);
      }
      assert bos[..|bos|] == bos;
    }

    /** Assigning `baseEntries`. */
    method SetBaseEntries(es: seq<BaseEntry>)
      modifies this
      ensures baseEntries == es
      ensures settings == old(settings) && bar == old(bar) && updatingEntries == old(updatingEntries)
      ensures viewWidth == old(viewWidth) && viewHeight == old(viewHeight) && layout == old(layout)
    {
      baseEntries := es;
    }

    /** Assigning `updatingEntries`. */
    method SetUpdating(updating: bool)
      modifies this
      ensures updatingEntries == updating
      ensures settings == old(settings) && bar == old(bar) && baseEntries == old(baseEntries)
      ensures viewWidth == old(viewWidth) && viewHeight == old(viewHeight) && layout == old(layout)
    {
      updatingEntries := updating;
    }

    /** Assigning `animationDuration`, as `updateEntries(entries:animationDuration:)` does. */
    method SetAnimationDuration(d: real)
      modifies this
      ensures settings == old(settings).(animationDuration := d)
      ensures Animated(settings) <==> d > 0.0
      ensures bar == old(bar) && baseEntries == old(baseEntries) && updatingEntries == old(updatingEntries)
      ensures viewWidth == old(viewWidth) && viewHeight == old(viewHeight) && layout == old(layout)
    {
      settings := settings.(animationDuration := d);
    }

    /** The frame arithmetic of `layoutSublayers(of:)` for a content size computed by the chart. */
    method LayoutSublayers(contentSize: Size)
      modifies this
      ensures layout == ComputeLayout(settings, contentSize, viewWidth)
      ensures settings == old(settings) && bar == old(bar) && baseEntries == old(baseEntries)
      ensures updatingEntries == old(updatingEntries) && viewWidth == old(viewWidth) && viewHeight == old(viewHeight)
    {
      layout := ComputeLayout(settings, contentSize, viewWidth);
    }
  }
}
