/**
 * The per-bar objects: the data attached to a bar, the identity types `Bar`,
 * `GroupBar` and `RangeBar`, the coloured `BarLayer` that grows out of its
 * baseline, and the `BarContainer` background layer that holds it and
 * carries the bar's selection state.
 *
 * Core Animation is reduced to the one decision the source makes: when the
 * custom `boundsManaged` property is written, the layer's `action(forKey:)`
 * chooses the animation. `BarLayer.lastAction` records that choice; the
 * media clock is a parameter `now`.
 */
module Layers {
  import opened Wrappers
  import opened Geometry
  import opened Entries

  // ---------------------------------------------------------------- identity

  /** `BarContainerData`: the entry shown by a bar (none for a placeholder) and the bar's slot id. */
  datatype BarContainerData = BarContainerData(model: Option<BarEntry>, id: int)

  /** A bar: its container layer and its data. */
  datatype Bar = Bar(container: BarContainer, data: BarContainerData)

  /** `Bar.==`: bars are the same bar when their slot ids agree. */
  predicate SameBar(a: Bar, b: Bar) {
    a.data.id == b.data.id
  }

  /** `Bar.hash(into:)` feeds the slot id alone. */
  function BarHash(b: Bar): int {
    b.data.id
  }

  /** Bars with one slot id are equal whatever their containers and entries, and bars that are equal hash equally. */
  lemma BarIdentityIsSlotId(c1: BarContainer, c2: BarContainer, m1: Option<BarEntry>, m2: Option<BarEntry>, id1: int, id2: int)
    ensures SameBar(Bar(c1, BarContainerData(m1, id1)), Bar(c2, BarContainerData(m2, id2))) <==> id1 == id2
    ensures SameBar(Bar(c1, BarContainerData(m1, id1)), Bar(c2, BarContainerData(m2, id2)))
      ==> BarHash(Bar(c1, BarContainerData(m1, id1))) == BarHash(Bar(c2, BarContainerData(m2, id2)))
  {
  }

  /** A bar of a grouped chart: the index of its group and the bar. */
  datatype GroupBar = GroupBar(groupId: int, bar: Bar)

  /** `GroupBar.==`: the group and the bar's slot id both agree. */
  predicate SameGroupBar(a: GroupBar, b: GroupBar) {
    a.groupId == b.groupId && a.bar.data.id == b.bar.data.id
  }

  /** `GroupBar.hash(into:)` feeds the group id alone. */
  function GroupBarHash(g: GroupBar): int {
    g.groupId
  }

  /** Equal grouped bars hash equally; two bars of one group with different slot ids are different bars. */
  lemma GroupBarHashConsistent(a: GroupBar, b: GroupBar)
    ensures SameGroupBar(a, b) ==> GroupBarHash(a) == GroupBarHash(b)
    ensures a.groupId == b.groupId && a.bar.data.id != b.bar.data.id ==> !SameGroupBar(a, b)
  {
  }

  /** A bar of a range chart: the index of its entry, whether it draws the maximum, the entry's value and the bar. */
  datatype RangeBar = RangeBar(groupId: int, isMax: bool, initialValue: real, bar: Bar)

  /** `RangeBar.==`: the group and the bar's slot id agree; which end it draws and the initial value play no part. */
  predicate SameRangeBar(a: RangeBar, b: RangeBar) {
    a.groupId == b.groupId && a.bar.data.id == b.bar.data.id
  }

  /** `RangeBar.hash(into:)` feeds the group id alone. */
  function RangeBarHash(r: RangeBar): int {
    r.groupId
  }

  /**
   * The minimum bar and the maximum bar built for one entry share group and
   * slot id, so they are equal; equal range bars hash equally.
   */
  lemma RangeBarIgnoresEnd(g: int, id: int, v1: real, v2: real, minBar: Bar, maxBar: Bar)
    requires minBar.data.id == id && maxBar.data.id == id
    ensures SameRangeBar(RangeBar(g, false, v1, minBar), RangeBar(g, true, v2, maxBar))
    ensures forall a: RangeBar, b: RangeBar :: SameRangeBar(a, b) ==> RangeBarHash(a) == RangeBarHash(b)
  {
  }

  // ---------------------------------------------------------------- bar layer

  /** The Core Animation key under which the bar's bounds animation is requested. */
  const BoundsManagedKey: string := "boundsManaged"

  /** What `action(forKey:)` hands back to Core Animation. */
  datatype LayerAction =
    | Suppressed                      // `NSNull()`: no animation at all
    | AnimateBounds(from: Rect, to: Rect, duration: real, beginTime: real)
    | Inherited                       // `super.action(forKey:)`

  /** The zero-height rectangle at the bottom right of `bounds`, `width` wide: where a new bar grows from. */
  function Collapsed(bounds: Rect, width: real): Rect {
    Rect(bounds.MaxX(), bounds.Height(), width, 0.0)
  }

  /**
   * `BarLayer.action(forKey:)`: nothing while animation is disabled; for the
   * `boundsManaged` key, a bounds animation from the old layer's bounds (or,
   * with no old layer, from the collapsed rectangle) to the current bounds,
   * lasting `duration` and starting `delay` after `now`; any other key is
   * left to the superclass.
   */
  function ChooseAction(key: string, disabled: bool, oldBounds: Option<Rect>, bounds: Rect,
                        width: real, duration: real, delay: real, now: real): (a: LayerAction)
    ensures a.Suppressed? <==> disabled
    ensures a.AnimateBounds? <==> !disabled && key == BoundsManagedKey
    ensures a.AnimateBounds? ==> a.to == bounds && a.duration == duration && a.beginTime == now + delay
    ensures a.AnimateBounds? && oldBounds.Some? ==> a.from == oldBounds.value
    ensures a.AnimateBounds? && oldBounds.None? ==>
      a.from.height == 0.0 && a.from.width == width && a.from.x == bounds.MaxX() && a.from.y == bounds.Height()
  {
    if disabled then Suppressed
    else if key == BoundsManagedKey then
      AnimateBounds(if oldBounds.Some? then oldBounds.value else Collapsed(bounds, width), bounds, duration, now + delay)
    else Inherited
  }

  /** With no old layer the bar grows from a zero-height line lying on its own bottom edge. */
  lemma NewBarGrowsFromBaseline(bounds: Rect, width: real, duration: real, delay: real, now: real)
    requires bounds.x == 0.0 && bounds.y == 0.0 && bounds.width >= 0.0 && bounds.height >= 0.0
    ensures var a := ChooseAction(BoundsManagedKey, false, None, bounds, width, duration, delay, now);
      a.AnimateBounds? && a.from.y == a.to.y + a.to.height && a.from.x == a.to.x + a.to.width
      && a.from.height == 0.0
  {
  }

  /** `BarLayer.setNeedsLayout`: the corner radius is the rounding, but never more than half the height. */
  function CornerRadius(height: real, rounding: real): (r: real)
    ensures r <= height / 2.0 && r <= rounding
    ensures r == height / 2.0 || r == rounding
  {
    if height / 2.0 <= rounding then height / 2.0 else rounding
  }

  /** `animateSelected`: the bar's colour at half alpha while selected, its own colour otherwise. */
  function SelectedColor(c: Color, selected: bool): (r: Color)
    ensures r.paint == c.paint
    ensures selected ==> r.alpha == 0.5
    ensures !selected ==> r == c
  {
    if selected then WithAlpha(c, 0.5) else c
  }

  /** The coloured bar inside a container. */
  class BarLayer {
    var color: Color
    var animationDuration: real
    var animationDelay: real
    var cornerRounding: real
    var width: real
    var disabledAnimation: bool
    var boundsManaged: Rect
    var oldLayer: BarLayer?
    /** The layer's frame in its container, and its anchor point. */
    var frame: Rect
    var anchor: Point
    var backgroundColor: Color
    var cornerRadius: real
    /** The action Core Animation obtained when `boundsManaged` was last written. */
    var lastAction: Option<LayerAction>

    /** `CALayer.bounds`: the frame's size at the origin. */
    function Bounds(): Rect
      reads this
    {
      Rect(0.0, 0.0, frame.Width(), frame.Height())
    }

    /** `action(forKey:)` in the layer's present state. */
    function ActionFor(key: string, now: real): LayerAction
      reads this, oldLayer
    {
      ChooseAction(key, disabledAnimation,
        if oldLayer != null then Some(oldLayer.Bounds()) else None,
        Bounds(), width, animationDuration, animationDelay, now)
    }

    /** `init(width:color:animationDuration:animationDelay:cornerRounding:)`. */
    constructor(width: real, color: Color, animationDuration: real, animationDelay: real, cornerRounding: real)
      ensures this.width == width && this.color == color && this.backgroundColor == color
      ensures this.animationDuration == animationDuration && this.animationDelay == animationDelay
      ensures this.cornerRounding == cornerRounding
      ensures !disabledAnimation && oldLayer == null && lastAction == None
      ensures frame == Rect(0.0, 0.0, 0.0, 0.0)
    {
      this.width := width;
      this.color := color;
      this.animationDuration := animationDuration;
      this.animationDelay := animationDelay;
      this.cornerRounding := cornerRounding;
      this.backgroundColor := color;
      disabledAnimation := false;
      boundsManaged := Rect(0.0, 0.0, 0.0, 0.0);
      oldLayer := null;
      frame := Rect(0.0, 0.0, 0.0, 0.0);
      anchor := Point(0.5, 0.5);
      cornerRadius := 0.0;
      lastAction := None;
    }

    /** `setNeedsLayout`. */
    method SetNeedsLayout()
      modifies this
      ensures cornerRadius == CornerRadius(Bounds().Height(), cornerRounding)
      ensures cornerRadius <= cornerRounding && cornerRadius <= frame.Height() / 2.0
      ensures frame == old(frame) && color == old(color) && backgroundColor == old(backgroundColor)
      ensures oldLayer == old(oldLayer) && lastAction == old(lastAction) && disabledAnimation == old(disabledAnimation)
      ensures width == old(width) && cornerRounding == old(cornerRounding) && boundsManaged == old(boundsManaged)
      ensures anchor == old(anchor) && animationDuration == old(animationDuration) && animationDelay == old(animationDelay)
    {
      cornerRadius := CornerRadius(Bounds().Height(), cornerRounding);
    }

    /** Writing `boundsManaged`: Core Animation asks `action(forKey:)` for the action to run. */
    method WriteBoundsManaged(r: Rect, now: real)
      modifies this
      ensures boundsManaged == r
      ensures lastAction == Some(old(ActionFor(BoundsManagedKey, now)))
      ensures frame == old(frame) && oldLayer == old(oldLayer) && disabledAnimation == old(disabledAnimation)
      ensures color == old(color) && backgroundColor == old(backgroundColor) && width == old(width)
      ensures cornerRounding == old(cornerRounding) && cornerRadius == old(cornerRadius) && anchor == old(anchor)
      ensures animationDuration == old(animationDuration) && animationDelay == old(animationDelay)
    {
      lastAction := Some(ActionFor(BoundsManagedKey, now));
      boundsManaged := r;
    }

    /**
     * `present(animated:oldLayer:)`: remember the layer to animate from and
     * write the collapsed rectangle to `boundsManaged`; without animation the
     * write happens with animation disabled, and the flag is cleared again.
     */
    method Present(animated: bool, previous: BarLayer?, now: real)
      modifies this
      ensures oldLayer == previous
      ensures boundsManaged == Collapsed(Bounds(), width)
      ensures animated ==> disabledAnimation == old(disabledAnimation)
      ensures !animated ==> !disabledAnimation
      ensures animated ==> lastAction == Some(ActionFor(BoundsManagedKey, now))
      ensures !animated ==> lastAction == Some(Suppressed)
      ensures frame == old(frame) && color == old(color) && backgroundColor == old(backgroundColor)
      ensures width == old(width) && cornerRounding == old(cornerRounding) && cornerRadius == old(cornerRadius)
      ensures anchor == old(anchor) && animationDuration == old(animationDuration) && animationDelay == old(animationDelay)
    {
      oldLayer := previous;
      var collapsed := Collapsed(Bounds(), width);
      if animated {
        WriteBoundsManaged(collapsed, now);
      } else {
        disabledAnimation := true;
        WriteBoundsManaged(collapsed, now);
        disabledAnimation := false;
      }
    }

    /** `animateSelected(selected:)`. */
    method AnimateSelected(selected: bool)
      modifies this
      ensures backgroundColor == SelectedColor(color, selected)
      ensures color == old(color) && frame == old(frame) && oldLayer == old(oldLayer)
      ensures lastAction == old(lastAction) && disabledAnimation == old(disabledAnimation)
      ensures width == old(width) && boundsManaged == old(boundsManaged) && anchor == old(anchor)
      ensures cornerRounding == old(cornerRounding) && cornerRadius == old(cornerRadius)
      ensures animationDuration == old(animationDuration) && animationDelay == old(animationDelay)
    {
      backgroundColor := SelectedColor(color, selected);
    }
  }

  // ---------------------------------------------------------------- bar container

  /** Whether the bar grows up from the bottom of its container or hangs from the top. */
  datatype AnimationDirection = Top | Bottom

  /**
   * `setBarLayerHeight(to:direction:)`: the bar's frame in a container of
   * the given size when the bar's top (or, hanging from the top, its length)
   * is `h` below the container's top edge.
   */
  function BarFrame(containerWidth: real, containerHeight: real, h: real, direction: AnimationDirection): (r: Rect)
    ensures r.x == 0.0 && r.width == containerWidth && r.height == containerHeight - h
    ensures direction == Bottom ==> r.y == h && r.y + r.height == containerHeight
    ensures direction == Top ==> r.y == 0.0
  {
    Rect(0.0, if direction == Bottom then h else 0.0, containerWidth, containerHeight - h)
  }

  /** The anchor point `setBarLayerHeight` gives the bar. */
  function BarAnchor(direction: AnimationDirection): Point {
    if direction == Bottom then UnitPoint else ZeroPoint
  }

  /** The background layer of one bar; it owns the coloured `BarLayer`. */
  class BarContainer {
    var selected: bool
    var barLayer: BarLayer?
    var containerColor: Option<Color>
    var cornerRounding: real
    var barEntry: Option<BarContainerData>
    var frame: Rect
    var backgroundColor: Option<Color>
    var cornerRadius: real
    var masksToBounds: bool

    /** `width`: the width of the container's bounds. */
    function Width(): real
      reads this
    {
      frame.Width()
    }

    /**
     * `init(width:color:animationDuration:animationDelay:cornerRounding:containerColor:)`:
     * a fresh bar layer with the given appearance inside an unselected
     * container painted `containerColor`.
     */
    constructor(width: real, color: Color, animationDuration: real, animationDelay: real,
                cornerRounding: real, containerColor: Option<Color>)
      ensures fresh(barLayer) && barLayer != null
      ensures barLayer.width == width && barLayer.color == color && barLayer.backgroundColor == color
      ensures barLayer.animationDuration == animationDuration && barLayer.animationDelay == animationDelay
      ensures barLayer.cornerRounding == cornerRounding
      ensures !barLayer.disabledAnimation && barLayer.oldLayer == null && barLayer.lastAction == None
      ensures !selected && barEntry == None
      ensures this.containerColor == containerColor && this.cornerRounding == cornerRounding
      ensures backgroundColor == containerColor
    {
      selected := false;
      barLayer := new BarLayer(width, color, animationDuration, animationDelay, cornerRounding);
      this.containerColor := containerColor;
      this.cornerRounding := cornerRounding;
      backgroundColor := containerColor;
      barEntry := None;
      frame := Rect(0.0, 0.0, 0.0, 0.0);
      cornerRadius := 0.0;
      masksToBounds := false;
    }

    /** `setNeedsLayout`: round the container's corners and clip the bar to them. */
    method SetNeedsLayout()
      modifies this
      ensures cornerRadius == cornerRounding && masksToBounds
      ensures selected == old(selected) && barLayer == old(barLayer) && barEntry == old(barEntry)
      ensures frame == old(frame) && backgroundColor == old(backgroundColor)
      ensures containerColor == old(containerColor) && cornerRounding == old(cornerRounding)
    {
      cornerRadius := cornerRounding;
      masksToBounds := true;
    }

    /**
     * Assigning `selected`. An assignment of the current value changes
     * nothing. A change recolours the bar, and a change to selected on a bar
     * with data yields the `didSelectLayer` event.
     */
    method SetSelected(value: bool) returns (event: Option<Bar>)
      modifies this, barLayer
      ensures selected == value
      ensures event.Some? <==> !old(selected) && value && barEntry.Some?
      ensures event.Some? ==> event.value == Bar(this, barEntry.value)
      ensures barLayer == old(barLayer) && barEntry == old(barEntry) && frame == old(frame)
      ensures containerColor == old(containerColor) && cornerRounding == old(cornerRounding)
      ensures backgroundColor == old(backgroundColor) && cornerRadius == old(cornerRadius)
      ensures masksToBounds == old(masksToBounds)
      ensures old(selected) == value && barLayer != null ==> unchanged(barLayer)
      ensures old(selected) != value && barLayer != null ==>
        barLayer.backgroundColor == SelectedColor(barLayer.color, value)
        && barLayer.color == old(barLayer.color) && barLayer.frame == old(barLayer.frame)
        && barLayer.oldLayer == old(barLayer.oldLayer) && barLayer.lastAction == old(barLayer.lastAction)
    {
      event := None;
      var was := selected;
      selected := value;
      if value == was {
        return;
      }
      if barLayer != null {
        barLayer.AnimateSelected(value);
      }
      if value && barEntry.Some? {
        event := Some(Bar(this, barEntry.value));
      }
    }

    /**
     * `setBarLayerHeight(to:direction:)`: place the bar in the container,
     * anchored at its bottom-right corner when it grows from the bottom and at
     * its top-left corner otherwise.
     */
    method SetBarLayerHeight(h: real, direction: AnimationDirection)
      modifies barLayer
      ensures barLayer != null ==> barLayer.frame == BarFrame(Width(), frame.Height(), h, direction)
      ensures barLayer != null ==> barLayer.anchor == BarAnchor(direction)
      ensures barLayer != null ==>
        barLayer.color == old(barLayer.color) && barLayer.backgroundColor == old(barLayer.backgroundColor)
        && barLayer.oldLayer == old(barLayer.oldLayer) && barLayer.lastAction == old(barLayer.lastAction)
        && barLayer.disabledAnimation == old(barLayer.disabledAnimation) && barLayer.width == old(barLayer.width)
        && barLayer.animationDuration == old(barLayer.animationDuration)
        && barLayer.animationDelay == old(barLayer.animationDelay)
        && barLayer.cornerRounding == old(barLayer.cornerRounding)
    {
      if barLayer != null {
        var bounds := BarFrame(Width(), frame.Height(), h, direction);
        barLayer.anchor := BarAnchor(direction);
        barLayer.frame := bounds;
      }
    }

    /** Move the container to `f` and size its bar for a top `h` below the container's top edge. */
    method Place(f: Rect, h: real, direction: AnimationDirection)
      requires barLayer != null
      modifies this, barLayer
      ensures barLayer == old(barLayer) && selected == old(selected) && barEntry == old(barEntry)
      ensures frame == f && barLayer.frame == BarFrame(f.Width(), f.Height(), h, direction)
      ensures barLayer.anchor == BarAnchor(direction)
      ensures containerColor == old(containerColor)
      ensures barLayer.color == old(barLayer.color) && barLayer.backgroundColor == old(barLayer.backgroundColor)
        && barLayer.oldLayer == old(barLayer.oldLayer) && barLayer.lastAction == old(barLayer.lastAction)
        && barLayer.width == old(barLayer.width)
    {
      frame := f;
      SetBarLayerHeight(h, direction);
    }

    /** The bar layer the old container contributes as animation source: its own bar layer, or none. */
    static function SourceLayer(previous: BarContainer?): (r: BarLayer?)
      reads previous
      ensures previous == null ==> r == null
      ensures previous != null ==> r == previous.barLayer
    {
      if previous != null then previous.barLayer else null
    }

    /**
     * `present(animated:oldLayer:)`: present the bar against the bar layer of
     * the old container, if there is one; without a bar layer nothing happens.
     */
    method Present(animated: bool, previous: BarContainer?, now: real)
      modifies barLayer
      ensures barLayer != null ==>
        barLayer.oldLayer == old(SourceLayer(previous))
        && barLayer.boundsManaged == Collapsed(barLayer.Bounds(), barLayer.width)
        && !barLayer.disabledAnimation == (!animated || !old(barLayer.disabledAnimation))
        && barLayer.lastAction == Some(if animated then barLayer.ActionFor(BoundsManagedKey, now) else Suppressed)
        && barLayer.frame == old(barLayer.frame) && barLayer.color == old(barLayer.color)
        && barLayer.backgroundColor == old(barLayer.backgroundColor) && barLayer.width == old(barLayer.width)
        && barLayer.animationDuration == old(barLayer.animationDuration)
        && barLayer.animationDelay == old(barLayer.animationDelay) && barLayer.anchor == old(barLayer.anchor)
    {
      if barLayer == null {
        return;
      }
      barLayer.Present(animated, SourceLayer(previous), now);
    }

    /**
     * `animationDidStart` and `animationDidStop`: the event forwarded to the
     * chart, which exists only when data is attached.
     */
    function AnimationEvent(): (e: Option<Bar>)
      reads this
      ensures e.Some? <==> barEntry.Some?
      ensures e.Some? ==> e.value.container == this && e.value.data == barEntry.value
    {
      if barEntry.Some? then Some(Bar(this, barEntry.value)) else None
    }
  }
}
