/**
 * What the three bar charts do alike with their list of bars: presenting a
 * freshly generated list against the one it replaces (the `bars`,
 * `groupedBars` and `rangeBars` observers) and the exclusive selection
 * toggle of `touchesBegan`.
 */
module BarList {
  import opened Wrappers
  import opened Extensions
  import opened Geometry
  import opened Layers

  /** The containers of a bar list. */
  function Containers(bars: seq<Bar>): set<BarContainer> {
    set i | 0 <= i < |bars| :: bars[i].container
  }

  /** The bar layers of a bar list. */
  function LayersOf(bars: seq<Bar>): set<BarLayer?>
    reads Containers(bars)
  {
    set i | 0 <= i < |bars| :: bars[i].container.barLayer
  }

  /**
   * Every bar has its own container and its own bar layer: what the
   * generators guarantee by building a new container, with a new layer,
   * for every bar.
   */
  predicate WellFormed(bars: seq<Bar>)
    reads Containers(bars)
  {
    (forall i :: 0 <= i < |bars| ==> bars[i].container.barLayer != null)
    && (forall i, j :: 0 <= i < j < |bars| ==>
          bars[i].container != bars[j].container
          && bars[i].container.barLayer != bars[j].container.barLayer)
  }

  /** A bar with a container and a layer of its own keeps a well-formed list well-formed. */
  lemma WellFormedAppend(bars: seq<Bar>, b: Bar)
    requires WellFormed(bars) && b.container.barLayer != null
    requires forall i :: 0 <= i < |bars| ==>
      bars[i].container != b.container && bars[i].container.barLayer != b.container.barLayer
    ensures WellFormed(bars + [b])
  {
  }

  /** Two well-formed lists that share no container and no layer make a well-formed list. */
  lemma WellFormedConcat(xs: seq<Bar>, ys: seq<Bar>)
    requires WellFormed(xs) && WellFormed(ys)
    requires forall i, j :: 0 <= i < |xs| && 0 <= j < |ys| ==>
      xs[i].container != ys[j].container && xs[i].container.barLayer != ys[j].container.barLayer
    ensures WellFormed(xs + ys)
  {
  }

  /**
   * The container bar `i` animates from: the container of old bar `i`, but
   * only while entries are being updated and only if the old list has an
   * `i`-th bar.
   */
  function AnimationSource(previous: seq<Bar>, i: int, updating: bool): (r: Option<BarContainer>)
    ensures r.Some? <==> updating && 0 <= i < |previous|
    ensures r.Some? ==> r.value == previous[i].container
  {
    if !updating then None
    else match SafeGet(previous, i)
      case Some(b) => Some(b.container)
      case None => None
  }

  /** An optional container as the nullable reference `present(animated:oldLayer:)` takes. */
  function AsReference(c: Option<BarContainer>): (r: BarContainer?)
    ensures c.None? <==> r == null
    ensures c.Some? ==> r == c.value
  {
    if c.Some? then c.value else null
  }

  /** Bar `i`'s layer has been presented against its animation source. */
  predicate PresentedFrom(b: Bar, previous: seq<Bar>, i: int, updating: bool, animated: bool, now: real)
    reads b.container, b.container.barLayer, b.container.barLayer.oldLayer, Containers(previous)
    requires b.container.barLayer != null
  {
    var layer := b.container.barLayer;
    layer.oldLayer == BarContainer.SourceLayer(AsReference(AnimationSource(previous, i, updating)))
    && layer.boundsManaged == Collapsed(layer.Bounds(), layer.width)
    && layer.lastAction == Some(if animated then layer.ActionFor(BoundsManagedKey, now) else Suppressed)
  }

  /**
   * The observer on the bar list: every new bar is presented, bar `i`
   * against old bar `i` while entries are being updated and against nothing
   * otherwise.
   */
  method PresentBars(bars: seq<Bar>, previous: seq<Bar>, updating: bool, animated: bool, now: real)
    requires WellFormed(bars)
    modifies LayersOf(bars)
    ensures WellFormed(bars)
    ensures forall i :: 0 <= i < |bars| ==> PresentedFrom(bars[i], previous, i, updating, animated, now)
    ensures forall i :: 0 <= i < |bars| ==>
      bars[i].container.barLayer.frame == old(bars[i].container.barLayer.frame)
      && bars[i].container.barLayer.color == old(bars[i].container.barLayer.color)
      && bars[i].container.barLayer.backgroundColor == old(bars[i].container.barLayer.backgroundColor)
      && bars[i].container.barLayer.anchor == old(bars[i].container.barLayer.anchor)
  {
    for k := 0 to |bars|
      invariant forall i :: 0 <= i < |bars| ==>
        bars[i].container.barLayer.frame == old(bars[i].container.barLayer.frame)
        && bars[i].container.barLayer.color == old(bars[i].container.barLayer.color)
        && bars[i].container.barLayer.backgroundColor == old(bars[i].container.barLayer.backgroundColor)
        && bars[i].container.barLayer.anchor == old(bars[i].container.barLayer.anchor)
      invariant forall i :: 0 <= i < k ==> PresentedFrom(bars[i], previous, i, updating, animated, now)
    {
      var source := AsReference(AnimationSource(previous, k, updating));
      bars[k].container.Present(animated, source, now);
    }
  }

  /** At most one bar of the list is selected. */
  predicate AtMostOneSelected(bars: seq<Bar>)
    reads Containers(bars)
  {
    forall i, j :: 0 <= i < |bars| && 0 <= j < |bars| && bars[i].container.selected && bars[j].container.selected
      ==> bars[i].container == bars[j].container
  }

  /**
   * `touchesBegan` once a container has been hit: the touched bar's
   * selection flips and every other bar is deselected. The selection events
   * raised on the way come back in `events`: at most one, for the touched
   * bar when it became selected and has data.
   */
  method ToggleSelection(bars: seq<Bar>, touched: BarContainer) returns (events: seq<Bar>)
    requires WellFormed(bars)
    modifies Containers(bars), LayersOf(bars)
    ensures forall i :: 0 <= i < |bars| ==>
      bars[i].container.selected == (bars[i].container == touched && !old(bars[i].container.selected))
    ensures forall i :: 0 <= i < |bars| ==>
      bars[i].container.barLayer == old(bars[i].container.barLayer)
      && bars[i].container.barEntry == old(bars[i].container.barEntry)
      && bars[i].container.frame == old(bars[i].container.frame)
    ensures WellFormed(bars) && AtMostOneSelected(bars)
    ensures |events| <= 1
    ensures forall e :: e in events ==>
      e.container == touched && touched.selected && touched.barEntry == Some(e.data)
    ensures ((exists i :: 0 <= i < |bars| && bars[i].container == touched && !old(bars[i].container.selected))
             && touched.barEntry.Some?) ==> events == [Bar(touched, touched.barEntry.value)]
  {
    events := [];
    for k := 0 to |bars|
      invariant forall i :: 0 <= i < |bars| ==>
        bars[i].container.barLayer == old(bars[i].container.barLayer)
        && bars[i].container.barEntry == old(bars[i].container.barEntry)
        && bars[i].container.frame == old(bars[i].container.frame)
      invariant forall i :: 0 <= i < k ==>
        bars[i].container.selected == (bars[i].container == touched && !old(bars[i].container.selected))
      invariant forall i :: k <= i < |bars| ==> bars[i].container.selected == old(bars[i].container.selected)
      invariant |events| <= 1
      invariant events != [] ==> exists i :: 0 <= i < k && bars[i].container == touched
      invariant forall e :: e in events ==>
        e.container == touched && touched.selected && touched.barEntry == Some(e.data)
      invariant ((exists i :: 0 <= i < k && bars[i].container == touched && !old(bars[i].container.selected))
                 && touched.barEntry.Some?) ==> events == [Bar(touched, touched.barEntry.value)]
      invariant (forall i :: 0 <= i < k ==> bars[i].container != touched) ==> events == []
    {
      var c := bars[k].container;
      var event := c.SetSelected(if c == touched then !c.selected else false);
      if event.Some? {
        events := events + [event.value];
      }
    }
  }

  /**
   * The loop of `notifyConstraintChanges`: container `i` is moved to
   * `frames[i]` and its bar sized for a top `tops[i]` below the
   * container's top edge, growing in direction `directions[i]`.
   */
  method PlaceAll(bars: seq<Bar>, frames: seq<Rect>, tops: seq<real>, directions: seq<AnimationDirection>)
    requires WellFormed(bars) && |frames| == |bars| && |tops| == |bars| && |directions| == |bars|
    modifies Containers(bars), LayersOf(bars)
    ensures WellFormed(bars)
    ensures forall i :: 0 <= i < |bars| ==>
      bars[i].container.barLayer == old(bars[i].container.barLayer)
      && bars[i].container.selected == old(bars[i].container.selected)
      && bars[i].container.barEntry == old(bars[i].container.barEntry)
    ensures forall i :: 0 <= i < |bars| ==>
      bars[i].container.frame == frames[i]
      && bars[i].container.barLayer.frame == BarFrame(frames[i].Width(), frames[i].Height(), tops[i], directions[i])
      && bars[i].container.barLayer.anchor == BarAnchor(directions[i])
  {
    for index := 0 to |bars|
      invariant old(WellFormed(bars))
      invariant forall i :: 0 <= i < |bars| ==>
        bars[i].container.barLayer == old(bars[i].container.barLayer)
        && bars[i].container.selected == old(bars[i].container.selected)
        && bars[i].container.barEntry == old(bars[i].container.barEntry)
      invariant forall i :: 0 <= i < index ==>
        bars[i].container.frame == frames[i]
        && bars[i].container.barLayer.frame == BarFrame(frames[i].Width(), frames[i].Height(), tops[i], directions[i])
        && bars[i].container.barLayer.anchor == BarAnchor(directions[i])
    {
      bars[index].container.Place(frames[index], tops[index], directions[index]);
    }
  }
}
