/**
 * `GroupedBarChartView`: the children of every group become one bar each,
 * numbered on across the groups and tagged with their group; groups are set
 * apart by `groupSpacing` and the x-axis label of a group spans its bars.
 */
module GroupedCharts {
  import opened Wrappers
  import opened Arith
  import opened Geometry
  import opened Extensions
  import opened Entries
  import opened ChartOptions
  import opened Scale
  import opened BarScale
  import opened Layers
  import opened BarList
  import opened ChartCore
  import BarCharts

  /** The initial `groupSpacing`. */
  const DefaultGroupSpacing: real := 10.0

  // ---------------------------------------------------------------- flattening

  /** `entries.flatMap { $0.entries }` over the first `n` groups: their children, group after group. */
  function Children(groups: seq<GroupedEntry>, n: nat := |groups|): seq<BarEntry>
    requires n <= |groups|
  {
    if n == 0 then [] else Children(groups, n - 1) + groups[n - 1].entries
  }

  /**
   * Group `g`'s children sit in the flattened list right after the children
   * of the groups before it, in their own order.
   */
  lemma {:induction false} ChildrenOfGroup(groups: seq<GroupedEntry>, g: nat, j: nat, k: nat := |groups|)
    requires g < k <= |groups| && j < |groups[g].entries|
    ensures |Children(groups, g)| + j < |Children(groups, k)|
    ensures Children(groups, k)[|Children(groups, g)| + j] == groups[g].entries[j]
    decreases k
  {
    if k > g + 1 {
      ChildrenOfGroup(groups, g, j, k - 1);
    }
  }

  // ---------------------------------------------------------------- the bars to build

  /** What `generateBar(entry:group:index:)` is called with: a group, a running bar id and a child. */
  datatype GroupSlot = GroupSlot(group: nat, id: nat, entry: BarEntry)

  /**
   * The bars `generateBars` builds from the first `n` groups: the children of
   * group 0, then those of group 1, and so on, each tagged with its group
   * and numbered by its position.
   */
  function GroupSlots(groups: seq<GroupedEntry>, n: nat): (ss: seq<GroupSlot>)
    requires n <= |groups|
    ensures |ss| == |Children(groups, n)|
    ensures forall i :: 0 <= i < |ss| ==>
      ss[i].id == i && ss[i].group < n && ss[i].entry == Children(groups, n)[i]
    decreases n
  {
    if n == 0 then []
    else
      var prior := GroupSlots(groups, n - 1);
      var es := groups[n - 1].entries;
      prior + seq(|es|, j requires 0 <= j < |es| => GroupSlot(n - 1, |prior| + j, es[j]))
  }

  /** The groups `generateBars` visits: those with an index below `_maxEntries` that exist. */
  function VisibleGroups(m: Metrics, groups: seq<GroupedEntry>): (n: nat)
    requires MaxEntries(m) >= 0
    ensures n <= |groups| && n <= MaxEntries(m)
    ensures n == |groups| || n == MaxEntries(m)
  {
    if MaxEntries(m) < |groups| then MaxEntries(m) else |groups|
  }

  /** The slots of the first `g + 1` groups are those of the first `g`, followed by one per child of group `g`. */
  lemma GroupSlotsStep(groups: seq<GroupedEntry>, g: nat)
    requires g < |groups|
    ensures |GroupSlots(groups, g + 1)| == |GroupSlots(groups, g)| + |groups[g].entries|
    ensures forall i :: 0 <= i < |GroupSlots(groups, g)| ==> GroupSlots(groups, g + 1)[i] == GroupSlots(groups, g)[i]
  {
  }

  /** Group ids never decrease along the list of bars. */
  lemma {:induction false} GroupIdsOrdered(groups: seq<GroupedEntry>, n: nat, i: nat, j: nat)
    requires n <= |groups|
    requires i <= j < |GroupSlots(groups, n)|
    ensures GroupSlots(groups, n)[i].group <= GroupSlots(groups, n)[j].group
    decreases n
  {
    var prior := GroupSlots(groups, n - 1);
    if j < |prior| {
      GroupIdsOrdered(groups, n - 1, i, j);
      assert GroupSlots(groups, n)[i] == prior[i] && GroupSlots(groups, n)[j] == prior[j];
    } else if i < |prior| {
      assert GroupSlots(groups, n)[i] == prior[i];
    }
  }

  /**
   * The bars tagged with group `g` form one block: they start right after
   * the children of the earlier groups and there is exactly one per child
   * of group `g`, carrying that child.
   */
  lemma {:induction false} GroupBlock(groups: seq<GroupedEntry>, n: nat, g: nat, i: nat)
    requires g < n <= |groups|
    requires i < |GroupSlots(groups, n)|
    ensures var start := |Children(groups, g)|;
      (GroupSlots(groups, n)[i].group == g <==> start <= i < start + |groups[g].entries|)
      && (GroupSlots(groups, n)[i].group == g ==> GroupSlots(groups, n)[i].entry == groups[g].entries[i - start])
    decreases n
  {
    var prior := GroupSlots(groups, n - 1);
    var ss := GroupSlots(groups, n);
    if g == n - 1 {
      assert |prior| == |Children(groups, g)|;
      if i < |prior| {
        assert ss[i] == prior[i];
      }
    } else if i < |prior| {
      GroupBlock(groups, n - 1, g, i);
      assert ss[i] == prior[i];
    } else {
      BlockBeforeEnd(groups, g, n - 1);
    }
  }

  /** The children of the groups before `g + 1` are no more than those before any later group. */
  lemma {:induction false} BlockBeforeEnd(groups: seq<GroupedEntry>, g: nat, k: nat)
    requires g < k <= |groups|
    ensures |Children(groups, g + 1)| <= |Children(groups, k)|
    decreases k
  {
    if k > g + 1 {
      BlockBeforeEnd(groups, g, k - 1);
    }
  }

  // ---------------------------------------------------------------- the bars of a chart

  /** The bars of a list of group bars. */
  function BarsOf(gbs: seq<GroupBar>): (bs: seq<Bar>)
    ensures |bs| == |gbs|
    ensures forall i :: 0 <= i < |gbs| ==> bs[i] == gbs[i].bar
  {
    seq(|gbs|, i requires 0 <= i < |gbs| => gbs[i].bar)
  }

  /** The bars of two lists of group bars, one after the other. */
  lemma BarsOfConcat(xs: seq<GroupBar>, ys: seq<GroupBar>)
    ensures BarsOf(xs + ys) == BarsOf(xs) + BarsOf(ys)
  {
    assert forall i :: 0 <= i < |xs + ys| ==> BarsOf(xs + ys)[i] == (BarsOf(xs) + BarsOf(ys))[i];
  }

  /** `groupedBars.first(where: { $0.bar.data.id == index })`, as a position in the list: the search from `from` on. */
  function FindById(gbs: seq<GroupBar>, id: int, from: nat := 0): (r: Option<nat>)
    requires from <= |gbs|
    ensures r.None? <==> forall i :: from <= i < |gbs| ==> gbs[i].bar.data.id != id
    ensures r.Some? ==> from <= r.value < |gbs| && gbs[r.value].bar.data.id == id
    ensures r.Some? ==> forall i :: from <= i < r.value ==> gbs[i].bar.data.id != id
    decreases |gbs| - from
  {
    if from == |gbs| then None
    else if gbs[from].bar.data.id == id then Some(from)
    else FindById(gbs, id, from + 1)
  }

  /** `groupedBars.first(where: { $0.groupId == group })`, as a position in the list: the search from `from` on. */
  function FindInGroup(gbs: seq<GroupBar>, group: int, from: nat := 0): (r: Option<nat>)
    requires from <= |gbs|
    ensures r.None? <==> forall i :: from <= i < |gbs| ==> gbs[i].groupId != group
    ensures r.Some? ==> from <= r.value < |gbs| && gbs[r.value].groupId == group
    ensures r.Some? ==> forall i :: from <= i < r.value ==> gbs[i].groupId != group
    decreases |gbs| - from
  {
    if from == |gbs| then None
    else if gbs[from].groupId == group then Some(from)
    else FindInGroup(gbs, group, from + 1)
  }

  /** `groupedBars.filter { $0.groupId == group }.count`, over the first `n` bars. */
  function CountInGroup(gbs: seq<GroupBar>, group: int, n: nat := |gbs|): (c: nat)
    requires n <= |gbs|
    ensures c <= n
  {
    if n == 0 then 0
    else CountInGroup(gbs, group, n - 1) + (if gbs[n - 1].groupId == group then 1 else 0)
  }

  /** `getGroup(for:)`: the group of the first bar with the given id. */
  function GetGroup(gbs: seq<GroupBar>, index: int): (r: Option<int>)
    ensures r.None? <==> forall i :: 0 <= i < |gbs| ==> gbs[i].bar.data.id != index
  {
    match FindById(gbs, index)
    case None => None
    case Some(k) => Some(gbs[k].groupId)
  }

  /** A list of group bars carries the given slots: same length, group ids and bar data. */
  predicate Tagged(gbs: seq<GroupBar>, ss: seq<GroupSlot>) {
    |gbs| == |ss|
    && forall i :: 0 <= i < |gbs| ==>
      gbs[i].groupId == ss[i].group && gbs[i].bar.data == BarContainerData(Some(ss[i].entry), ss[i].id)
  }

  // ---------------------------------------------------------------- positions

  /** `calculateXPos(for:with:)`: one spacing in, the bar's pitch slot, plus one group spacing per earlier group. */
  function GroupedBarX(m: Metrics, groupSpacing: real, group: int, index: int): real
    requires BarGeometryDefined(m)
  {
    Spacing(m) + BarX(m, index) + (group as real) * groupSpacing
  }

  /** `calculateXPos(for:with:)` where it is finite, 0 where Swift's value is not a number. */
  function UsedGroupedBarX(m: Metrics, groupSpacing: real, group: int, index: int): real {
    if BarGeometryDefined(m) then GroupedBarX(m, groupSpacing, group, index) else 0.0
  }

  /** Neighbouring bars of one group are one pitch apart; the first bar of the next group one group spacing more. */
  lemma GroupedBarsSpaced(m: Metrics, groupSpacing: real, group: int, index: int)
    requires BarGeometryDefined(m)
    ensures GroupedBarX(m, groupSpacing, group, index + 1) - GroupedBarX(m, groupSpacing, group, index) == Pitch(m)
    ensures GroupedBarX(m, groupSpacing, group + 1, index + 1) - GroupedBarX(m, groupSpacing, group, index)
      == Pitch(m) + groupSpacing
  {
    assert BarX(m, index + 1) == BarX(m, index) + Pitch(m);
  }

  /** `calculateXPos(for:)`: the grouped position of the bar with the given id, or -10000 if there is none. */
  function XPosition(m: Metrics, groupSpacing: real, gbs: seq<GroupBar>, index: int): real
  {
    match GetGroup(gbs, index)
    case None => -10000.0
    case Some(g) => UsedGroupedBarX(m, groupSpacing, g, index)
  }

  /**
   * `getXPostionForXAxis(for:)`: the x of the first bar of the group of
   * the bar with the given id, or -100 if there is none.
   */
  function AxisX(m: Metrics, groupSpacing: real, gbs: seq<GroupBar>, index: int): real
  {
    match GetGroup(gbs, index)
    case None => -100.0
    case Some(g) =>
      match FindInGroup(gbs, g)
      case None => -100.0
      case Some(k) => XPosition(m, groupSpacing, gbs, gbs[k].bar.data.id)
  }

  /**
   * `widthForXLabel(for:at:)`: as many pitches as the group of the bar with
   * the given id has bars; the plain bar chart's width if there is no such bar.
   */
  function LabelWidth(m: Metrics, gbs: seq<GroupBar>, index: int): real
    requires BarGeometryDefined(m)
  {
    match GetGroup(gbs, index)
    case None => AxisLabelWidth(m)
    case Some(g) => (CountInGroup(gbs, g) as real) * Pitch(m)
  }

  /**
   * `computeContentSize`: a pitch per child and a group spacing per group,
   * but at least the view width less the y-axis label column.
   */
  function GroupedContentSize(m: Metrics, groupCount: nat, groupSpacing: real): (size: Size)
    requires BarGeometryDefined(m)
    ensures size.height == m.viewHeight
    ensures size.width >= Pitch(m) * (|m.baseEntries| as real) + (groupCount as real) * groupSpacing
    ensures size.width >= m.viewWidth - LeftSpacing
    ensures size.width == Pitch(m) * (|m.baseEntries| as real) + (groupCount as real) * groupSpacing
      || size.width == m.viewWidth - LeftSpacing
  {
    var width := Pitch(m) * (|m.baseEntries| as real) + (groupCount as real) * groupSpacing;
    Size(if width >= m.viewWidth - LeftSpacing then width else m.viewWidth - LeftSpacing, m.viewHeight)
  }

  /** The content size the layout receives: `GroupedContentSize` where it is finite, a width of 0 otherwise. */
  function UsedGroupedContentSize(m: Metrics, groupCount: nat, groupSpacing: real): Size {
    if BarGeometryDefined(m) then GroupedContentSize(m, groupCount, groupSpacing) else Size(0.0, m.viewHeight)
  }

  /**
   * The snapshot the `entries` observer lays the chart out with: `m` with
   * `bases` as its base entries, in the container frame the `baseEntries`
   * observer left (a new one when it laid the chart out, the old one
   * otherwise).
   */
  function ObservedMetrics(m: Metrics, bases: seq<BaseEntry>, groupCount: nat, groupSpacing: real): Metrics {
    var withBases := m.(baseEntries := bases, numberOfEntries := |bases|);
    if Relayout(m.numberOfEntries, |bases|) then
      var frames := ComputeLayout(m.settings, UsedGroupedContentSize(withBases, groupCount, groupSpacing), m.viewWidth);
      withBases.(containerWidth := frames.container.Width(), containerHeight := frames.container.Height())
    else
      withBases
  }

  // ---------------------------------------------------------------- queries on the generated bars

  /** In the generated list the bar with id `i` is the bar at position `i`. */
  lemma FindGenerated(gbs: seq<GroupBar>, ss: seq<GroupSlot>, i: int)
    requires Tagged(gbs, ss) && forall k :: 0 <= k < |ss| ==> ss[k].id == k
    ensures 0 <= i < |gbs| ==> FindById(gbs, i) == Some(i as nat)
    ensures !(0 <= i < |gbs|) ==> FindById(gbs, i).None?
  {
    if 0 <= i < |gbs| {
      assert gbs[i].bar.data.id == i;
      var r := FindById(gbs, i);
      assert r.Some?;
      assert gbs[r.value].bar.data.id == r.value;
    }
  }

  /**
   * `notifyConstraintChanges` puts a generated bar back where
   * `generateBar` placed it: its id is its position and its group is found
   * by that id. An id outside the list has no position.
   */
  lemma XPositionOfGenerated(m: Metrics, groupSpacing: real, groups: seq<GroupedEntry>, n: nat, gbs: seq<GroupBar>, i: int)
    requires n <= |groups| && Tagged(gbs, GroupSlots(groups, n))
    ensures 0 <= i < |gbs| ==>
      XPosition(m, groupSpacing, gbs, i) == UsedGroupedBarX(m, groupSpacing, GroupSlots(groups, n)[i].group, i)
    ensures !(0 <= i < |gbs|) ==> XPosition(m, groupSpacing, gbs, i) == -10000.0
  {
    FindGenerated(gbs, GroupSlots(groups, n), i);
  }

  /** In a generated list the group of the bar with id `i` is the group of the `i`-th child. */
  lemma GetGroupOfGenerated(groups: seq<GroupedEntry>, n: nat, gbs: seq<GroupBar>, i: int)
    requires n <= |groups| && Tagged(gbs, GroupSlots(groups, n)) && 0 <= i < |gbs|
    ensures GetGroup(gbs, i) == Some(GroupSlots(groups, n)[i].group as int)
  {
    FindGenerated(gbs, GroupSlots(groups, n), i);
  }

  /** The first bar of a non-empty group is the first child of that group. */
  lemma FirstOfGroup(groups: seq<GroupedEntry>, n: nat, gbs: seq<GroupBar>, g: nat)
    requires g < n <= |groups| && Tagged(gbs, GroupSlots(groups, n))
    requires |groups[g].entries| > 0
    ensures |Children(groups, g)| < |gbs|
    ensures FindInGroup(gbs, g) == Some(|Children(groups, g)|)
  {
    var start := |Children(groups, g)|;
    var ss := GroupSlots(groups, n);
    BlockBeforeEnd(groups, g, n);
    GroupBlock(groups, n, g, start);
    assert gbs[start].groupId == ss[start].group;
    forall i | 0 <= i < start
      ensures gbs[i].groupId != g
    {
      GroupBlock(groups, n, g, i);
      assert gbs[i].groupId == ss[i].group;
    }
    FindInGroupAt(gbs, g, start);
  }

  /** The first bar of a group is the bar of that group before which no bar of it comes. */
  lemma FindInGroupAt(gbs: seq<GroupBar>, g: int, first: nat)
    requires first < |gbs| && gbs[first].groupId == g
    requires forall i :: 0 <= i < first ==> gbs[i].groupId != g
    ensures FindInGroup(gbs, g) == Some(first)
  {
  }

  /**
   * The label of a bar whose group starts with bar `first` starts at that
   * bar; by `FirstBarOfChild`, the label of every child of a group starts
   * at the group's first child.
   */
  lemma AxisXOfFound(m: Metrics, groupSpacing: real, gbs: seq<GroupBar>, index: int, g: int, first: nat)
    requires GetGroup(gbs, index) == Some(g) && FindInGroup(gbs, g) == Some(first)
    requires gbs[first].bar.data.id == first && GetGroup(gbs, first) == Some(g)
    ensures AxisX(m, groupSpacing, gbs, index) == UsedGroupedBarX(m, groupSpacing, g, first)
  {
  }

  /** The group of the `j`-th child of group `g` is `g`, and its first bar is the group's first child. */
  lemma FirstBarOfChild(groups: seq<GroupedEntry>, n: nat, gbs: seq<GroupBar>, g: nat, j: nat)
    requires g < n <= |groups| && Tagged(gbs, GroupSlots(groups, n))
    requires j < |groups[g].entries|
    ensures var start := |Children(groups, g)|;
      start + j < |gbs| && GetGroup(gbs, start + j) == Some(g as int)
      && FindInGroup(gbs, g) == Some(start) && gbs[start].bar.data.id == start
      && GetGroup(gbs, start) == Some(g as int)
  {
    var start := |Children(groups, g)|;
    InGroupBlock(groups, n, gbs, g, j);
    GetGroupOfGenerated(groups, n, gbs, start + j);
    FirstOfGroup(groups, n, gbs, g);
    GetGroupOfGenerated(groups, n, gbs, start);
    GroupBlock(groups, n, g, start);
  }

  /** The `j`-th child of group `g` is a generated bar of group `g`. */
  lemma InGroupBlock(groups: seq<GroupedEntry>, n: nat, gbs: seq<GroupBar>, g: nat, j: nat)
    requires g < n <= |groups| && Tagged(gbs, GroupSlots(groups, n))
    requires j < |groups[g].entries|
    ensures |Children(groups, g)| + j < |gbs|
    ensures GroupSlots(groups, n)[|Children(groups, g)| + j].group == g
  {
    BlockBeforeEnd(groups, g, n);
    GroupBlock(groups, n, g, |Children(groups, g)| + j);
  }

  /** Counting the bars of a group one bar at a time: only the bars of the block `[lo, hi)` count. */
  lemma {:induction false} CountInGroupRange(gbs: seq<GroupBar>, group: int, lo: nat, hi: nat, n: nat)
    requires lo <= hi <= |gbs| && n <= |gbs|
    requires forall i :: 0 <= i < |gbs| ==> (gbs[i].groupId == group <==> lo <= i < hi)
    ensures CountInGroup(gbs, group, n) == (if n <= lo then 0 else if n <= hi then n - lo else hi - lo)
    decreases n
  {
    if n > 0 {
      CountInGroupRange(gbs, group, lo, hi, n - 1);
    }
  }

  /**
   * The label of a bar that has a group is a pitch per bar of that group
   * wide; by `GroupOfChild`, one pitch per child of the group.
   */
  lemma LabelWidthOfFound(m: Metrics, gbs: seq<GroupBar>, index: int, g: int)
    requires BarGeometryDefined(m) && GetGroup(gbs, index) == Some(g)
    ensures LabelWidth(m, gbs, index) == (CountInGroup(gbs, g) as real) * Pitch(m)
  {
  }


  /** The bars of group `g` are exactly those in its block, and the block lies inside the list. */
  lemma BlockInRange(groups: seq<GroupedEntry>, n: nat, gbs: seq<GroupBar>, g: nat)
    requires g < n <= |groups| && Tagged(gbs, GroupSlots(groups, n))
    ensures |Children(groups, g)| + |groups[g].entries| <= |gbs|
    ensures forall i :: 0 <= i < |gbs| ==>
      (gbs[i].groupId == g <==> |Children(groups, g)| <= i < |Children(groups, g)| + |groups[g].entries|)
  {
    BlockBeforeEnd(groups, g, n);
    forall i | 0 <= i < |gbs|
      ensures gbs[i].groupId == g <==> |Children(groups, g)| <= i < |Children(groups, g)| + |groups[g].entries|
    {
      GroupBlock(groups, n, g, i);
    }
  }

  /**
   * With a non-negative pitch and group spacing every generated bar ends
   * inside the content width: its right edge is at most a pitch per child
   * and a group spacing per group.
   */
  lemma BarsFitContent(m: Metrics, groupSpacing: real, groups: seq<GroupedEntry>, n: nat, i: nat)
    requires BarGeometryDefined(m) && Pitch(m) >= 0.0 && groupSpacing >= 0.0
    requires n <= |groups| && |m.baseEntries| == |Children(groups)|
    requires i < |GroupSlots(groups, n)|
    ensures GroupedBarX(m, groupSpacing, GroupSlots(groups, n)[i].group, i) + BarWidth(m)
      <= GroupedContentSize(m, |groups|, groupSpacing).width
  {
    SlotWithin(groups, n, i);
    FitsAt(Pitch(m), BarWidth(m), Spacing(m), groupSpacing, i, |m.baseEntries|, GroupSlots(groups, n)[i].group, |groups|);
  }

  /** Slot `i` is one of all the children, and its group one of all the groups. */
  lemma SlotWithin(groups: seq<GroupedEntry>, n: nat, i: nat)
    requires n <= |groups| && i < |GroupSlots(groups, n)|
    ensures i < |Children(groups)| && GroupSlots(groups, n)[i].group < |groups|
  {
    ChildrenLength(groups, n);
  }

  /** The arithmetic of `BarsFitContent`: slot `i` of `total` and group `g` of `groups` end by the total width. */
  lemma FitsAt(pitch: real, width: real, spacing: real, gs: real, i: nat, total: nat, g: nat, groups: nat)
    requires pitch == width + spacing && pitch >= 0.0 && gs >= 0.0
    requires i < total && g < groups
    ensures spacing + (i as real) * pitch + (g as real) * gs + width
      <= pitch * (total as real) + (groups as real) * gs
  {
    MulMonotone(pitch, (i as real) + 1.0, total as real);
    MulMonotone(gs, g as real, groups as real);
  }

  /** A prefix of the groups has no more children than all of them. */
  lemma {:induction false} ChildrenLength(groups: seq<GroupedEntry>, n: nat)
    requires n <= |groups|
    ensures |Children(groups, n)| <= |Children(groups)|
    decreases |groups| - n
  {
    if n < |groups| {
      ChildrenLength(groups, n + 1);
    }
  }

  /** With no group left empty, the first `n` groups hold at least `n` children. */
  lemma {:induction false} ChildrenAtLeastGroups(groups: seq<GroupedEntry>, n: nat)
    requires n <= |groups|
    requires forall g :: 0 <= g < |groups| ==> |groups[g].entries| > 0
    ensures |Children(groups, n)| >= n
  {
    if n > 0 {
      ChildrenAtLeastGroups(groups, n - 1);
    }
  }

  /**
   * `_maxEntries` counts children, and `generateBars` compares group
   * indices with it. Without a visible-count limit and with no empty group,
   * every group is visited, so every child gets a bar.
   */
  lemma EveryGroupVisible(m: Metrics, groups: seq<GroupedEntry>)
    requires m.settings.maxVisibleCount.None? && m.baseEntries == BarBases(Children(groups))
    requires forall g :: 0 <= g < |groups| ==> |groups[g].entries| > 0
    ensures MaxEntries(m) >= 0 && VisibleGroups(m, groups) == |groups|
    ensures |GroupSlots(groups, VisibleGroups(m, groups))| == |m.baseEntries|
  {
    ChildrenAtLeastGroups(groups, |groups|);
  }

  /**
   * An empty group counts for a group but adds no child, so it can push a
   * later group past `_maxEntries`: an empty group followed by a group of
   * one child produces no bar at all.
   */
  lemma EmptyGroupHidesNext(m: Metrics, e: BarEntry, c1: string, c2: string)
    requires m.settings.maxVisibleCount.None?
    requires m.baseEntries == BarBases(Children([GroupedEntry([], c1, 0.0), GroupedEntry([e], c2, e.value)]))
    ensures var groups := [GroupedEntry([], c1, 0.0), GroupedEntry([e], c2, e.value)];
      MaxEntries(m) == 1 && VisibleGroups(m, groups) == 1 && GroupSlots(groups, VisibleGroups(m, groups)) == []
  {
    var groups := [GroupedEntry([], c1, 0.0), GroupedEntry([e], c2, e.value)];
    assert Children(groups, 1) == [];
    assert Children(groups) == [e];
  }

  // ---------------------------------------------------------------- frames

  /** The frame `generateBar(entry:group:index:)` gives a container: at its grouped x, a bar wide, the container's height. */
  function GroupedSlotFrame(m: Metrics, groupSpacing: real, group: int, index: int): (r: Rect)
    ensures r.y == 0.0 && r.height == m.containerHeight && r.width == UsedBarWidth(m)
    ensures BarGeometryDefined(m) ==> r.x == GroupedBarX(m, groupSpacing, group, index)
  {
    Rect(UsedGroupedBarX(m, groupSpacing, group, index), 0.0, UsedBarWidth(m), m.containerHeight)
  }

  /** Where `notifyConstraintChanges` puts bar `i`: at `calculateXPos(for: i)`, a bar wide, the container's height. */
  function NotifiedFrame(m: Metrics, groupSpacing: real, gbs: seq<GroupBar>, i: int): (r: Rect)
    ensures r.y == 0.0 && r.height == m.containerHeight && r.width == UsedBarWidth(m)
    ensures GetGroup(gbs, i).None? ==> r.x == -10000.0
  {
    Rect(XPosition(m, groupSpacing, gbs, i), 0.0, UsedBarWidth(m), m.containerHeight)
  }

  /**
   * Laying a generated chart out again leaves every bar where
   * `generateBar` put it: the frame `notifyConstraintChanges` computes for
   * bar `i` is the frame of its group and id.
   */
  lemma NotifiedFrameOfGenerated(m: Metrics, groupSpacing: real, groups: seq<GroupedEntry>, n: nat, gbs: seq<GroupBar>, i: nat)
    requires n <= |groups| && Tagged(gbs, GroupSlots(groups, n)) && i < |gbs|
    ensures NotifiedFrame(m, groupSpacing, gbs, i)
      == GroupedSlotFrame(m, groupSpacing, GroupSlots(groups, n)[i].group, GroupSlots(groups, n)[i].id)
  {
    XPositionOfGenerated(m, groupSpacing, groups, n, gbs, i);
  }

  /** The layer frame of a bar in a container with frame `frame`: growing from the bottom up to the y of `value`. */
  function LayerFrameFor(m: Metrics, frame: Rect, value: real): (r: Rect)
    ensures r.y == YPosition(m, value) && r.y + r.height == frame.Height() && r.width == frame.Width()
  {
    BarFrame(frame.Width(), frame.Height(), YPosition(m, value), Bottom)
  }

  /** A freshly built group bar: its group, its data, its appearance and its frames. */
  predicate GroupBuilt(gb: GroupBar, m: Metrics, groupSpacing: real, s: GroupSlot)
    reads gb.bar.container, gb.bar.container.barLayer
  {
    var c := gb.bar.container;
    var d := BarContainerData(Some(s.entry), s.id);
    var frame := GroupedSlotFrame(m, groupSpacing, s.group, s.id);
    gb.groupId == s.group && gb.bar.data == d && c.barEntry == Some(d) && !c.selected
    && c.containerColor == m.bar.containerColor && c.frame == frame
    && c.barLayer != null
    && c.barLayer.color == s.entry.color && c.barLayer.backgroundColor == s.entry.color
    && c.barLayer.width == UsedBarWidth(m)
    && c.barLayer.animationDuration == m.settings.animationDuration
    && c.barLayer.animationDelay == m.settings.animationDelay
    && c.barLayer.frame == LayerFrameFor(m, frame, s.entry.value)
  }

  /** Bars built for their slots carry the slots' groups and data. */
  lemma BuiltAreTagged(gbs: seq<GroupBar>, m: Metrics, groupSpacing: real, ss: seq<GroupSlot>)
    requires |gbs| == |ss|
    requires forall i :: 0 <= i < |gbs| ==> GroupBuilt(gbs[i], m, groupSpacing, ss[i])
    ensures Tagged(gbs, ss)
  { }

  /** Group bar `gb` shows slot `s`: its group and data, placed in its grouped slot at the height of its value, in its colour. */
  predicate GroupShownAs(gb: GroupBar, m: Metrics, groupSpacing: real, s: GroupSlot)
    reads gb.bar.container, gb.bar.container.barLayer
  {
    var frame := GroupedSlotFrame(m, groupSpacing, s.group, s.id);
    gb.groupId == s.group && gb.bar.data == BarContainerData(Some(s.entry), s.id)
    && gb.bar.container.frame == frame
    && gb.bar.container.barLayer != null
    && gb.bar.container.barLayer.frame == LayerFrameFor(m, frame, s.entry.value)
    && gb.bar.container.barLayer.color == s.entry.color
  }

  /** The bars generated for `groups`: one per child of every visible group, each shown as its slot says. */
  predicate GroupShown(gbs: seq<GroupBar>, m: Metrics, groupSpacing: real, groups: seq<GroupedEntry>)
    reads Containers(BarsOf(gbs)), LayersOf(BarsOf(gbs))
  {
    MaxEntries(m) >= 0
    && var ss := GroupSlots(groups, VisibleGroups(m, groups));
    |gbs| == |ss| && forall i :: 0 <= i < |gbs| ==> GroupShownAs(gbs[i], m, groupSpacing, ss[i])
  }

  /** The bars are where `notifyConstraintChanges` puts them: bar `i` at `calculateXPos(for: i)`, at the height of its value. */
  predicate Placed(gbs: seq<GroupBar>, m: Metrics, groupSpacing: real)
    reads Containers(BarsOf(gbs)), LayersOf(BarsOf(gbs))
  {
    forall i :: 0 <= i < |gbs| ==>
      gbs[i].bar.container.frame == NotifiedFrame(m, groupSpacing, gbs, i)
      && gbs[i].bar.container.barLayer != null
      && gbs[i].bar.container.barLayer.frame
         == LayerFrameFor(m, NotifiedFrame(m, groupSpacing, gbs, i), BarCharts.SlotValue(m, gbs[i].bar.data))
  }

  // ---------------------------------------------------------------- the view

  class GroupedChart {
    const chart: ChartView
    var entries: seq<GroupedEntry>
    var groupSpacing: real
    var groupedBars: seq<GroupBar>

    /** The snapshot the layout formulas read: every child counts. */
    function Metrics(): (m: Metrics)
      reads chart
      ensures m.numberOfEntries == |chart.baseEntries| && m.baseEntries == chart.baseEntries
    {
      chart.Snapshot(|chart.baseEntries|)
    }

    /** Each bar has its own container and layer. */
    predicate Valid()
      reads this, Containers(BarsOf(groupedBars))
    {
      WellFormed(BarsOf(groupedBars))
    }

    constructor(viewWidth: real, viewHeight: real)
      ensures fresh(chart) && entries == [] && groupedBars == [] && Valid()
      ensures groupSpacing == DefaultGroupSpacing
      ensures chart.settings == DefaultSettings && chart.bar == DefaultBarSettings && chart.baseEntries == []
    {
      chart := new ChartView(viewWidth, viewHeight);
      entries := [];
      groupSpacing := DefaultGroupSpacing;
      groupedBars := [];
    }

    /**
     * `generateBar(entry:group:index:)`: a new container and layer for
     * child `s.entry` of group `s.group`, bar number `s.id`.
     */
    static method GenerateBar(m: Metrics, groupSpacing: real, s: GroupSlot) returns (gb: GroupBar)
      ensures fresh(gb.bar.container) && fresh(gb.bar.container.barLayer)
      ensures GroupBuilt(gb, m, groupSpacing, s)
    {
      var data := BarContainerData(Some(s.entry), s.id);
      var c := new BarContainer(UsedBarWidth(m), s.entry.color, m.settings.animationDuration,
                                m.settings.animationDelay, m.bar.cornerRounding, m.bar.containerColor);
      c.frame := GroupedSlotFrame(m, groupSpacing, s.group, s.id);
      c.SetBarLayerHeight(YPosition(m, s.entry.value), Bottom);
      c.barEntry := Some(data);
      gb := GroupBar(s.group, Bar(c, data));
    }

    /**
     * The inner loop of `generateBars`: one new bar per slot, in order; the
     * slots are the children of one group, numbered on from the bars
     * generated before.
     */
    static method GenerateGroup(m: Metrics, groupSpacing: real, slots: seq<GroupSlot>) returns (added: seq<GroupBar>)
      ensures |added| == |slots|
      ensures forall j :: 0 <= j < |added| ==> fresh(added[j].bar.container) && fresh(added[j].bar.container.barLayer)
      ensures forall j :: 0 <= j < |added| ==> GroupBuilt(added[j], m, groupSpacing, slots[j])
      ensures WellFormed(BarsOf(added))
    {
      added := [];
      for j := 0 to |slots|
        invariant |added| == j
        invariant forall i :: 0 <= i < j ==> fresh(added[i].bar.container) && fresh(added[i].bar.container.barLayer)
        invariant forall i :: 0 <= i < j ==> GroupBuilt(added[i], m, groupSpacing, slots[i])
        invariant WellFormed(BarsOf(added))
      {
        added := GenerateNext(m, groupSpacing, slots, added);
      }
    }

    /** One step of the inner loop: a new bar for the next slot, the bars built so far left as they are. */
    static method GenerateNext(m: Metrics, groupSpacing: real, slots: seq<GroupSlot>, added: seq<GroupBar>)
      returns (r: seq<GroupBar>)
      requires |added| < |slots| && WellFormed(BarsOf(added))
      ensures |r| == |added| + 1 && forall i :: 0 <= i < |added| ==> r[i] == added[i]
      ensures fresh(r[|added|].bar.container) && fresh(r[|added|].bar.container.barLayer)
      ensures GroupBuilt(r[|added|], m, groupSpacing, slots[|added|])
      ensures WellFormed(BarsOf(r))
    {
      var gb := GenerateBar(m, groupSpacing, slots[|added|]);
      WellFormedAppend(BarsOf(added), gb.bar);
      BarsOfConcat(added, [gb]);
      r := added + [gb];
    }

    /** One turn of the outer loop of `generateBars`: the bars of group `g` after those of the groups before it. */
    static method AppendGroup(m: Metrics, groupSpacing: real, groups: seq<GroupedEntry>, g: nat, result: seq<GroupBar>)
      returns (r: seq<GroupBar>)
      requires g < |groups| && |result| == |GroupSlots(groups, g)| && WellFormed(BarsOf(result))
      requires forall i :: 0 <= i < |result| ==> GroupBuilt(result[i], m, groupSpacing, GroupSlots(groups, g)[i])
      ensures |r| == |GroupSlots(groups, g + 1)| && forall i :: 0 <= i < |result| ==> r[i] == result[i]
      ensures forall i :: |result| <= i < |r| ==> fresh(r[i].bar.container) && fresh(r[i].bar.container.barLayer)
      ensures forall i :: 0 <= i < |r| ==> GroupBuilt(r[i], m, groupSpacing, GroupSlots(groups, g + 1)[i])
      ensures WellFormed(BarsOf(r))
    {
      var ss := GroupSlots(groups, g + 1);
      GroupSlotsStep(groups, g);
      var added := GenerateGroup(m, groupSpacing, ss[|result|..]);
      WellFormedConcat(BarsOf(result), BarsOf(added));
      BarsOfConcat(result, added);
      r := result + added;
    }

    /**
     * `generateBars(entries:)`: the groups below `_maxEntries` that exist,
     * in order, each contributing one bar per child; the bar number runs on
     * across the groups.
     */
    static method GenerateBars(m: Metrics, groupSpacing: real, groups: seq<GroupedEntry>) returns (result: seq<GroupBar>)
      requires MaxEntries(m) >= 0
      ensures Tagged(result, GroupSlots(groups, VisibleGroups(m, groups)))
      ensures forall i :: 0 <= i < |result| ==>
        GroupBuilt(result[i], m, groupSpacing, GroupSlots(groups, VisibleGroups(m, groups))[i])
      ensures forall i :: 0 <= i < |result| ==> fresh(result[i].bar.container) && fresh(result[i].bar.container.barLayer)
      ensures WellFormed(BarsOf(result))
    {
      result := [];
      ghost var n := 0;
      ghost var ss := GroupSlots(groups, 0);
      for group := 0 to MaxEntries(m)
        invariant n == if group < |groups| then group else |groups|
        invariant ss == GroupSlots(groups, n) && |result| == |ss|
        invariant forall i :: 0 <= i < |result| ==> GroupBuilt(result[i], m, groupSpacing, ss[i])
        invariant forall i :: 0 <= i < |result| ==> fresh(result[i].bar.container) && fresh(result[i].bar.container.barLayer)
        invariant WellFormed(BarsOf(result))
      {
        if group < |groups| {
          result := AppendGroup(m, groupSpacing, groups, group, result);
          n := group + 1;
          ss := GroupSlots(groups, n);
        }
      }
      assert n == VisibleGroups(m, groups);
      BuiltAreTagged(result, m, groupSpacing, ss);
    }

    /**
     * Assigning `baseEntries`: when a non-empty list is replaced by one of
     * another length the chart is laid out again.
     */
    method AssignBaseEntries(bases: seq<BaseEntry>)
      requires Valid()
      modifies chart, Containers(BarsOf(groupedBars)), LayersOf(BarsOf(groupedBars))
      ensures Valid() && chart.baseEntries == bases
      ensures chart.settings == old(chart.settings) && chart.bar == old(chart.bar)
      ensures chart.updatingEntries == old(chart.updatingEntries)
      ensures chart.viewWidth == old(chart.viewWidth) && chart.viewHeight == old(chart.viewHeight)
      ensures Relayout(old(|chart.baseEntries|), |bases|) ==>
        chart.layout == ComputeLayout(chart.settings,
          UsedGroupedContentSize(old(Metrics()).(baseEntries := bases, numberOfEntries := |bases|), |entries|, groupSpacing),
          chart.viewWidth)
        && Placed(groupedBars, Metrics(), groupSpacing)
      ensures !Relayout(old(|chart.baseEntries|), |bases|) ==> chart.layout == old(chart.layout)
      ensures forall i :: 0 <= i < |groupedBars| ==>
        groupedBars[i].bar.container.barLayer == old(groupedBars[i].bar.container.barLayer)
    {
      var before := |chart.baseEntries|;
      chart.SetBaseEntries(bases);
      if Relayout(before, |bases|) {
        LayoutSublayers();
      }
    }

    /**
     * The first half of the `entries` observer: the children of the groups
     * become the base entries, then the chart is laid out with the grouped
     * content size and every bar moved to its place.
     */
    method AssignChildren()
      requires Valid()
      modifies chart, Containers(BarsOf(groupedBars)), LayersOf(BarsOf(groupedBars))
      ensures Valid() && chart.baseEntries == BarBases(Children(entries))
      ensures chart.settings == old(chart.settings) && chart.bar == old(chart.bar)
      ensures chart.updatingEntries == old(chart.updatingEntries)
      ensures chart.viewWidth == old(chart.viewWidth) && chart.viewHeight == old(chart.viewHeight)
      ensures unchanged(this)
      ensures chart.layout == ComputeLayout(chart.settings,
        UsedGroupedContentSize(ObservedMetrics(old(Metrics()), chart.baseEntries, |entries|, groupSpacing), |entries|, groupSpacing),
        chart.viewWidth)
      ensures Placed(groupedBars, Metrics(), groupSpacing)
    {
      AssignBaseEntries(BarBases(Children(entries)));
      ghost var layers := LayersOf(BarsOf(groupedBars));
      assert layers == old(LayersOf(BarsOf(groupedBars)));
      LayoutSublayers();
    }

    /**
     * Assigning `entries`: the children become the base entries, the chart
     * is laid out, and new bars are built and presented, bar `i` against
     * the old bar `i` while entries are being updated.
     */
    method SetEntries(es: seq<GroupedEntry>, now: real)
      requires Valid()
      requires MaxEntries(Metrics().(baseEntries := BarBases(Children(es)))) >= 0
      modifies this, chart, Containers(BarsOf(groupedBars)), LayersOf(BarsOf(groupedBars))
      ensures Valid() && entries == es && chart.baseEntries == BarBases(Children(es))
      ensures chart.settings == old(chart.settings) && chart.bar == old(chart.bar)
      ensures chart.updatingEntries == old(chart.updatingEntries) && groupSpacing == old(groupSpacing)
      ensures chart.viewWidth == old(chart.viewWidth) && chart.viewHeight == old(chart.viewHeight)
      ensures chart.layout == ComputeLayout(chart.settings,
        UsedGroupedContentSize(ObservedMetrics(old(Metrics()), chart.baseEntries, |es|, groupSpacing), |es|, groupSpacing),
        chart.viewWidth)
      ensures GroupShown(groupedBars, Metrics(), groupSpacing, es)
      ensures forall i :: 0 <= i < |groupedBars| ==>
        PresentedFrom(groupedBars[i].bar, BarsOf(old(groupedBars)), i, chart.updatingEntries, Animated(chart.settings), now)
    {
      entries := es;
      AssignChildren();
      Regenerate(now);
    }

    /** The end of the `entries` observer: new bars for the current entries, presented against the old ones. */
    method Regenerate(now: real)
      requires Valid() && MaxEntries(Metrics()) >= 0
      modifies this
      ensures Valid() && entries == old(entries) && groupSpacing == old(groupSpacing)
      ensures GroupShown(groupedBars, Metrics(), groupSpacing, entries)
      ensures forall i :: 0 <= i < |groupedBars| ==>
        PresentedFrom(groupedBars[i].bar, BarsOf(old(groupedBars)), i, chart.updatingEntries, Animated(chart.settings), now)
    {
      var m := Metrics();
      var generated := GenerateBars(m, groupSpacing, entries);
      AssignGroupedBars(generated, now, m, entries);
    }

    /**
     * Assigning `groupedBars`: every new bar is presented, bar `i` against
     * the old bar `i` while entries are being updated. The bars stay shown
     * as they were built.
     */
    method AssignGroupedBars(generated: seq<GroupBar>, now: real, ghost m: Metrics, ghost es: seq<GroupedEntry>)
      requires MaxEntries(m) >= 0
      requires WellFormed(BarsOf(generated))
      requires |generated| == |GroupSlots(es, VisibleGroups(m, es))|
      requires forall i :: 0 <= i < |generated| ==>
        GroupBuilt(generated[i], m, groupSpacing, GroupSlots(es, VisibleGroups(m, es))[i])
      modifies this, LayersOf(BarsOf(generated))
      ensures groupedBars == generated && entries == old(entries) && groupSpacing == old(groupSpacing)
      ensures Valid() && GroupShown(groupedBars, m, groupSpacing, es)
      ensures forall i :: 0 <= i < |groupedBars| ==>
        PresentedFrom(groupedBars[i].bar, BarsOf(old(groupedBars)), i, chart.updatingEntries, Animated(chart.settings), now)
    {
      var previous := groupedBars;
      groupedBars := generated;
      ghost var ss := GroupSlots(es, VisibleGroups(m, es));
      label Assigned:
      PresentBars(BarsOf(generated), BarsOf(previous), chart.updatingEntries, Animated(chart.settings), now);
      forall i | 0 <= i < |generated|
        ensures GroupShownAs(generated[i], m, groupSpacing, ss[i])
      {
        assert BarsOf(generated)[i] == generated[i].bar;
        assert old@Assigned(GroupBuilt(generated[i], m, groupSpacing, ss[i]));
      }
    }

    /**
     * `updateEntries(entries:animationDuration:)`: a list that is not a list
     * of grouped entries is ignored; otherwise the new duration is set and
     * the entries are assigned with `updatingEntries` raised, then lowered.
     */
    method UpdateEntries(input: EntryList, duration: real, now: real)
      requires Valid()
      requires AsGroupedEntries(input).Some? ==>
        MaxEntries(Metrics().(baseEntries := BarBases(Children(AsGroupedEntries(input).value)))) >= 0
      modifies this, chart, Containers(BarsOf(groupedBars)), LayersOf(BarsOf(groupedBars))
      ensures Valid()
      ensures chart.viewWidth == old(chart.viewWidth) && chart.viewHeight == old(chart.viewHeight)
      ensures AsGroupedEntries(input).None? ==>
        unchanged(this, chart) && unchanged(old(Containers(BarsOf(groupedBars))), old(LayersOf(BarsOf(groupedBars))))
      ensures AsGroupedEntries(input).Some? ==>
        entries == AsGroupedEntries(input).value && !chart.updatingEntries
        && chart.settings == old(chart.settings).(animationDuration := duration)
        && chart.baseEntries == BarBases(Children(entries)) && chart.bar == old(chart.bar)
        && groupSpacing == old(groupSpacing)
        && chart.layout == ComputeLayout(chart.settings,
             UsedGroupedContentSize(ObservedMetrics(old(Metrics()).(settings := chart.settings), chart.baseEntries, |entries|, groupSpacing),
               |entries|, groupSpacing),
             chart.viewWidth)
        && GroupShown(groupedBars, Metrics(), groupSpacing, entries)
        && forall i :: 0 <= i < |groupedBars| ==>
          PresentedFrom(groupedBars[i].bar, BarsOf(old(groupedBars)), i, true, duration > 0.0, now)
    {
      var cast := AsGroupedEntries(input);
      if cast.None? {
        return;
      }
      var es := cast.value;
      var previous := groupedBars;
      chart.SetAnimationDuration(duration);
      chart.SetUpdating(true);
      SetEntries(es, now);
      EndUpdate(BarsOf(previous), es, duration > 0.0, now);
    }

    /** Lowering `updatingEntries` once the new bars are presented: the bars are left as they are. */
    method EndUpdate(ghost previous: seq<Bar>, ghost es: seq<GroupedEntry>, ghost animated: bool, ghost now: real)
      requires Valid() && GroupShown(groupedBars, Metrics(), groupSpacing, es)
      requires forall i :: 0 <= i < |groupedBars| ==> PresentedFrom(groupedBars[i].bar, previous, i, true, animated, now)
      modifies chart
      ensures !chart.updatingEntries && Metrics() == old(Metrics()) && chart.layout == old(chart.layout)
      ensures chart.settings == old(chart.settings) && chart.baseEntries == old(chart.baseEntries)
      ensures Valid() && GroupShown(groupedBars, Metrics(), groupSpacing, es)
      ensures forall i :: 0 <= i < |groupedBars| ==> PresentedFrom(groupedBars[i].bar, previous, i, true, animated, now)
    {
      chart.SetUpdating(false);
      ghost var ss := GroupSlots(es, VisibleGroups(Metrics(), es));
      forall i | 0 <= i < |groupedBars|
        ensures PresentedFrom(groupedBars[i].bar, previous, i, true, animated, now)
        ensures GroupShownAs(groupedBars[i], Metrics(), groupSpacing, ss[i])
      {
        assert old(PresentedFrom(groupedBars[i].bar, previous, i, true, animated, now));
        assert old(GroupShownAs(groupedBars[i], Metrics(), groupSpacing, ss[i]));
      }
    }

    /**
     * `notifyConstraintChanges`: bar `i` of the list is moved to
     * `calculateXPos(for: i)`, at the height of its value (the container's
     * height when it has none).
     */
    method NotifyConstraintChanges()
      requires Valid()
      modifies Containers(BarsOf(groupedBars)), LayersOf(BarsOf(groupedBars))
      ensures Valid() && Placed(groupedBars, Metrics(), groupSpacing)
      ensures forall i :: 0 <= i < |groupedBars| ==>
        groupedBars[i].bar.container.barLayer == old(groupedBars[i].bar.container.barLayer)
        && groupedBars[i].bar.container.selected == old(groupedBars[i].bar.container.selected)
        && groupedBars[i].bar.container.barEntry == old(groupedBars[i].bar.container.barEntry)
    {
      var m := Metrics();
      var gbs, gs := groupedBars, groupSpacing;
      var bs := BarsOf(gbs);
      var frames := seq(|bs|, i requires 0 <= i < |bs| => NotifiedFrame(m, gs, gbs, i));
      var tops := seq(|bs|, i requires 0 <= i < |bs| => YPosition(m, BarCharts.SlotValue(m, bs[i].data)));
      PlaceAll(bs, frames, tops, seq(|bs|, _ => Bottom));
    }

    /**
     * `layoutSublayers(of:)`: the grouped content size, computed with the
     * current frames, decides the new frames; then the bars are moved.
     */
    method LayoutSublayers()
      requires Valid()
      modifies chart, Containers(BarsOf(groupedBars)), LayersOf(BarsOf(groupedBars))
      ensures Valid() && Placed(groupedBars, Metrics(), groupSpacing)
      ensures chart.layout == ComputeLayout(chart.settings, UsedGroupedContentSize(old(Metrics()), |entries|, groupSpacing), chart.viewWidth)
      ensures chart.settings == old(chart.settings) && chart.bar == old(chart.bar) && chart.baseEntries == old(chart.baseEntries)
      ensures chart.updatingEntries == old(chart.updatingEntries)
      ensures chart.viewWidth == old(chart.viewWidth) && chart.viewHeight == old(chart.viewHeight)
      ensures forall i :: 0 <= i < |groupedBars| ==>
        groupedBars[i].bar.container.barLayer == old(groupedBars[i].bar.container.barLayer)
        && groupedBars[i].bar.container.selected == old(groupedBars[i].bar.container.selected)
        && groupedBars[i].bar.container.barEntry == old(groupedBars[i].bar.container.barEntry)
    {
      chart.LayoutSublayers(UsedGroupedContentSize(Metrics(), |entries|, groupSpacing));
      NotifyConstraintChanges();
    }

    /**
     * `setGroupBarChartOptions(_:groupBarOptions:)`: the chart options, then
     * every group option in order; a bar-option group applies the chart
     * options again and then its bar options, a spacing sets `groupSpacing`.
     */
    method SetGroupBarChartOptions(os: seq<ChartOption>, gos: seq<GroupOption>)
      modifies this, chart
      ensures chart.settings == ApplyAll(old(chart.settings), os)
      ensures chart.bar == ApplyBarAll(old(chart.bar), GroupBarOptions(gos))
      ensures groupSpacing == LastGroupSpacing(gos, old(groupSpacing))
      ensures entries == old(entries) && groupedBars == old(groupedBars)
      ensures chart.baseEntries == old(chart.baseEntries) && chart.updatingEntries == old(chart.updatingEntries)
      ensures chart.layout == old(chart.layout)
      ensures chart.viewWidth == old(chart.viewWidth) && chart.viewHeight == old(chart.viewHeight)
    {
      chart.SetChartOptions(os);
      for k := 0 to |gos|
        invariant chart.settings == ApplyAll(old(chart.settings), os)
        invariant chart.bar == ApplyBarAll(old(chart.bar), GroupBarOptions(gos[..k]))
        invariant groupSpacing == LastGroupSpacing(gos[..k], old(groupSpacing))
        invariant entries == old(entries) && groupedBars == old(groupedBars)
        invariant chart.baseEntries == old(chart.baseEntries) && chart.updatingEntries == old(chart.updatingEntries)
        invariant chart.layout == old(chart.layout)
        invariant chart.viewWidth == old(chart.viewWidth) && chart.viewHeight == old(chart.viewHeight)
      {
        assert gos[..k + 1][..k] == gos[..k];
        assert GroupBarOptions(gos[..k + 1])
          == GroupBarOptions(gos[..k]) + (if gos[k].BarchartOptions? then gos[k].barOptions else []);
        if gos[k].BarchartOptions? {
          chart.SetBarChartOptions(os, gos[k].barOptions);
          ApplyAllIdempotent(old(chart.settings), os);
          ApplyBarAllConcat(old(chart.bar), GroupBarOptions(gos[..k]), gos[k].barOptions);
        } else {
          assert GroupBarOptions(gos[..k + 1]) == GroupBarOptions(gos[..k]);
          groupSpacing := gos[k].groupSpacing;
        }
      }
      assert gos[..|gos|] == gos;
    }

    /**
     * `touchesBegan(_:with:)` once the touch has been resolved to a container
     * (or to none): with `markSelected` off or no container hit nothing
     * changes; otherwise the touched bar toggles and every other bar is
     * deselected.
     */
    method TouchesBegan(touched: BarContainer?) returns (events: seq<Bar>)
      requires Valid()
      modifies Containers(BarsOf(groupedBars)), LayersOf(BarsOf(groupedBars))
      ensures Valid() && |events| <= 1
      ensures !chart.bar.markSelected || touched == null ==>
        events == [] && forall i :: 0 <= i < |groupedBars| ==>
          groupedBars[i].bar.container.selected == old(groupedBars[i].bar.container.selected)
      ensures chart.bar.markSelected && touched != null ==>
        AtMostOneSelected(BarsOf(groupedBars))
        && forall i :: 0 <= i < |groupedBars| ==>
          groupedBars[i].bar.container.selected
          == (groupedBars[i].bar.container == touched && !old(groupedBars[i].bar.container.selected))
      ensures chart.bar.markSelected && touched != null ==>
        (forall e :: e in events ==> e.container == touched && touched.selected && touched.barEntry == Some(e.data))
        && (((exists i :: 0 <= i < |groupedBars| && groupedBars[i].bar.container == touched && !old(groupedBars[i].bar.container.selected))
             && touched.barEntry.Some?) ==> events == [Bar(touched, touched.barEntry.value)])
    {
      if !chart.bar.markSelected || touched == null {
        return [];
      }
      events := ToggleSelection(BarsOf(groupedBars), touched);
    }
  }
}
