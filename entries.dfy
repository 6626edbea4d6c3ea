/**
 * The entry models a chart is fed with. Entries are ordered and compared by
 * their value only (line entries: by their date only). A `BarEntryModel` is
 * treated as a base entry that also carries a colour.
 */
module Entries {
  import opened Wrappers
  import opened Geometry

  // ---------------------------------------------------------------- base entries

  /** `BaseEntryModel`: a caption and a value. */
  datatype BaseEntry = BaseEntry(caption: string, value: real) {

    /** Assigning the mutable `value`; the immutable caption is kept. */
    function WithValue(v: real): (r: BaseEntry)
      ensures r.value == v && r.caption == caption
    {
      this.(value := v)
    }
  }

  /** `BaseEntryModel.<`: compares values only. */
  predicate Less(a: BaseEntry, b: BaseEntry) {
    a.value < b.value
  }

  /** `BaseEntryModel.==`: compares values only; labels play no part. */
  predicate Same(a: BaseEntry, b: BaseEntry) {
    a.value == b.value
  }

  /** `<` and `==` satisfy Swift's `Comparable` laws: exactly one of a < b, a == b, b < a holds. */
  lemma OrderIsTotal(a: BaseEntry, b: BaseEntry)
    ensures (Less(a, b) && !Same(a, b) && !Less(b, a))
         || (!Less(a, b) && Same(a, b) && !Less(b, a))
         || (!Less(a, b) && !Same(a, b) && Less(b, a))
  {
  }

  /** Equality ignores the caption, so changing it keeps an entry equal to itself. */
  lemma SameIgnoresLabel(a: BaseEntry, caption: string)
    ensures Same(a, a.(caption := caption)) && !Less(a, a.(caption := caption))
  {
  }

  /** The values of a list of entries, in order. */
  function Values(es: seq<BaseEntry>): (vs: seq<real>)
    ensures |vs| == |es|
    ensures forall i :: 0 <= i < |es| ==> vs[i] == es[i].value
  {
    if es == [] then [] else Values(es[..|es| - 1]) + [es[|es| - 1].value]
  }

  // ---------------------------------------------------------------- bar entries

  /** `BarEntryModel`: value, colour and caption. */
  datatype BarEntry = BarEntry(value: real, color: Color, caption: string) {

    /** The base entry this bar entry stands for (caption and value). */
    function AsBase(): (b: BaseEntry)
      ensures b.value == value && b.caption == caption
    {
      BaseEntry(caption, value)
    }

    /** Assigning the mutable `value`; colour and caption are kept. */
    function WithValue(v: real): (r: BarEntry)
      ensures r.value == v && r.color == color && r.caption == caption
    {
      this.(value := v)
    }
  }

  /** `BarEntryModel.<`, by value. */
  predicate BarLess(a: BarEntry, b: BarEntry) {
    a.value < b.value
  }

  /** `BarEntryModel.==`, by value; colour and caption play no part. */
  predicate BarSame(a: BarEntry, b: BarEntry) {
    a.value == b.value
  }

  /** Viewing a bar entry as a base entry preserves both comparisons. */
  lemma BarOrderAgreesWithBase(a: BarEntry, b: BarEntry)
    ensures BarLess(a, b) <==> Less(a.AsBase(), b.AsBase())
    ensures BarSame(a, b) <==> Same(a.AsBase(), b.AsBase())
  {
  }

  /** The base entries of a list of bar entries (`baseEntries = entries`). */
  function BarBases(es: seq<BarEntry>): (bs: seq<BaseEntry>)
    ensures |bs| == |es|
    ensures forall i :: 0 <= i < |es| ==> bs[i] == es[i].AsBase()
  {
    if es == [] then [] else BarBases(es[..|es| - 1]) + [es[|es| - 1].AsBase()]
  }

  // ---------------------------------------------------------------- range entries

  /**
   * `RangeBarEntryModel`: a base entry (value, caption) with a colour and a
   * minimum and maximum. No order among min, value and max is imposed.
   */
  datatype RangeEntry = RangeEntry(value: real, min: real, max: real, color: Color, caption: string) {

    function AsBase(): (b: BaseEntry)
      ensures b.value == value && b.caption == caption
    {
      BaseEntry(caption, value)
    }
  }

  /** The inherited `<`: compares `value` only. */
  predicate RangeLess(a: RangeEntry, b: RangeEntry) {
    Less(a.AsBase(), b.AsBase())
  }

  /** The inherited `==`: compares `value` only. */
  predicate RangeSame(a: RangeEntry, b: RangeEntry) {
    Same(a.AsBase(), b.AsBase())
  }

  /** Changing min and max never changes how a range entry compares. */
  lemma RangeOrderIgnoresBounds(a: RangeEntry, b: RangeEntry, lo: real, hi: real)
    ensures RangeLess(a.(min := lo, max := hi), b) <==> RangeLess(a, b)
    ensures RangeSame(a.(min := lo, max := hi), b) <==> RangeSame(a, b)
  {
  }

  // ---------------------------------------------------------------- grouped entries

  /** `GroupedEntryModel`: child bar entries, a caption, and the aggregate value. */
  datatype GroupedEntry = GroupedEntry(entries: seq<BarEntry>, caption: string, value: real) {

    function AsBase(): (b: BaseEntry)
      ensures b.value == value && b.caption == caption
    {
      BaseEntry(caption, value)
    }
  }

  /** The values of a list of bar entries, in order. */
  function BarValues(es: seq<BarEntry>): (vs: seq<real>)
    ensures |vs| == |es|
    ensures forall i :: 0 <= i < |es| ==> vs[i] == es[i].value
  {
    Values(BarBases(es))
  }

  /** The sum of a list of reals, added from the left. */
  function Sum(xs: seq<real>): real {
    if xs == [] then 0.0 else Sum(xs[..|xs| - 1]) + xs[|xs| - 1]
  }

  /**
   * The incremental mean `reduce(0) { avg + (x_k - avg) / (k + 1) }` over the
   * enumerated values, folded from the left exactly as `reduce` does.
   */
  function MeanFold(xs: seq<real>): real {
    if xs == [] then 0.0
    else
      var avg := MeanFold(xs[..|xs| - 1]);
      avg + (xs[|xs| - 1] - avg) / (|xs| as real)
  }

  /** Over exact reals the incremental mean is the arithmetic mean: n * fold == sum. */
  lemma {:induction false} MeanFoldIsMean(xs: seq<real>)
    ensures MeanFold(xs) * (|xs| as real) == Sum(xs)
  {
    if xs != [] {
      var n := |xs| as real;
      var init := xs[..|xs| - 1];
      var x := xs[|xs| - 1];
      var avg := MeanFold(init);
      MeanFoldIsMean(init);
      assert avg * (n - 1.0) == Sum(init);
      calc {
        MeanFold(xs) * n;
        (avg + (x - avg) / n) * n;
        avg * n + (x - avg);
        avg * (n - 1.0) + x;
        Sum(init) + x;
      }
    }
  }

  /**
   * `GroupedEntryModel.init(entries:caption:)`: children and caption are stored
   * unchanged; the value is 0 without children and otherwise their mean.
   */
  function MakeGroupedEntry(entries: seq<BarEntry>, caption: string): (g: GroupedEntry)
    ensures g.entries == entries && g.caption == caption
    ensures entries == [] ==> g.value == 0.0
    ensures entries != [] ==> g.value == Sum(BarValues(entries)) / (|entries| as real)
  {
    MeanFoldIsMean(BarValues(entries));
    GroupedEntry(entries, caption, MeanFold(BarValues(entries)))
  }

  /** Children valued 10, 20 and 30 aggregate to 20. */
  lemma GroupedExample(c: Color)
    ensures MakeGroupedEntry([BarEntry(10.0, c, "a"), BarEntry(20.0, c, "b"), BarEntry(30.0, c, "c")], "g").value == 20.0
  {
    var es := [BarEntry(10.0, c, "a"), BarEntry(20.0, c, "b"), BarEntry(30.0, c, "c")];
    assert BarValues(es) == [10.0, 20.0, 30.0];
    assert [10.0, 20.0, 30.0][..2] == [10.0, 20.0];
    assert [10.0, 20.0][..1] == [10.0];
    assert [10.0][..0] == [];
  }

  /** A single child gives an aggregate equal to its value. */
  lemma GroupedSingle(e: BarEntry, caption: string)
    ensures MakeGroupedEntry([e], caption).value == e.value
  {
    assert BarValues([e]) == [e.value];
    assert [e.value][..0] == [];
  }

  // ---------------------------------------------------------------- extremes

  /** `max()` over values: nil for an empty list, otherwise a largest element. */
  function MaxOf(xs: seq<real>): (r: Option<real>)
    ensures r.None? <==> xs == []
    ensures r.Some? ==> r.value in xs && forall x :: x in xs ==> x <= r.value
  {
    if xs == [] then None
    else
      assert forall x :: x in xs ==> x == xs[0] || x in xs[1..];
      match MaxOf(xs[1..])
      case None => Some(xs[0])
      case Some(m) => Some(if m > xs[0] then m else xs[0])
  }

  /** `min()` over values: nil for an empty list, otherwise a smallest element. */
  function MinOf(xs: seq<real>): (r: Option<real>)
    ensures r.None? <==> xs == []
    ensures r.Some? ==> r.value in xs && forall x :: x in xs ==> r.value <= x
  {
    if xs == [] then None
    else
      assert forall x :: x in xs ==> x == xs[0] || x in xs[1..];
      match MinOf(xs[1..])
      case None => Some(xs[0])
      case Some(m) => Some(if m < xs[0] then m else xs[0])
  }

  // ---------------------------------------------------------------- line entries

  /** A calendar day, counted from an arbitrary epoch. */
  type Day = int

  /** `LineChartEntryModel`: an integer value on a date. */
  datatype LineEntry = LineEntry(value: int, date: Day)

  /** `LineChartEntryModel.<`: the earlier date comes first. */
  predicate LineLess(a: LineEntry, b: LineEntry) {
    a.date < b.date
  }

  /** `LineChartEntryModel.==`: both dates fall on the same calendar day; values play no part. */
  predicate SameDay(a: LineEntry, b: LineEntry)
    ensures SameDay(a, b) ==> LineHashKey(a) == LineHashKey(b)
  {
    a.date == b.date
  }

  /** What `hash(into:)` feeds the hasher: the date only. */
  function LineHashKey(e: LineEntry): Day {
    e.date
  }

  // ---------------------------------------------------------------- updateEntries input

  /** A list passed to `updateEntries(entries:animationDuration:)`, by the dynamic type of its elements. */
  datatype EntryList =
    | BarEntryList(bars: seq<BarEntry>)
    | GroupedEntryList(groups: seq<GroupedEntry>)
    | RangeEntryList(ranges: seq<RangeEntry>)
    | BaseEntryList(bases: seq<BaseEntry>)

  /** The number of elements of the list. */
  function Count(l: EntryList): nat {
    match l
    case BarEntryList(es) => |es|
    case GroupedEntryList(es) => |es|
    case RangeEntryList(es) => |es|
    case BaseEntryList(es) => |es|
  }

  /** `entries as? [BarEntryModel]`: succeeds on a list of bar entries, and on any empty list. */
  function AsBarEntries(l: EntryList): (r: Option<seq<BarEntry>>)
    ensures r.Some? <==> l.BarEntryList? || Count(l) == 0
    ensures r.Some? ==> |r.value| == Count(l) && (l.BarEntryList? ==> r.value == l.bars)
  {
    if l.BarEntryList? then Some(l.bars) else if Count(l) == 0 then Some([]) else None
  }

  /** `entries as? [GroupedEntryModel]`: succeeds on a list of grouped entries, and on any empty list. */
  function AsGroupedEntries(l: EntryList): (r: Option<seq<GroupedEntry>>)
    ensures r.Some? <==> l.GroupedEntryList? || Count(l) == 0
    ensures r.Some? ==> |r.value| == Count(l) && (l.GroupedEntryList? ==> r.value == l.groups)
  {
    if l.GroupedEntryList? then Some(l.groups) else if Count(l) == 0 then Some([]) else None
  }

  /** `entries as? [RangeBarEntryModel]`: succeeds on a list of range entries, and on any empty list. */
  function AsRangeEntries(l: EntryList): (r: Option<seq<RangeEntry>>)
    ensures r.Some? <==> l.RangeEntryList? || Count(l) == 0
    ensures r.Some? ==> |r.value| == Count(l) && (l.RangeEntryList? ==> r.value == l.ranges)
  {
    if l.RangeEntryList? then Some(l.ranges) else if Count(l) == 0 then Some([]) else None
  }
}
