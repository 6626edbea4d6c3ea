# SimpleCharts, modelled in Dafny

SimpleCharts is a UIKit chart library. It draws bar charts, grouped bar charts, range (min/max) bar charts and a seven-day line chart, and it has a legend layer. This project models the library's deterministic core, apart from UIKit and Core Animation:

- the layout, scaling and bookkeeping that decide how many bars exist, where each one is drawn, how tall it is, and how it animates and is selected;
- the proofs of what that arithmetic and bookkeeping promise.

Screen quantities (`CGFloat`, `Double`) are exact `real`s. Dates are whole day numbers. Text widths, view sizes, the current time and the result of hit-testing are parameters.

Modules follow the source files:

| module | file | models |
|---|---|---|
| `Wrappers` | `wrappers.dfy` | `Option`, the result of every lookup that can fail |
| `Extensions` | `extensions.dfy` | the bounds-checked subscript `[safe:]`, the zero-safe division `&/`, `Int(_:)` truncation |
| `Geometry` | `geometry.dfy` | points, sizes, rectangles, edge insets, colours with alpha |
| `Entries` | `entries.dfy` | base, bar, range, grouped and line entries; their ordering and equality; the running-mean fold; the casts done by `updateEntries` |
| `ChartOptions` | `chart_options.dfy` | `setChartOptions`, `setBarChartOptions` and `setGroupBarChartOptions` as last-write-wins updates |
| `Arith` | `arith.dfy` | small facts about real and integer arithmetic used by the proofs |
| `Scale` | `scale.dfy` | the engine of `BaseChartView`: effective entry counts, spacing, value-to-y mapping, x positions, x-axis label thinning, grid ticks, the average line and the layout of the frames |
| `BarScale` | `bar_scale.dfy` | the bar geometry of `BaseBarChartView`: bar width, slot positions, content size, axis label slots |
| `Layers` | `layers.dfy` | `Bar`, `GroupBar` and `RangeBar` identity; the `BarLayer` and `BarContainer` classes with their animation choice, selection state and frames |
| `BarList` | `bar_list.dfy` | what the three charts share about a list of bars: presenting each bar against the old bar at its index, exclusive selection on touch, placing every bar |
| `ChartCore` | `chart_core.dfy` | the `ChartView` class holding the state `BaseChartView` keeps |
| `BarCharts` | `bar_chart.dfy` | `BarChartView`: visible bars plus placeholder bars up to `minEntryCount` |
| `GroupedCharts` | `grouped_chart.dfy` | `GroupedBarChartView`: flattened groups, running bar ids and group ids, group-aware x positions and labels |
| `RangeCharts` | `range_chart.dfy` | `RangeBarChartView`: one minimum bar and one maximum bar per range, sharing one id |
| `Legends` | `legend.dfy` | the column and row arithmetic of `LegendLayer` |
| `LineCharts` | `line_chart.dfy` | `LineChartView`: sort by date, keep seven, pad at the front, then the column x and y positions and the drawing |

The Swift class hierarchy (`BaseChartView`, `BaseBarChartView`, the three bar charts) becomes composition. `ChartCore.ChartView` holds the shared stored state. Each concrete chart class owns one `ChartView` and keeps its own bars. The layout formulas read a value snapshot of that state, `Scale.Metrics`.

Methods that change state do what the Swift setters and observers do, in the same order. Each one states its new state in terms of the specification functions, and the lemmas prove what those functions promise. For example:

- `generateBars` yields exactly the bars of `BarSlots`, `GroupSlots` or `RangeSlots`;
- the `bars` observer presents bar `i` from old bar `i` only while entries are being updated;
- a touch leaves at most one bar selected.

The following source behaviours are kept as written:

- Placeholder bar ids start at `numberOfEntries`, not at `_maxEntries`.
- A range chart counts ranges as entries but keeps two base values per range.
- A grouped chart visits groups up to `_maxEntries`, a count of bars, so an empty group uses up a visit (`GroupedCharts.EmptyGroupHidesNext`).
- The line chart keeps the seven earliest points.
- The line chart's y scale reads the unsorted points and pins their minimum to mid-height.
- A bar entry is used as a base entry.
- The average line divides the sum of the base values by `numberOfEntries` (`Scale.AverageLine`; see Findings).

## Model

| member | source | states |
|---|---|---|
| `Extensions.SafeGet` | SimpleCharts/Extension/Array.swift:12-14 | `collection[safe: i]` is an element exactly when `i` is an index, and then the element at `i` |
| `Extensions.SafeGetEmpty` | SimpleCharts/Extension/Array.swift:12-14 | every index of an empty collection yields nil |
| `Extensions.SafeGetPrefix` | SimpleCharts/Extension/Array.swift:12-14 | a safe lookup inside a prefix gives the same element as in the whole list |
| `Extensions.SatDiv` | SimpleCharts/Extension/Double.swift:14-19 | `&/` gives 0 for a zero divisor, otherwise the quotient (quotient times divisor is the numerator) |
| `Extensions.SatDivZeroNumerator` | SimpleCharts/Extension/Double.swift:14-19 | `0 &/ d` is 0 for every divisor |
| `Extensions.SatDivMonotone` | SimpleCharts/Extension/Double.swift:14-19 | dividing by a positive number keeps the order of numerators |
| `Extensions.SatDivUnit` | SimpleCharts/Extension/Double.swift:14-19 | a numerator between 0 and a positive divisor gives a quotient between 0 and 1 |
| `Extensions.Truncate` | SimpleCharts/Charts/BaseChartView.swift:331 | `Int(x)` truncates toward zero: within 1 of `x`, on the side of 0 |
| `Entries.BaseEntry.WithValue` | SimpleCharts/Charts/Models/BaseEntryModel.swift:11-12 | assigning the mutable value keeps the immutable label |
| `Entries.OrderIsTotal` | SimpleCharts/Charts/Models/BaseEntryModel.swift:15-20 | exactly one of `a < b`, `a == b`, `b < a` holds, all by value |
| `Entries.SameIgnoresLabel` | SimpleCharts/Charts/Models/BaseEntryModel.swift:18-20 | changing the label leaves an entry equal to, and not less than, itself |
| `Entries.BarEntry.AsBase` | SimpleCharts/Charts/Models/BarEntryModel.swift:11-14 | a bar entry stands for the base entry with its value and label |
| `Entries.BarEntry.WithValue` | SimpleCharts/Charts/Models/BarEntryModel.swift:12-14 | assigning the value keeps colour and label |
| `Entries.BarOrderAgreesWithBase` | SimpleCharts/Charts/Models/BarEntryModel.swift:16-21 | `<` and `==` of bar entries agree with those of their base entries |
| `Entries.BarBases` | SimpleCharts/Charts/BarChart/BarChartView.swift:18-23 | the base entries of bar entries, one per entry, in order |
| `Entries.RangeEntry.AsBase` | SimpleCharts/Charts/Models/RangeEntryModel.swift:15-19 | a range entry is a base entry with its value and label |
| `Entries.RangeOrderIgnoresBounds` | SimpleCharts/Charts/Models/RangeEntryModel.swift:10-20 | changing min and max never changes how a range entry compares |
| `Entries.GroupedEntry.AsBase` | SimpleCharts/Charts/Models/GroupedEntryModel.swift:13-16 | a grouped entry is a base entry with its aggregate value and label |
| `Entries.MeanFold` | SimpleCharts/Charts/Models/GroupedEntryModel.swift:14 | the incremental-mean fold; stated by `MeanFoldIsMean` |
| `Entries.MeanFoldIsMean` | SimpleCharts/Charts/Models/GroupedEntryModel.swift:14 | over exact reals the incremental-mean fold times the count is the sum |
| `Entries.MakeGroupedEntry` | SimpleCharts/Charts/Models/GroupedEntryModel.swift:13-17 | children and label are kept; the value is 0 without children and their mean otherwise |
| `Entries.GroupedExample` | SimpleCharts/Charts/Models/GroupedEntryModel.swift:14 | children 10, 20 and 30 aggregate to 20 |
| `Entries.GroupedSingle` | SimpleCharts/Charts/Models/GroupedEntryModel.swift:14 | a single child's value is the aggregate |
| `Entries.Values` | SimpleCharts/Charts/BaseChartView.swift:232 | the values of the entries, one per entry and in order, from which `max()?.value` and `min()?.value` are taken |
| `Entries.MaxOf` | SimpleCharts/Charts/BaseChartView.swift:232 | `max()` is nil exactly for an empty list, otherwise an element no smaller than any other |
| `Entries.MinOf` | SimpleCharts/Charts/BaseChartView.swift:232 | `min()` is nil exactly for an empty list, otherwise an element no larger than any other |
| `Entries.SameDay` | SimpleCharts/Charts/Models/LineChartEntryModel.swift:15-24 | entries equal by day have the same hash key (the date) |
| `Entries.AsBarEntries` | SimpleCharts/Charts/BarChart/BarChartView.swift:51-53 | the cast to bar entries succeeds exactly on bar entry lists and empty lists, keeping the elements |
| `Entries.AsGroupedEntries` | SimpleCharts/Charts/BarChart/GroupedBarChartView.swift:65-68 | the cast to grouped entries succeeds exactly on grouped lists and empty lists, keeping the elements |
| `Entries.AsRangeEntries` | SimpleCharts/Charts/BarChart/RangeBarChartView.swift:81-84 | the cast to range entries succeeds exactly on range lists and empty lists, keeping the elements |
| `Geometry.WithAlpha` | SimpleCharts/Charts/BarChart/Layer/BarLayer.swift:163 | `withAlphaComponent` keeps the colour and replaces its alpha |
| `Scale.MaxEntries` | SimpleCharts/Charts/BaseChartView.swift:88-90 | `_maxEntries` is the entry count, or `maxVisibleCount` when that is set and smaller |
| `Scale.MinEntries` | SimpleCharts/Charts/BaseChartView.swift:95-97 | `_minEntryCount` is `numberOfEntries`, or `minEntryCount` when that is set and larger |
| `Scale.Spacing` | SimpleCharts/Charts/BaseChartView.swift:103-105 | `spacing` is `minSpacing` when set, otherwise a `_maxEntries`-th of 20% of the container width |
| `Scale.SpacingSplitsContainer` | SimpleCharts/Charts/BaseChartView.swift:103-105 | without `minSpacing`, `_maxEntries` spacings add up to a fifth of the container width |
| `Scale.MaxValue` | SimpleCharts/Charts/BaseChartView.swift:232 | the largest base value is one of them and no smaller than any |
| `Scale.MinValue` | SimpleCharts/Charts/BaseChartView.swift:232 | the smallest base value is one of them and no larger than any |
| `Scale.YPosition` | SimpleCharts/Charts/BaseChartView.swift:231-248 | with no entries every value maps to the container height, and without range mode the value 0 sits at the container height; the other placements are the `YPosition*` lemmas below |
| `Scale.YPositionAtMin` | SimpleCharts/Charts/BaseChartView.swift:233-237 | in range mode the smallest value sits at 95% of the container height |
| `Scale.YPositionFlat` | SimpleCharts/Charts/BaseChartView.swift:233-237 | in range mode with all values equal, the zero range makes `&/` give 0 and every value sits at 95% of the height |
| `Scale.YPositionAtMax` | SimpleCharts/Charts/BaseChartView.swift:233-237 | in range mode the largest value sits at 1/11 of 95% of the height, leaving the 10% head room |
| `Scale.YPositionAtMaxPlain` | SimpleCharts/Charts/BaseChartView.swift:243-244 | without range mode a non-zero largest value reaches the top of the container |
| `Scale.YPositionMonotone` | SimpleCharts/Charts/BaseChartView.swift:233-237 | in range mode a larger value is never drawn lower |
| `Scale.YPositionInBand` | SimpleCharts/Charts/BaseChartView.swift:233-237 | in range mode a value between the extremes lands between the head room and 95% of the height |
| `Scale.BaseSlots` | SimpleCharts/Charts/BaseChartView.swift:252-255 | the slot count is `numberOfEntries`, raised to `minEntryCount` when that is larger |
| `Scale.BaseXPosition` | SimpleCharts/Charts/BaseChartView.swift:250-258 | `calculateXPos` puts index `i` at `i` slots of the width divided into the slot count, and at 0 without slots |
| `Scale.BaseXLabel` | SimpleCharts/Charts/BaseChartView.swift:268-270 | `getXLabel` is the label of the entry at the index, and nil outside the list |
| `Scale.MaxLabels` | SimpleCharts/Charts/BaseChartView.swift:282-284 | no widths means no label count |
| `Scale.LabelGap` | SimpleCharts/Charts/BaseChartView.swift:276-289 | no labels when the axis is hidden or there are no entries, a gap of 1 without auto formatting, and never a gap below 1 |
| `Scale.XAxisStride` | SimpleCharts/Charts/BaseChartView.swift:274-290 | the guards and the gap computation of `addXAxis` |
| `Scale.XAxisLabels` | SimpleCharts/Charts/BaseChartView.swift:292-304 | the stride loop labels exactly the indices of `ExpectedLabels` |
| `Scale.ExpectedLabels` | SimpleCharts/Charts/BaseChartView.swift:274-302 | specification of `addXAxis`: no labels where `LabelGap` gives none, otherwise the stride labels from index 0; `XAxisLabels` is proved to produce it |
| `Scale.StrideLabels` | SimpleCharts/Charts/BaseChartView.swift:292-302 | specification of the `stride(from:to:by:)` loop from an index; its properties are the `StrideLabels*` lemmas below |
| `Scale.StrideLabelsOnStride` | SimpleCharts/Charts/BaseChartView.swift:292-302 | every label sits at a multiple of the gap below the entry count, on an entry, with the chart's text |
| `Scale.StrideLabelsIncreasing` | SimpleCharts/Charts/BaseChartView.swift:292 | labels come in increasing index order |
| `Scale.StrideLabelsComplete` | SimpleCharts/Charts/BaseChartView.swift:292-302 | every stride index that has an entry and a text is labelled |
| `Scale.StrideLabelsCount` | SimpleCharts/Charts/BaseChartView.swift:292 | the labels span at least a gap per label after the first |
| `Scale.LabelsFit` | SimpleCharts/Charts/BaseChartView.swift:282-292 | with auto formatting no more labels are drawn than fit next to each other |
| `Scale.GridFractions` | SimpleCharts/Charts/BaseChartView.swift:313-322 | three grid lines (top, middle, bottom) for at least 3 entries that are not all equal, otherwise two |
| `Scale.Ceil` | SimpleCharts/Charts/BaseChartView.swift:325 | `ceil` is the least integer not below its argument |
| `Scale.TickValue` | SimpleCharts/Charts/BaseChartView.swift:323-331 | the exact value at a grid fraction: 95% of the smallest value plus `1 - fraction` of the ceiled span from there up to 110% of the largest value |
| `Scale.GridTicks` | SimpleCharts/Charts/BaseChartView.swift:307-355 | no ticks without entries or with the y axis hidden; otherwise one tick per grid fraction, at that fraction of the height, with its printed value and the line switch |
| `Scale.TickLabel` | SimpleCharts/Charts/BaseChartView.swift:323-331 | the printed integer, the sum of two truncations, lies within 2 of the tick's exact value |
| `Scale.BottomTickLabel` | SimpleCharts/Charts/BaseChartView.swift:323-331 | the bottom tick prints the truncated bottom of the scale, 95% of the smallest value |
| `Scale.Average` | SimpleCharts/Charts/BaseChartView.swift:360-361 | the mean of the base values, the evidently intended average: its product with their number is their sum (the corrected half of the average finding) |
| `Scale.AverageInRange` | SimpleCharts/Charts/BaseChartView.swift:360-364 | the mean lies between the smallest and the largest value |
| `Scale.AverageAsWritten` | SimpleCharts/Charts/BaseChartView.swift:360-361 | the average as written: its product with `numberOfEntries` is the sum of all base values |
| `Scale.AverageAsWrittenIsMean` | SimpleCharts/Charts/BaseChartView.swift:360-361 | where the entry count is the number of base values (bar and grouped charts) the written average is the mean |
| `Scale.AverageAsWrittenOverflows` | SimpleCharts/Charts/BaseChartView.swift:360-361 | a range chart with one entry from 10 to 20 averages to 30, above every value |
| `Scale.AverageLine` | SimpleCharts/Charts/BaseChartView.swift:358-367 | the line exists exactly when it is switched on, there are base entries and `numberOfEntries` is positive; it marks the average as written, the sum over `numberOfEntries`, at that value's y, and starts at the y-axis column when that is shown |
| `Scale.AverageLineInBand` | SimpleCharts/Charts/BaseChartView.swift:358-367 | where `numberOfEntries` is the number of base values (bar and grouped charts) the line marks the mean, and in range mode it lies inside the data band |
| `Scale.AverageLineAboveRangeChart` | SimpleCharts/Charts/BaseChartView.swift:358-364 | a range chart in range mode with one range from 10 to 20, 100 points high, draws its average line at y = -855/11, above the container |
| `Scale.ComputeLayout` | SimpleCharts/Charts/BaseChartView.swift:195-217 | the container starts right of the y labels, is exactly as wide as the larger of the content and the view less the label column; the x axis sits right below it and the grid spans it plus the average room |
| `Scale.SumBounds` | SimpleCharts/Charts/BaseChartView.swift:360 | values between `lo` and `hi` sum to between count times `lo` and count times `hi` |
| `Scale.MeanInRange` | SimpleCharts/Charts/BaseChartView.swift:360-361 | a value whose product with the count is the sum lies between any bounds of the values |
| `BarScale.BarWidth` | SimpleCharts/Charts/BarChart/BaseBarChartView.swift:24-27 | `barWidth` is `minBarWidth` when set, otherwise bar plus spacing times `_minEntryCount` is the view width |
| `BarScale.BarWidthFillsView` | SimpleCharts/Charts/BarChart/BaseBarChartView.swift:24-27 | without `minBarWidth` the `_minEntryCount` slots fill the view width |
| `BarScale.BarX` | SimpleCharts/Charts/BarChart/BaseBarChartView.swift:48-50 | `calculateXPos(for:)`: bar `i` starts `i` pitches (bar plus spacing) in; its spacing is stated by `BarsSpacedEvenly` |
| `BarScale.UsedBarWidth` | SimpleCharts/Charts/BarChart/BaseBarChartView.swift:24-27 | `barWidth` where it is finite and 0 where Swift's value is not; the generators read it |
| `BarScale.UsedBarX` | SimpleCharts/Charts/BarChart/BaseBarChartView.swift:48-50 | the bar position where the bar geometry is finite and 0 where it is not; the generators read it |
| `BarScale.BarsSpacedEvenly` | SimpleCharts/Charts/BarChart/BaseBarChartView.swift:48-50 | consecutive bars are exactly one spacing apart |
| `BarScale.ContentSize` | SimpleCharts/Charts/BarChart/BaseBarChartView.swift:52-56 | the content is as tall as the view and as wide as the bars with the spacings between them, 0 where Swift's width is not a number |
| `BarScale.ContentEndsAtLastBar` | SimpleCharts/Charts/BarChart/BaseBarChartView.swift:52-56 | the content width ends at the right edge of the last bar |
| `BarScale.DefaultBarsFillView` | SimpleCharts/Charts/BarChart/BaseBarChartView.swift:24-56 | with neither `minBarWidth` nor `minEntryCount`, the bars span the view width less one spacing |
| `BarScale.AxisLabelX` | SimpleCharts/Charts/BarChart/BaseBarChartView.swift:58-60 | a label slot starts half a spacing left of its bar; stated by `LabelCentredUnderBar` and `LabelSlotsTile` |
| `BarScale.AxisLabelWidth` | SimpleCharts/Charts/BarChart/BaseBarChartView.swift:62-64 | a label slot is one pitch wide; stated by `LabelCentredUnderBar` and `LabelSlotsTile` |
| `BarScale.LabelCentredUnderBar` | SimpleCharts/Charts/BarChart/BaseBarChartView.swift:58-64 | each x-axis label is centred under its bar |
| `BarScale.LabelSlotsTile` | SimpleCharts/Charts/BarChart/BaseBarChartView.swift:58-64 | consecutive label slots touch without gap or overlap |
| `BarScale.SlotFrame` | SimpleCharts/Charts/BarChart/BarChartView.swift:103 | a bar's container spans the container height at the bar's x and width |
| `BarScale.SlotFramesSpaced` | SimpleCharts/Charts/BarChart/BarChartView.swift:100-103 | consecutive bar containers are one spacing apart |
| `ChartCore.ChartView.Snapshot` | SimpleCharts/Charts/BaseChartView.swift:80-105 | the values the layout formulas read are the chart's current options, entries, view size and container frame |
| `ChartCore.ChartView.constructor` | SimpleCharts/Charts/BaseChartView.swift:44-152 | a new chart has the default options, no entries and is not updating |
| `ChartCore.ChartView.SetChartOptions` | SimpleCharts/Charts/BaseChartView.swift:405-455 | the options are applied in order and nothing else changes |
| `ChartCore.ChartView.SetBarChartOptions` | SimpleCharts/Charts/BarChart/BaseBarChartView.swift:68-83 | the chart options, then the bar options, are applied in order and nothing else changes |
| `ChartCore.ChartView.SetBaseEntries` | SimpleCharts/Charts/BaseChartView.swift:141 | storing the base entries changes nothing else |
| `ChartCore.ChartView.SetUpdating` | SimpleCharts/Charts/BaseChartView.swift:152 | setting `updatingEntries` changes nothing else |
| `ChartCore.ChartView.SetAnimationDuration` | SimpleCharts/Charts/BaseChartView.swift:39-44 | after storing the duration the chart animates exactly when it is positive |
| `ChartCore.ChartView.LayoutSublayers` | SimpleCharts/Charts/BaseChartView.swift:195-217 | the frames become `ComputeLayout` of the content size and nothing else changes |
| `ChartOptions.SettingsExtensionality` | SimpleCharts/Charts/BaseChartView.swift:10-33 | the properties the options can write describe the chart state completely |
| `ChartOptions.Apply` | SimpleCharts/Charts/BaseChartView.swift:407-453 | one arm of the option switch; stated by `ApplyFrame` |
| `ChartOptions.ApplyAll` | SimpleCharts/Charts/BaseChartView.swift:405-455 | the option loop; stated by `ApplyAllFields`, `LastOptionWins` and `ApplyAllIdempotent` |
| `ChartOptions.ApplyFrame` | SimpleCharts/Charts/BaseChartView.swift:407-453 | one arm of the option switch writes exactly the properties of its option and keeps every other |
| `ChartOptions.ApplyAllFields` | SimpleCharts/Charts/BaseChartView.swift:405-455 | after the option loop each property holds its last written value, or its old one |
| `ChartOptions.UnmentionedUnchanged` | SimpleCharts/Charts/BaseChartView.swift:405-455 | a property no option in the list names keeps its value |
| `ChartOptions.NoWriteWithoutMention` | SimpleCharts/Charts/BaseChartView.swift:405-455 | a property no option names has no last write |
| `ChartOptions.LastOptionWins` | SimpleCharts/Charts/BaseChartView.swift:405-455 | the last option naming a property decides its value, whatever came before |
| `ChartOptions.LastWriteIsLastMention` | SimpleCharts/Charts/BaseChartView.swift:405-455 | the last write of a property is the write of the last option that names it |
| `ChartOptions.ApplyAllIdempotent` | SimpleCharts/Charts/BaseChartView.swift:405-455 | applying the same option list twice gives the same chart state as applying it once |
| `ChartOptions.AnimatedFollowsDuration` | SimpleCharts/Charts/BaseChartView.swift:39-41 | after an `animationDuration` option the chart animates exactly when the duration is positive |
| `ChartOptions.ApplyBar` | SimpleCharts/Charts/BarChart/BaseBarChartView.swift:70-81 | one arm of the bar-option switch sets exactly its own property |
| `ChartOptions.ApplyBarAll` | SimpleCharts/Charts/BarChart/BaseBarChartView.swift:68-83 | a bar property no option names keeps its value |
| `ChartOptions.ApplyBarAllConcat` | SimpleCharts/Charts/BarChart/BaseBarChartView.swift:68-83 | applying two option lists one after the other is applying their concatenation |
| `ChartOptions.LastBarOptionWins` | SimpleCharts/Charts/BarChart/BaseBarChartView.swift:68-83 | the last bar option decides the property it names |
| `ChartOptions.GroupBarOptions` | SimpleCharts/Charts/BarChart/GroupedBarChartView.swift:170-175 | no options give no bar options, a single `barchartOptions` gives its list and a single `groupSpacing` none; with `GroupBarOptionsConcat`, the bar options of every `barchartOptions` in order |
| `ChartOptions.GroupBarOptionsConcat` | SimpleCharts/Charts/BarChart/GroupedBarChartView.swift:169-177 | the bar options of two option lists in a row are those of the first followed by those of the second |
| `ChartOptions.LastGroupSpacing` | SimpleCharts/Charts/BarChart/GroupedBarChartView.swift:170-178 | the value of the last `groupSpacing` option, whatever `barchartOptions` follow it, and the current spacing when there is none |
| `BarCharts.Padding` | SimpleCharts/Charts/BarChart/BarChartView.swift:82-91 | placeholders are added exactly when `minEntryCount` is set and above `_maxEntries`, and then they make up the difference |
| `BarCharts.BarSlots` | SimpleCharts/Charts/BarChart/BarChartView.swift:73-93 | one slot per visible index with `entries[safe: i]` and id `i`, then placeholders without a model whose ids continue from `numberOfEntries` |
| `BarCharts.BarCount` | SimpleCharts/Charts/BarChart/BarChartView.swift:73-93 | `generateBars` yields `_maxEntries` bars, raised to `minEntryCount` when that is larger, and every visible bar carries its entry |
| `BarCharts.BarIdsDistinct` | SimpleCharts/Charts/BarChart/BarChartView.swift:76-90 | no two generated bars share an id (and so a hash) |
| `BarCharts.PlaceholderIdSkipsHiddenEntries` | SimpleCharts/Charts/BarChart/BarChartView.swift:88 | with hidden entries the first placeholder's id is the entry count, not the next visible index |
| `BarCharts.SlotColor` | SimpleCharts/Charts/BarChart/BarChartView.swift:98 | a bar takes its entry's colour, and clear without an entry |
| `BarCharts.SlotLayerFrame` | SimpleCharts/Charts/BarChart/BarChartView.swift:101-106 | the bar layer fills the slot's width and reaches from the value's y down to the bottom of the container |
| `BarCharts.TallestBarFillsContainer` | SimpleCharts/Charts/BarChart/BarChartView.swift:101-106 | without range mode the largest non-zero value fills the whole container |
| `BarCharts.BarChart.Metrics` | SimpleCharts/Charts/BaseChartView.swift:80-82 | a bar chart counts its base entries (`numberOfEntries` is `baseEntries.count`) |
| `BarCharts.BarChart.constructor` | SimpleCharts/Charts/BarChart/BarChartView.swift:44-46 | a new chart has no entries and no bars, and the default options |
| `BarCharts.BarChart.GenerateBar` | SimpleCharts/Charts/BarChart/BarChartView.swift:95-111 | a fresh bar with its data, colour, slot frame, bar height and entry |
| `BarCharts.BarChart.GenerateBars` | SimpleCharts/Charts/BarChart/BarChartView.swift:73-93 | the loops build one fresh, distinct bar per slot of `BarSlots`, each placed in its slot |
| `BarCharts.BarChart.GenerateNext` | SimpleCharts/Charts/BarChart/BarChartView.swift:77-79 | one loop turn appends a fresh bar for the next slot and keeps the bars built so far |
| `BarCharts.BarChart.AssignBaseEntries` | SimpleCharts/Charts/BaseChartView.swift:141-149 | assigning `baseEntries` re-lays the chart out exactly when the old list was non-empty and the count changed |
| `BarCharts.BarChart.SetEntries` | SimpleCharts/Charts/BarChart/BarChartView.swift:14-23 | setting `entries` stores them, makes them the base entries and shows the regenerated bars, each presented from the bar it replaces when updating; when a non-empty list is replaced by one of another length the frames are recomputed from the content size of the new base entries, otherwise they stay |
| `BarCharts.BarChart.AssignBars` | SimpleCharts/Charts/BarChart/BarChartView.swift:29-36 | the `bars` observer presents every bar, from the old bar at its index while entries are being updated |
| `BarCharts.BarChart.UpdateEntries` | SimpleCharts/Charts/BarChart/BarChartView.swift:50-59 | a list that is not bar entries changes nothing; otherwise the duration is stored, the entries become the base entries, the bar options and view size stay, the frames are recomputed exactly when the base-entry count changes from a non-zero one, and the entries are shown, each bar animated from its predecessor |
| `BarCharts.BarChart.EndUpdate` | SimpleCharts/Charts/BarChart/BarChartView.swift:58 | clearing `updatingEntries` changes nothing else: the snapshot, the frames and the bars stay |
| `BarCharts.BarChart.NotifyConstraintChanges` | SimpleCharts/Charts/BarChart/BarChartView.swift:61-71 | every bar is moved back into its slot with its height for its value, keeping its layer, selection and data |
| `BarCharts.BarChart.LayoutSublayers` | SimpleCharts/Charts/BaseChartView.swift:195-222 | the container frames come from the content size, then every bar is placed in its slot |
| `BarCharts.BarChart.TouchesBegan` | SimpleCharts/Charts/BarChart/BarChartView.swift:117-128 | with selection on and a bar touched, the touched bar toggles and every other bar is deselected, so at most one is selected, and `didSelectLayer` is raised exactly for the touched bar when it becomes selected holding an entry; otherwise nothing changes |
| `Layers.BarIdentityIsSlotId` | SimpleCharts/Charts/BarChart/Layer/Bar.swift:20-26 | two bars are equal exactly when their slot ids are, whatever their containers and entries, and equal bars hash equally |
| `Layers.SameBar` | SimpleCharts/Charts/BarChart/Layer/Bar.swift:24-26 | `==` on bars; stated by `BarIdentityIsSlotId` |
| `Layers.BarHash` | SimpleCharts/Charts/BarChart/Layer/Bar.swift:20-22 | `hash(into:)` on bars; stated by `BarIdentityIsSlotId` |
| `Layers.GroupBarHashConsistent` | SimpleCharts/Charts/BarChart/Layer/GroupBar.swift:20-26 | equal grouped bars hash equally, and two bars of one group with different slot ids are different |
| `Layers.SameGroupBar` | SimpleCharts/Charts/BarChart/Layer/GroupBar.swift:24-26 | `==` on grouped bars; stated by `GroupBarHashConsistent` |
| `Layers.GroupBarHash` | SimpleCharts/Charts/BarChart/Layer/GroupBar.swift:20-22 | `hash(into:)` on grouped bars; stated by `GroupBarHashConsistent` |
| `Layers.RangeBarIgnoresEnd` | SimpleCharts/Charts/BarChart/Layer/RangeBar.swift:24-30 | the minimum and maximum bars of one entry are equal range bars, and equal range bars hash equally |
| `Layers.SameRangeBar` | SimpleCharts/Charts/BarChart/Layer/RangeBar.swift:28-30 | `==` on range bars; stated by `RangeBarIgnoresEnd` |
| `Layers.RangeBarHash` | SimpleCharts/Charts/BarChart/Layer/RangeBar.swift:24-26 | `hash(into:)` on range bars; stated by `RangeBarIgnoresEnd` |
| `Layers.ChooseAction` | SimpleCharts/Charts/BarChart/Layer/BarLayer.swift:97-122 | no action while animation is disabled; a bounds animation exactly for the `boundsManaged` key, to the current bounds, from the old layer's bounds or the collapsed rectangle, with the layer's duration and delay |
| `Layers.NewBarGrowsFromBaseline` | SimpleCharts/Charts/BarChart/Layer/BarLayer.swift:104-112 | a bar with no old layer grows from a zero-height rectangle at its bottom-right corner |
| `Layers.Collapsed` | SimpleCharts/Charts/BarChart/Layer/BarLayer.swift:109 | the zero-height rect a new bar grows from; stated by `NewBarGrowsFromBaseline` |
| `Layers.CornerRadius` | SimpleCharts/Charts/BarChart/Layer/BarLayer.swift:80 | the corner radius is the smaller of half the height and the rounding |
| `Layers.SelectedColor` | SimpleCharts/Charts/BarChart/Layer/BarLayer.swift:162-164 | a selected bar keeps its paint at half opacity; an unselected one shows its colour |
| `Layers.BarLayer.constructor` | SimpleCharts/Charts/BarChart/Layer/BarLayer.swift:47-56 | a new bar layer holds the given width, colour, timing and rounding, with its background in its colour and animation enabled |
| `Layers.BarLayer.SetNeedsLayout` | SimpleCharts/Charts/BarChart/Layer/BarLayer.swift:77-82 | layout sets the corner radius to at most the rounding and half the height, and changes nothing else |
| `Layers.BarLayer.ActionFor` | SimpleCharts/Charts/BarChart/Layer/BarLayer.swift:97-122 | `action(forKey:)` on the layer's state; stated by `ChooseAction` |
| `Layers.BarLayer.WriteBoundsManaged` | SimpleCharts/Charts/BarChart/Layer/BarLayer.swift:43-122 | writing `boundsManaged` stores it and triggers the action `action(forKey:)` chooses for that key |
| `Layers.BarLayer.Present` | SimpleCharts/Charts/BarChart/Layer/BarLayer.swift:130-144 | `present` remembers the old layer and collapses the bar, animated only when asked, with animation enabled again afterwards |
| `Layers.BarLayer.AnimateSelected` | SimpleCharts/Charts/BarChart/Layer/BarLayer.swift:162-164 | the background becomes the selection colour and nothing else changes |
| `Layers.BarFrame` | SimpleCharts/Charts/BarChart/Layer/BarContainer.swift.swift:103-106 | the bar layer spans the container width and the height less `h`, ending at the bottom edge when growing from the bottom and starting at the top otherwise |
| `Layers.BarContainer.constructor` | SimpleCharts/Charts/BarChart/Layer/BarContainer.swift.swift:74-81 | a new container owns a fresh bar layer built from the given values and shows the container colour |
| `Layers.BarContainer.SetNeedsLayout` | SimpleCharts/Charts/BarChart/Layer/BarContainer.swift.swift:97-101 | layout rounds the corners by the rounding and clips, and changes nothing else |
| `Layers.BarContainer.SetSelected` | SimpleCharts/Charts/BarChart/Layer/BarContainer.swift.swift:42-52 | a change of `selected` recolours the bar layer; a selection event is sent exactly when an entry-holding bar becomes selected |
| `Layers.BarContainer.SetBarLayerHeight` | SimpleCharts/Charts/BarChart/Layer/BarContainer.swift.swift:103-107 | the bar layer gets the `BarFrame` of the container and the anchor of the direction, and nothing else about it changes |
| `Layers.BarContainer.Place` | SimpleCharts/Charts/BarChart/Layer/BarContainer.swift.swift:103-107 | the container takes the frame and its bar layer the matching `BarFrame` and anchor |
| `Layers.BarContainer.SourceLayer` | SimpleCharts/Charts/BarChart/Layer/BarContainer.swift.swift:117-121 | the old bar layer is the previous container's, or none without a previous container |
| `Layers.BarContainer.Present` | SimpleCharts/Charts/BarChart/Layer/BarContainer.swift.swift:111-122 | presenting a container presents its bar layer against the previous container's bar layer |
| `Layers.BarContainer.AnimationEvent` | SimpleCharts/Charts/BarChart/Layer/BarContainer.swift.swift:126-134 | an animation event is sent exactly when the container holds an entry, and names this container and entry |
| `BarList.WellFormedAppend` | SimpleCharts/Charts/BarChart/BarChartView.swift:73-80 | appending a bar with its own container and bar layer keeps the bar list well formed |
| `BarList.WellFormedConcat` | SimpleCharts/Charts/BarChart/BarChartView.swift:73-91 | two well-formed bar lists with disjoint containers concatenate to a well-formed list |
| `BarList.AnimationSource` | SimpleCharts/Charts/BarChart/BarChartView.swift:33 | a bar animates from the old bar at its index exactly while entries are updating and that old bar exists |
| `BarList.AsReference` | SimpleCharts/Charts/BarChart/BarChartView.swift:33 | a missing old bar becomes a nil old layer, and a present one its container |
| `BarList.PresentBars` | SimpleCharts/Charts/BarChart/BarChartView.swift:29-35 | after the `bars` observer every bar is presented from the old bar at its index (when updating) and keeps its frame, colours and anchor |
| `BarList.ToggleSelection` | SimpleCharts/Charts/BarChart/BarChartView.swift:121-127 | the touched bar flips its selection and every other bar is deselected, so at most one bar is selected; a selection event is raised exactly when the touched bar goes from unselected to selected holding an entry, and then names that bar and entry |
| `BarList.PlaceAll` | SimpleCharts/Charts/BarChart/BarChartView.swift:61-69 | each container takes its frame and its bar layer the matching bar frame and anchor, and nothing else about the bars changes |
| `GroupedCharts.ChildrenOfGroup` | SimpleCharts/Charts/BarChart/GroupedBarChartView.swift:21 | the `j`-th bar entry of group `g` sits in the flattened list right after the entries of the earlier groups |
| `GroupedCharts.GroupSlots` | SimpleCharts/Charts/BarChart/GroupedBarChartView.swift:113-127 | the generation loop gives one slot per child entry, with consecutive ids from 0, a group index among the visited groups and that child's entry |
| `GroupedCharts.VisibleGroups` | SimpleCharts/Charts/BarChart/GroupedBarChartView.swift:117-118 | the loop visits the first `_maxEntries` groups, or all groups when there are fewer |
| `GroupedCharts.GroupSlotsStep` | SimpleCharts/Charts/BarChart/GroupedBarChartView.swift:117-124 | visiting one more group appends exactly its entries' slots and keeps the earlier ones |
| `GroupedCharts.GroupIdsOrdered` | SimpleCharts/Charts/BarChart/GroupedBarChartView.swift:117-124 | group indices never decrease along the generated bars |
| `GroupedCharts.GroupBlock` | SimpleCharts/Charts/BarChart/GroupedBarChartView.swift:117-124 | the bars of group `g` are exactly one contiguous block, holding that group's entries in order |
| `GroupedCharts.BlockBeforeEnd` | SimpleCharts/Charts/BarChart/GroupedBarChartView.swift:117-124 | a group's block ends no later than the entries of any later prefix of groups |
| `GroupedCharts.BarsOf` | SimpleCharts/Charts/BarChart/GroupedBarChartView.swift:41-46 | the bars of grouped bars, position by position |
| `GroupedCharts.BarsOfConcat` | SimpleCharts/Charts/BarChart/GroupedBarChartView.swift:41-46 | taking bars distributes over concatenation |
| `GroupedCharts.FindById` | SimpleCharts/Charts/BarChart/GroupedBarChartView.swift:160-162 | `first(where:)` on the slot id: the first position with that id, or none when no bar has it |
| `GroupedCharts.FindInGroup` | SimpleCharts/Charts/BarChart/GroupedBarChartView.swift:96 | `first(where:)` on the group id: the first bar of the group, or none when the group has no bars |
| `GroupedCharts.CountInGroup` | SimpleCharts/Charts/BarChart/GroupedBarChartView.swift:110 | the number of bars of a group is at most the number of bars |
| `GroupedCharts.GetGroup` | SimpleCharts/Charts/BarChart/GroupedBarChartView.swift:160-162 | `getGroup(for:)` is nil exactly when no bar has that slot id |
| `GroupedCharts.GroupedBarX` | SimpleCharts/Charts/BarChart/GroupedBarChartView.swift:138-140 | one spacing, the bar's pitch slot and one group spacing per earlier group; its spacing is stated by `GroupedBarsSpaced` |
| `GroupedCharts.GroupedBarsSpaced` | SimpleCharts/Charts/BarChart/GroupedBarChartView.swift:138-140 | bars of one group are one pitch apart, and the next group starts one group spacing further |
| `GroupedCharts.GroupedContentSize` | SimpleCharts/Charts/BarChart/GroupedBarChartView.swift:89-93 | the content is as tall as the view and as wide as the larger of all pitches plus all group spacings and the view less the label column |
| `GroupedCharts.UsedGroupedContentSize` | SimpleCharts/Charts/BarChart/GroupedBarChartView.swift:89-93 | the grouped content size where the bar geometry is finite, and width 0 where it is not (see Left out) |
| `GroupedCharts.FindGenerated` | SimpleCharts/Charts/BarChart/GroupedBarChartView.swift:160-162 | in a generated list the bar with slot id `i` is the bar at position `i`, and no bar has an id outside the list |
| `GroupedCharts.XPosition` | SimpleCharts/Charts/BarChart/GroupedBarChartView.swift:129-136 | the grouped x of the bar's group and index, -10000 for an id with no bar; stated by `XPositionOfGenerated` |
| `GroupedCharts.XPositionOfGenerated` | SimpleCharts/Charts/BarChart/GroupedBarChartView.swift:129-140 | a generated bar is placed by its own group and id; an id that no bar has goes to -10000 |
| `GroupedCharts.GetGroupOfGenerated` | SimpleCharts/Charts/BarChart/GroupedBarChartView.swift:160-162 | the group found for a generated bar's id is the group it was generated for |
| `GroupedCharts.FirstOfGroup` | SimpleCharts/Charts/BarChart/GroupedBarChartView.swift:96 | the first bar of a non-empty group is the one right after the earlier groups' entries |
| `GroupedCharts.FindInGroupAt` | SimpleCharts/Charts/BarChart/GroupedBarChartView.swift:96 | a bar of the group with none of the group before it is the one `first(where:)` finds |
| `GroupedCharts.AxisX` | SimpleCharts/Charts/BarChart/GroupedBarChartView.swift:95-103 | the x of the first bar of the index's group, -100 when there is none; stated by `AxisXOfFound` |
| `GroupedCharts.AxisXOfFound` | SimpleCharts/Charts/BarChart/GroupedBarChartView.swift:95-103 | a group's x-axis label sits at the x position of the group's first bar |
| `GroupedCharts.FirstBarOfChild` | SimpleCharts/Charts/BarChart/GroupedBarChartView.swift:95-103 | for every entry of a visible group the label lookup finds that group and its first bar |
| `GroupedCharts.InGroupBlock` | SimpleCharts/Charts/BarChart/GroupedBarChartView.swift:117-124 | each visible child entry's bar carries its group |
| `GroupedCharts.CountInGroupRange` | SimpleCharts/Charts/BarChart/GroupedBarChartView.swift:110 | when a group's bars form the block `lo..hi`, counting up to `n` gives the part of the block below `n` |
| `GroupedCharts.LabelWidth` | SimpleCharts/Charts/BarChart/GroupedBarChartView.swift:105-111 | the group's bar count times the pitch, the plain slot width without a group; stated by `LabelWidthOfFound` |
| `GroupedCharts.LabelWidthOfFound` | SimpleCharts/Charts/BarChart/GroupedBarChartView.swift:105-111 | a label under a group is as wide as the group's bars with their spacings |
| `GroupedCharts.BlockInRange` | SimpleCharts/Charts/BarChart/GroupedBarChartView.swift:113-127 | a visible group's bars are exactly the block after the earlier groups' entries |
| `GroupedCharts.BarsFitContent` | SimpleCharts/Charts/BarChart/GroupedBarChartView.swift:89-93 | every generated bar ends inside the content width |
| `GroupedCharts.SlotWithin` | SimpleCharts/Charts/BarChart/GroupedBarChartView.swift:113-127 | every generated slot is a child entry of some group |
| `GroupedCharts.ChildrenLength` | SimpleCharts/Charts/BarChart/GroupedBarChartView.swift:21 | the entries of a prefix of groups are no more than all entries |
| `GroupedCharts.ChildrenAtLeastGroups` | SimpleCharts/Charts/BarChart/GroupedBarChartView.swift:21 | with no empty group there are at least as many entries as groups |
| `GroupedCharts.EveryGroupVisible` | SimpleCharts/Charts/BarChart/GroupedBarChartView.swift:117-118 | without `maxVisibleCount` and with no empty group, every group is visited and there is one bar per base entry |
| `GroupedCharts.EmptyGroupHidesNext` | SimpleCharts/Charts/BarChart/GroupedBarChartView.swift:117-118 | an empty group uses up a visit: groups `[], [e]` give `_maxEntries` 1 and no bar at all |
| `GroupedCharts.GroupedSlotFrame` | SimpleCharts/Charts/BarChart/GroupedBarChartView.swift:150 | a bar container spans the container height at the bar width and the group-aware x |
| `GroupedCharts.NotifiedFrame` | SimpleCharts/Charts/BarChart/GroupedBarChartView.swift:78-81 | a relaid container spans the container height at the bar width, at -10000 when its id is not found |
| `GroupedCharts.NotifiedFrameOfGenerated` | SimpleCharts/Charts/BarChart/GroupedBarChartView.swift:76-84 | relaying a generated bar puts it back where generation placed it |
| `GroupedCharts.LayerFrameFor` | SimpleCharts/Charts/BarChart/GroupedBarChartView.swift:148-153 | the bar layer starts at the value's y position and reaches the bottom of the container |
| `GroupedCharts.GroupedChart.Metrics` | SimpleCharts/Charts/BaseChartView.swift:80-90 | the layout formulas read the chart's base entries and their count |
| `GroupedCharts.GroupedChart.constructor` | SimpleCharts/Charts/BarChart/GroupedBarChartView.swift:35-57 | a new grouped chart has no entries, no bars, the default options and a group spacing of 10 |
| `GroupedCharts.GroupedChart.GenerateBar` | SimpleCharts/Charts/BarChart/GroupedBarChartView.swift:142-158 | a generated bar is a fresh container holding the slot's entry and id, framed and filled for its group and value |
| `GroupedCharts.GroupedChart.GenerateGroup` | SimpleCharts/Charts/BarChart/GroupedBarChartView.swift:119-123 | the inner loop builds one fresh bar per entry of the group |
| `GroupedCharts.GroupedChart.GenerateNext` | SimpleCharts/Charts/BarChart/GroupedBarChartView.swift:120-121 | appending one bar keeps the earlier ones and the list well formed |
| `GroupedCharts.GroupedChart.AppendGroup` | SimpleCharts/Charts/BarChart/GroupedBarChartView.swift:117-124 | one iteration of the outer loop extends the bars to the next group's slots |
| `GroupedCharts.GroupedChart.GenerateBars` | SimpleCharts/Charts/BarChart/GroupedBarChartView.swift:113-127 | `generateBars` builds exactly the bars of `GroupSlots` for the visited groups, all fresh and distinct |
| `GroupedCharts.GroupedChart.AssignBaseEntries` | SimpleCharts/Charts/BarChart/GroupedBarChartView.swift:22-25 | storing the flattened entries relays the chart when the count changes and leaves the rest alone |
| `GroupedCharts.GroupedChart.AssignChildren` | SimpleCharts/Charts/BarChart/GroupedBarChartView.swift:21-25 | the base entries become the flattened child entries, and the chart is always laid out again with the grouped content size of the snapshot the base-entry observer left (`GroupedCharts.ObservedMetrics`) |
| `GroupedCharts.GroupedChart.SetEntries` | SimpleCharts/Charts/BarChart/GroupedBarChartView.swift:19-32 | setting entries flattens them into the base entries and shows exactly the generated bars, each presented from the old bar at its index; the frames are those of a layout with the grouped content size of the new entries |
| `GroupedCharts.GroupedChart.Regenerate` | SimpleCharts/Charts/BarChart/GroupedBarChartView.swift:27-29 | the bars are regenerated from the current entries and presented |
| `GroupedCharts.GroupedChart.AssignGroupedBars` | SimpleCharts/Charts/BarChart/GroupedBarChartView.swift:41-47 | the `groupedBars` observer presents each bar from the old bar at its index |
| `GroupedCharts.GroupedChart.UpdateEntries` | SimpleCharts/Charts/BarChart/GroupedBarChartView.swift:65-74 | a list that is not grouped entries changes nothing; otherwise the duration is stored, the flattened children become the base entries, the bar options, group spacing and view size stay, the chart is laid out with the grouped content size of the new entries, and the new bars are presented as an update |
| `GroupedCharts.GroupedChart.EndUpdate` | SimpleCharts/Charts/BarChart/GroupedBarChartView.swift:73 | clearing `updatingEntries` keeps the snapshot, the frames and the bars as they are |
| `GroupedCharts.GroupedChart.NotifyConstraintChanges` | SimpleCharts/Charts/BarChart/GroupedBarChartView.swift:76-87 | every bar is placed at its group-aware frame and nothing else about it changes |
| `GroupedCharts.GroupedChart.LayoutSublayers` | SimpleCharts/Charts/BaseChartView.swift:195-222 | the frames follow the grouped content size and every bar is placed again |
| `GroupedCharts.GroupedChart.SetGroupBarChartOptions` | SimpleCharts/Charts/BarChart/GroupedBarChartView.swift:167-181 | the chart options, the nested bar options and the last group spacing are applied, and nothing else changes |
| `GroupedCharts.GroupedChart.TouchesBegan` | SimpleCharts/Charts/BarChart/GroupedBarChartView.swift:187-201 | without `markSelected` or a touched bar nothing changes; otherwise the touched bar flips, every other bar is deselected, and `didSelectLayer` is raised exactly for the touched bar when it becomes selected holding an entry |
| `RangeCharts.RangeBases` | SimpleCharts/Charts/BarChart/RangeBarChartView.swift:18-22 | the base entries are two per range entry, its minimum then its maximum, both under the entry's label |
| `RangeCharts.BuildBases` | SimpleCharts/Charts/BarChart/RangeBarChartView.swift:18-24 | the loop of the `entries` observer builds exactly `RangeBases` |
| `RangeCharts.RangeBasesAreEnds` | SimpleCharts/Charts/BarChart/RangeBarChartView.swift:18-22 | the base values are exactly the ends of the ranges, every end is among them and nothing else is |
| `RangeCharts.EndsOfEntry` | SimpleCharts/Charts/BarChart/RangeBarChartView.swift:19-22 | base values `2i` and `2i+1` are the minimum and maximum of entry `i` |
| `RangeCharts.EntryOfBase` | SimpleCharts/Charts/BarChart/RangeBarChartView.swift:19-22 | base value `k` is an end of entry `k/2` |
| `RangeCharts.VisibleEntries` | SimpleCharts/Charts/BarChart/RangeBarChartView.swift:36-37 | `_maxEntries` counts base entries, two per range, while the generator bounds range indices by it: without `maxVisibleCount` every range is drawn, and a `maxVisibleCount` of `v` draws `v` ranges, not `v / 2` |
| `RangeCharts.VisibleRanges` | SimpleCharts/Charts/BarChart/RangeBarChartView.swift:114-115 | the generation loop visits the first `_maxEntries` ranges, or all when there are fewer |
| `RangeCharts.RangeSlots` | SimpleCharts/Charts/BarChart/RangeBarChartView.swift:112-122 | the generated bars come in pairs, minimum then maximum, for each visited range, both with the range's index |
| `RangeCharts.RangeSlotsStep` | SimpleCharts/Charts/BarChart/RangeBarChartView.swift:114-119 | one more range appends its minimum and maximum and keeps the earlier bars |
| `RangeCharts.EndEntry` | SimpleCharts/Charts/BarChart/RangeBarChartView.swift:131-142 | a bar's entry carries the range's label and the value of its own end; the maximum keeps the range's colour and the minimum is faded to alpha 0.3 (`minBarAlphaValue`) |
| `RangeCharts.RangeFrame` | SimpleCharts/Charts/BarChart/RangeBarChartView.swift:135-146 | an end's container sits in the range's slot, a bar wide, from the y of the end to the y of the range's value |
| `RangeCharts.EndLayerFillsContainer` | SimpleCharts/Charts/BarChart/RangeBarChartView.swift:136-147 | with a top of 0 the bar layer fills its container whichever direction it grows in |
| `RangeCharts.EndsMeetAtValue` | SimpleCharts/Charts/BarChart/RangeBarChartView.swift:124-153 | for a value between the ends, the two containers share x and width, meet at the value's y, and together span from the maximum's y to the minimum's |
| `RangeCharts.EndsInBand` | SimpleCharts/Charts/BarChart/RangeBarChartView.swift:130-141 | both ends of every range lie inside the band of the range scale |
| `RangeCharts.RangeBarsOf` | SimpleCharts/Charts/BarChart/RangeBarChartView.swift:44-50 | the bars of range bars, position by position |
| `RangeCharts.RangeBarsOfConcat` | SimpleCharts/Charts/BarChart/RangeBarChartView.swift:44-50 | taking bars distributes over concatenation |
| `RangeCharts.FindById` | SimpleCharts/Charts/BarChart/RangeBarChartView.swift:157-159 | `first(where:)` on the slot id: the first position with that id, or none when no bar has it |
| `RangeCharts.FindInGroup` | SimpleCharts/Charts/BarChart/RangeBarChartView.swift:93 | `first(where:)` on the group id: the first bar of the group, or none when it has no bars |
| `RangeCharts.GetGroup` | SimpleCharts/Charts/BarChart/RangeBarChartView.swift:157-159 | `getGroup(for:)` is nil exactly when no bar has that id |
| `RangeCharts.FirstOfEntry` | SimpleCharts/Charts/BarChart/RangeBarChartView.swift:93-102 | the first bar with id `i`, and the first of group `i`, is the minimum bar of range `i` at position `2i` |
| `RangeCharts.XLabel` | SimpleCharts/Charts/BarChart/RangeBarChartView.swift:92-99 | the label of the first bar of the index's entry, nil when there is none; stated by `LabelsOfGenerated` |
| `RangeCharts.AxisX` | SimpleCharts/Charts/BarChart/RangeBarChartView.swift:101-109 | half a spacing left of the first bar of the index's entry, -100 when there is none; stated by `LabelsOfGenerated` |
| `RangeCharts.LabelsOfGenerated` | SimpleCharts/Charts/BarChart/RangeBarChartView.swift:92-109 | a drawn range's x label is its own label, centred half a spacing left of its slot; any other index has no label and sits at -100 |
| `RangeCharts.NotifiedFrame` | SimpleCharts/Charts/BarChart/RangeBarChartView.swift:64-78 | the frame a relayout gives a range bar, from its id, initial value and value; stated by `NotifiedFrameOfSlot` |
| `RangeCharts.NotifiedFrameOfSlot` | SimpleCharts/Charts/BarChart/RangeBarChartView.swift:64-78 | relaying an end bar puts its container back where generation placed it |
| `RangeCharts.RangeChart.Metrics` | SimpleCharts/Charts/BarChart/RangeBarChartView.swift:36-38 | the layout formulas count ranges as entries and read the two-per-range base entries |
| `RangeCharts.RangeChart.constructor` | SimpleCharts/Charts/BarChart/RangeBarChartView.swift:14-60 | a new range chart has no entries, no bars and the default options |
| `RangeCharts.RangeChart.GenerateEnd` | SimpleCharts/Charts/BarChart/RangeBarChartView.swift:124-153 | one end is a fresh container, built for its slot's end and framed between the end and the range's value |
| `RangeCharts.RangeChart.GenerateNext` | SimpleCharts/Charts/BarChart/RangeBarChartView.swift:116-118 | appending one end keeps the earlier bars and the list well formed |
| `RangeCharts.RangeChart.AppendPair` | SimpleCharts/Charts/BarChart/RangeBarChartView.swift:115-119 | one iteration appends the minimum and the maximum bar of the range |
| `RangeCharts.RangeChart.GenerateBars` | SimpleCharts/Charts/BarChart/RangeBarChartView.swift:112-122 | `generateBars` builds exactly the bars of `RangeSlots` for the visited ranges, all fresh and distinct |
| `RangeCharts.RangeChart.AssignBaseEntries` | SimpleCharts/Charts/BarChart/RangeBarChartView.swift:24 | storing the base entries relays the chart when the count changes and leaves the rest alone |
| `RangeCharts.RangeChart.SetEntries` | SimpleCharts/Charts/BarChart/RangeBarChartView.swift:14-28 | setting entries stores their ends as base entries and shows exactly the generated bars, each presented from the old bar at its index; when a non-empty list is replaced by one of another length the frames are recomputed, otherwise they stay |
| `RangeCharts.RangeChart.AssignRangeBars` | SimpleCharts/Charts/BarChart/RangeBarChartView.swift:44-51 | the `rangeBars` observer presents each bar from the old bar at its index |
| `RangeCharts.RangeChart.UpdateEntries` | SimpleCharts/Charts/BarChart/RangeBarChartView.swift:81-90 | a list that is not range entries changes nothing; otherwise the duration is stored, the range ends become the base entries, the bar options and view size stay, the frames are recomputed exactly when the base-entry count changes from a non-zero one, and the new bars are presented as an update |
| `RangeCharts.RangeChart.EndUpdate` | SimpleCharts/Charts/BarChart/RangeBarChartView.swift:89 | clearing `updatingEntries` keeps the snapshot, the frames and the bars as they are |
| `RangeCharts.RangeChart.NotifyConstraintChanges` | SimpleCharts/Charts/BarChart/RangeBarChartView.swift:64-79 | every end bar is placed again between its value and the range's value, and nothing else about it changes |
| `RangeCharts.RangeChart.LayoutSublayers` | SimpleCharts/Charts/BaseChartView.swift:195-222 | the frames follow the content size and every bar is placed again |
| `RangeCharts.RangeChart.TouchesBegan` | SimpleCharts/Charts/BarChart/RangeBarChartView.swift:164-178 | without `markSelected` or a touched bar nothing changes; otherwise the touched bar flips, every other bar is deselected, and `didSelectLayer` is raised exactly for the touched bar when it becomes selected holding an entry |
| `Legends.MaxLabelWidth` | SimpleCharts/Charts/BarChart/Layer/LegendLayer.swift:43-48 | the widest label width: no label is wider, it is 0 or one of the widths, and never negative |
| `Legends.LegendWidth` | SimpleCharts/Charts/BarChart/Layer/LegendLayer.swift:51-53 | an entry's cell is the circle, the label spacing, the widest label and the entry spacing, so every label fits in it |
| `Legends.EntriesPerRow` | SimpleCharts/Charts/BarChart/Layer/LegendLayer.swift:76-78 | `maxEntryPerRow` is the floor of the layer width over the cell width |
| `Legends.RowFits` | SimpleCharts/Charts/BarChart/Layer/LegendLayer.swift:76-78 | that many cells fit in the layer width and one more would not |
| `Legends.ColumnX` | SimpleCharts/Charts/BarChart/Layer/LegendLayer.swift:141 | `legendWidth * (index % maxEntryPerRow)`; stated by `EntryInsideWidth` |
| `Legends.RowNumber` | SimpleCharts/Charts/BarChart/Layer/LegendLayer.swift:148-154 | `getRowNumber` as written, the floor of `index + 1` cells over the layer width; stated by `RowsNonDecreasing` and `RowCollision` |
| `Legends.TotalRows` | SimpleCharts/Charts/BarChart/Layer/LegendLayer.swift:81-83 | `totalNumberOfRows`; stated by `TotalRowsIsLastRow` |
| `Legends.LayerHeight` | SimpleCharts/Charts/BarChart/Layer/LegendLayer.swift:134-138 | one row spacing per row plus one; stated by `EntriesInsideHeight` and `LegendFrame` |
| `Legends.EntryPoint` | SimpleCharts/Charts/BarChart/Layer/LegendLayer.swift:140-146 | `getPoint(at:)`: the column's x and `rowSpacing` times the row number; stated by `EntryInsideWidth`, `EntriesInsideHeight` and `RowCollision` |
| `Legends.LegendFrame` | SimpleCharts/Charts/BarChart/Layer/LegendLayer.swift:134-138 | the layer spans the superlayer's width, sits at its bottom and is as tall as its rows |
| `Legends.LabelFrame` | SimpleCharts/Charts/BarChart/Layer/LegendLayer.swift:155-159 | a label starts `labelSpacing` right of its circle, on the same line, as wide as its text |
| `Legends.EntryInsideWidth` | SimpleCharts/Charts/BarChart/Layer/LegendLayer.swift:140-141 | every entry's cell lies within the layer width |
| `Legends.RowsNonDecreasing` | SimpleCharts/Charts/BarChart/Layer/LegendLayer.swift:148-154 | a later entry never lands on an earlier row |
| `Legends.TotalRowsIsLastRow` | SimpleCharts/Charts/BarChart/Layer/LegendLayer.swift:81-83 | `totalNumberOfRows` is the row number of the last entry |
| `Legends.EntriesInsideHeight` | SimpleCharts/Charts/BarChart/Layer/LegendLayer.swift:134-150 | every entry's row lies inside the layer height |
| `Legends.RowCollision` | SimpleCharts/Charts/BarChart/Layer/LegendLayer.swift:140-154 | a 40-point cell on a 100-point layer puts entries 4 and 6 on the same point (0, 40) |
| `Legends.GridRow` | SimpleCharts/Charts/BarChart/Layer/LegendLayer.swift:141-144 | the corrected row is the quotient that goes with the column `index % maxEntryPerRow` |
| `Legends.GridPoint` | SimpleCharts/Charts/BarChart/Layer/LegendLayer.swift:140-146 | the corrected point keeps the column x and uses the corrected row |
| `Legends.GridPointsDistinct` | SimpleCharts/Charts/BarChart/Layer/LegendLayer.swift:140-146 | with the corrected rows no two entries share a point |
| `Legends.GridInsideLayer` | SimpleCharts/Charts/BarChart/Layer/LegendLayer.swift:134-146 | with the corrected rows every entry lies inside the layer's width and the corrected height |
| `Legends.FirstRowAgrees` | SimpleCharts/Charts/BarChart/Layer/LegendLayer.swift:140-154 | on the first row, short of its last cell, the written and the corrected point agree |
| `LineCharts.InsertByDate` | SimpleCharts/Charts/LineChart/LineChartView.swift:134 | inserting into a date-sorted list keeps it sorted, adds exactly the one entry and only changes the head to the new entry |
| `LineCharts.SortedCons` | SimpleCharts/Charts/LineChart/LineChartView.swift:134 | an entry no later than the head of a sorted list can go in front of it |
| `LineCharts.SortByDate` | SimpleCharts/Charts/LineChart/LineChartView.swift:134 | `sorted()` is a date-ordered permutation of the graph points |
| `LineCharts.Kept` | SimpleCharts/Charts/LineChart/LineChartView.swift:134 | `prefix(7)` keeps seven points, or all when there are fewer |
| `LineCharts.KeptAreEarliest` | SimpleCharts/Charts/LineChart/LineChartView.swift:134 | kept and dropped points together are the input, the kept points are sorted and none is later than a dropped one |
| `LineCharts.Padding` | SimpleCharts/Charts/LineChart/LineChartView.swift:137-143 | copies of the first value on the days before it; stated by `PaddingStep` |
| `LineCharts.PaddingStep` | SimpleCharts/Charts/LineChart/LineChartView.swift:137-143 | each loop turn puts one more day-earlier copy of the first value in front |
| `LineCharts.Week` | SimpleCharts/Charts/LineChart/LineChartView.swift:133-148 | the sorted, padded week; stated by `WeekLengthIsSeven`, `WeekShape`, `WeekSorted` and `WeekValuesFromInput` |
| `LineCharts.WeekLengthIsSeven` | SimpleCharts/Charts/LineChart/LineChartView.swift:133-147 | no points give an empty week; otherwise the week has exactly seven points |
| `LineCharts.WeekShape` | SimpleCharts/Charts/LineChart/LineChartView.swift:134-147 | the week ends with the kept points, and the padding in front repeats the first value on the consecutive days before the first date |
| `LineCharts.WeekSorted` | SimpleCharts/Charts/LineChart/LineChartView.swift:133-147 | the padded week is in date order |
| `LineCharts.WeekValuesFromInput` | SimpleCharts/Charts/LineChart/LineChartView.swift:134-142 | every value of the week is a value of the graph points |
| `LineCharts.ColumnX` | SimpleCharts/Charts/LineChart/LineChartView.swift:212-218 | `columnXPoint`; stated by `ColumnsSpan` |
| `LineCharts.ColumnsSpan` | SimpleCharts/Charts/LineChart/LineChartView.swift:212-218 | column 0 sits `margin + 2` from the left, column 6 as far from the right, and columns are evenly spaced |
| `LineCharts.LineValues` | SimpleCharts/Charts/LineChart/LineChartView.swift:189-191 | the values the y scale reads are those of all graph points, in order |
| `LineCharts.ScaledY` | SimpleCharts/Charts/LineChart/LineChartView.swift:201-206 | the y of a value scaled by the largest value; stated by `ScaledInBand` and `ScaledOrder` |
| `LineCharts.ColumnY` | SimpleCharts/Charts/LineChart/LineChartView.swift:185-207 | no points puts a value at the bottom border; the smallest value sits halfway between the borders |
| `LineCharts.ScaledInBand` | SimpleCharts/Charts/LineChart/LineChartView.swift:201-206 | a value between 0 and the largest lands between the borders, and the largest at the top border |
| `LineCharts.ScaledOrder` | SimpleCharts/Charts/LineChart/LineChartView.swift:201-206 | a larger value is drawn strictly higher |
| `LineCharts.ColumnYInBand` | SimpleCharts/Charts/LineChart/LineChartView.swift:185-207 | for non-negative values with a positive largest, every value lands between the borders and a largest that is not also the smallest sits at the top border |
| `LineCharts.ColumnYOrder` | SimpleCharts/Charts/LineChart/LineChartView.swift:193-206 | away from the smallest value, a larger value is drawn strictly higher |
| `LineCharts.WeekInBand` | SimpleCharts/Charts/LineChart/LineChartView.swift:185-207 | every point of the week, padding included, lands between the borders |
| `LineCharts.LineChart.constructor` | SimpleCharts/Charts/LineChart/LineChartView.swift:14-51 | a new line chart has no points and the margin 8, borders 15 and 20 and circle diameter 6 |
| `LineCharts.LineChart.SetGraphPoints` | SimpleCharts/Charts/LineChart/LineChartView.swift:14-18 | setting the graph points recomputes the sorted points as the padded week and changes nothing else |
| `LineCharts.LineChart.SetSortedGraphPoints` | SimpleCharts/Charts/LineChart/LineChartView.swift:133-148 | `setSortedGraphPoints` stores the padded week of the graph points |
| `LineCharts.LineChart.PadFront` | SimpleCharts/Charts/LineChart/LineChartView.swift:137-143 | the padding loop puts `diff` day-by-day earlier copies of the first value in front of the kept points |
| `LineCharts.LineChart.PlotPoint` | SimpleCharts/Charts/LineChart/LineChartView.swift:78-108 | the point `draw` plots for index `i`: its column and the y of its value; `Draw` is proved to visit exactly these |
| `LineCharts.LineChart.Draw` | SimpleCharts/Charts/LineChart/LineChartView.swift:69-126 | nothing is drawn without points; otherwise the path visits every sorted point at its column and y, seven grid lines run from the top border to the bottom border at the columns, and each point gets a circle of the set diameter centred on it |

## Left out

- UIKit and Core Animation plumbing is not modelled. This covers adding and removing sublayers, `layoutIfNeeded`, `setNeedsDisplay`, the scroll view, and text layers with their fonts. The model keeps only the frames and state those calls set.
- Drawing is left out: path stroking, fill colours, line widths, `lineAlpha`, and the legend's `draw(in:)`/`addLabel` loop. `LineCharts.LineChart.Draw` returns the geometry that would be stroked, not the strokes.
- Hit-testing (`layerFor`, `hitTest`, `touches.first`) is foreign. A touch arrives as the container already resolved, or none.
- Animation timing is foreign: `CACurrentMediaTime` is the parameter `now`, and `CABasicAnimation` interpolation and its delegate callbacks are not modelled. Only the from, to, duration and begin-time choice is kept.
- Delegate forwarding (`animationDidStart`, `animationDidStop`, `didSelectLayer`) is left out because it only passes values on. The model returns the event a container would forward (`Layers.BarContainer.SetSelected`, `Layers.BarContainer.AnimationEvent`).
- Text metrics (`widthOfString`, `sizeOfString`) are parameters. Colours are a paint number plus an alpha, and fonts are opaque.
- The y-axis formatter closure `yAxisFormatter` and `String(lineValue)` are left out. A grid tick carries the integer it prints.
- The calendar and date formatting are foreign: `setupLabels`, the weekday and "Today" labels, and `dateColumnXPoint`, which nothing calls.
- `minMaxspacing` is left out because the range chart never reads it.
- The range containers' `anchorPoint` is left out because it only moves where Core Animation scales from. The bar layers' anchors are modelled.
- `Bar.swift` and `BarLayerData.swift` in the chart folder are not part of this model. They are unused duplicates of the layer types.
- Swift `Int` overflow is not modelled, because entry counts and ids are unbounded integers.
- Swift traps become preconditions: a negative `maxVisibleCount` makes `0..<_maxEntries` trap, so the generators require `MaxEntries(m) >= 0`. In the legend, `index % maxEntryPerRow` traps when not one entry fits in a row, and `Int(floor(...))` traps on a quotient that is not finite, so the legend functions require a positive layer width and legend width and at least one entry per row. `layoutIfNeeded` force-unwraps the superlayer's height and width, so a legend layer with no superlayer traps; `Legends.LegendFrame` takes the superlayer's size as parameters and models only a legend that has one.
- `Scale.Spacing`: requires `minSpacing` or a non-zero `_maxEntries`, because otherwise Swift divides by zero and the spacing is not finite. Positions that depend on it are recorded as 0 in that case (`BarScale.UsedBarX`, `BarScale.UsedBarWidth`).
- `BarScale.BarWidth`: requires `minBarWidth` or a non-zero `_minEntryCount`, for the same reason. The generators use it only where it is finite and record 0 elsewhere.
- `BarScale.ContentSize`: the not-a-number width of an empty chart is recorded as 0, as the source's `isNaN` check does.
- `GroupedCharts.GroupedChart.LayoutSublayers`: an empty grouped chart has a not-a-number bar geometry. The grouped `computeContentSize` has no `isNaN` check, and `max` keeps a not-a-number first argument, so Swift's container width is not a number. The model records a content width of 0 (`GroupedCharts.UsedGroupedContentSize`) and lays the container out as wide as the view less the label column.
- `LineCharts.ColumnY`: with a largest value of 0 and a non-zero value, Swift's quotient is infinite and the y is not finite. The model records 0 there.
- `Scale.AverageLine`: a chart with base entries and a `numberOfEntries` of 0 would divide by zero; no chart reaches that state, and the model draws no line there.
- `LineCharts.SortByDate`: Swift's `sorted()` does not promise stability. The model is a stable insertion sort, so the order of points on the same day is one particular choice.
- `Entries.SameDay`: dates are whole days, so "same calendar day" is equality of day numbers and `<` compares day numbers.
- `LineCharts.LineChart.PadFront`: subtracting a day is assumed always to succeed, where Swift skips a day it cannot compute.
- `Layers.BarLayer.Present`: the non-animated path records the suppressed action and ends with animation enabled. The moment inside `withDisabledAnimation` when the flag is set is not observable in the model.

## Findings

| source | as written | input that shows it | evidently intended | confidence | as-written member | corrected member |
|---|---|---|---|---|---|---|
| SimpleCharts/Charts/BaseChartView.swift:360-361 | the average divides the sum of all base values by `numberOfEntries`; a range chart has two base values per entry but counts one entry each | one range entry from 10 to 20 averages to 30, above every value; in a 100-point chart in range mode the line is drawn at y = -855/11, above the container (`Scale.AverageLineAboveRangeChart`) | the mean of the base values, 15 | medium, not executed | `Scale.AverageAsWrittenOverflows` | `Scale.AverageInRange` |
| SimpleCharts/Charts/BarChart/Layer/LegendLayer.swift:140-154 | the row is `floor((i + 1) * legendWidth / width)` but the column is `i % maxEntryPerRow`, and the two disagree once a row has spare width | a 100-point layer with 40-point cells puts entries 4 and 6 both at (0, 40) | row `i / maxEntryPerRow`, so that every entry has its own cell | high, not executed | `Legends.RowCollision` | `Legends.GridPointsDistinct` |
