# Dashboard builder: the chart-specification layer in Dafny

This project models the in-memory layer of the dashboard builder. That layer
assembles Plotly chart specifications:

- **Trace records** are built by `TraceBuilder` and by the older `Trace` class of
  `DashboardMetaData`.
- **Layout records** are built by `LayoutBuilder` and `PlotLayout`.
- **The chart adapter** `PlotlyInterface` holds traces, a layout and a
  configuration.
- **The dashboard** is a title, two colours and an ordered list of slots. It is
  kept by `DashboardBuilder` and by `DashboardModel`.
- **The user files** are converted from column form to row form by
  `convertFilesToReadableFormat`.
- **The command-line menu** is `CommandLineModel`.
- **The local-storage half of `DatabaseApi`** stores resources under keys.

A JavaScript value is a `Js.Value`. An object is its ordered list of own
properties, because `Object.keys` order is observable in the row
conversion. In the model, assignment overwrites an existing key in place and
appends a new one last, and an object literal or a spread is a sequence of
such assignments. JavaScript itself lists array-index keys ("0", "1", ...)
first, in ascending order, before the other keys in creation order; the model
agrees with that only for objects whose index keys already come first and in
ascending order (see "## Left out").

Objects whose identity the code relies on are heap cells (`Js.JsObject`) or
Dafny classes. Examples are a trace shared between a builder and
`plotData`, or a dashboard slot found by `indexOf`. Nested records such as
`marker`, `xaxis` or `scene` are values.

A thrown exception is an `Err` of a `Result` or an `Abrupt` completion,
carrying a `TypeError` or a `ReferenceError`.

Defects in the code are modelled as written and stated as lemmas. Examples:

- the misspelt keys `shogrid`, `showgriid` and `showLegend`;
- `removePlot` keeps the slot at the index rather than removing it;
- the `DashboardMetaData` layout can never be constructed;
- the `LayoutBuilder` axis setters always throw.

## Model

| member | source | states |
|---|---|---|
| TraceOps.AxisKey | src/components/TraceBuilder.jsx:125-134 | the data key is `z` exactly for "z", `y` exactly for "y", and `x` for every other axis value |
| TraceOps.WithErrorBars | src/components/TraceBuilder.jsx:242-259 | a "y" direction stores the record under `error_y`, any other under `error_x`; nothing else changes |
| TraceOps.WithText | src/components/TraceBuilder.jsx:343-350 | text set, position "auto", info "none"; the inside orientation is "radial" for pie traces and empty for all others; nothing else changes |
| TraceOps.WithUnderlyingData | src/components/TraceBuilder.jsx:317-322 | all box points shown, jitter 0.3, point position -1.8; nothing else changes |
| TraceOps.UnderlyingDataIdempotent | src/components/TraceBuilder.jsx:317-322 | applying the underlying-data preset twice equals applying it once |
| TraceOps.WithDomain | src/components/TraceBuilder.jsx:288-294 | the domain becomes `{row, column}`; nothing else changes |
| TraceOps.WithOutlierDetection | src/components/TraceBuilder.jsx:300-311 | the marker gets the outlier colours and line; its other entries and the rest of the trace are kept |
| TraceOps.WithContours | src/components/TraceBuilder.jsx:425-437 | contours get the colouring, the label switch and the label font; 20 contours; nothing else changes |
| TraceOps.WithStyledContours | src/components/TraceBuilder.jsx:444-449 | a reversed "Hot" scale with 20 contours; nothing else changes |
| TraceOps.StyledContoursIdempotent | src/components/TraceBuilder.jsx:444-449 | styling contours twice equals styling them once |
| TraceOps.MaxNum | src/components/TraceBuilder.jsx:222-232 | `Math.max` of a non-empty number list is an upper bound that is attained |
| TraceOps.SizeRefScales | src/components/TraceBuilder.jsx:222-232 | sizeref times the squared desired size is twice the largest size and bounds twice every size |
| TraceBuilding.MarkerPreset | src/components/TraceBuilder.jsx:208-215 | marker keys are opacity then symbol; opacity 0.8; the symbol defaults to "circle" only when it is undefined |
| TraceBuilding.ScaleShown | src/components/TraceBuilder.jsx:192-195 | throws TypeError exactly when the marker is neither an object nor an array; an object marker gains `showscale: true`, an array one is left as is |
| TraceBuilding.ScaleShownKeeps | src/components/TraceBuilder.jsx:192-195 | on an object marker the flag is set and every other marker entry and trace key reads as before |
| TraceBuilding.RelativelySized | src/components/TraceBuilder.jsx:222-232 | the marker gets opacity 0.6, the sizes, the area mode and sizeref for 65 pixels; its other entries are kept |
| TraceBuilding.MarkerSizingEntries | src/components/TraceBuilder.jsx:224-230 | the spread literal writes four distinct keys, exactly opacity, size, sizeref and sizemode, with their values |
| TraceBuilding.TraceBuilder.constructor | src/components/TraceBuilder.jsx:67-72 | a fresh record holding exactly name then type |
| TraceBuilding.TraceBuilder.AddMode | src/components/TraceBuilder.jsx:78-81 | sets `mode` and returns the builder |
| TraceBuilding.TraceBuilder.AddFill | src/components/TraceBuilder.jsx:88-95 | a falsy fill falls back to "tonexity", any other is stored as given |
| TraceBuilding.TraceBuilder.AddLine | src/components/TraceBuilder.jsx:108-114 | replaces `line` with a solid line of width "5" |
| TraceBuilding.TraceBuilder.AddAxis | src/components/TraceBuilder.jsx:125-134 | stores the data under the key `AxisKey` picks |
| TraceBuilding.TraceBuilder.AddDottedLine | src/components/TraceBuilder.jsx:148-154 | merges `dash: "dashdot"` into `line`, keeping its other entries |
| TraceBuilding.TraceBuilder.AddMarkerLine | src/components/TraceBuilder.jsx:169-177 | merges a fresh `line` of width "5" into `marker` |
| TraceBuilding.TraceBuilder.AddOrientation | src/components/TraceBuilder.jsx:183-186 | sets `orientation` |
| TraceBuilding.TraceBuilder.AddColorScale | src/components/TraceBuilder.jsx:192-195 | the record becomes `ScaleShown` of the old one, or stays unchanged with a TypeError when there is no marker to write into |
| TraceBuilding.TraceBuilder.AddMarker | src/components/TraceBuilder.jsx:208-215 | replaces `marker` with the preset |
| TraceBuilding.TraceBuilder.AddRelativeSizeToMarkers | src/components/TraceBuilder.jsx:222-232 | an array of numbers resizes the marker; any other size throws TypeError and changes nothing |
| TraceBuilding.TraceBuilder.AddErrorBars | src/components/TraceBuilder.jsx:242-259 | stores the error-bar record in the direction's slot |
| TraceBuilding.TraceBuilder.AddValues | src/components/TraceBuilder.jsx:266-269 | sets `values` |
| TraceBuilding.TraceBuilder.AddLabels | src/components/TraceBuilder.jsx:276-279 | sets `labels` |
| TraceBuilding.TraceBuilder.AddDomain | src/components/TraceBuilder.jsx:288-294 | sets the pie domain |
| TraceBuilding.TraceBuilder.AddOutlierDetection | src/components/TraceBuilder.jsx:300-311 | merges the outlier marker settings |
| TraceBuilding.TraceBuilder.AddUnderlyingData | src/components/TraceBuilder.jsx:317-322 | applies the underlying-data preset |
| TraceBuilding.TraceBuilder.AddBoxPoints | src/components/TraceBuilder.jsx:333-336 | sets `boxpoints` |
| TraceBuilding.TraceBuilder.AddText | src/components/TraceBuilder.jsx:343-350 | applies the text settings |
| TraceBuilding.TraceBuilder.AddHoverInfo | src/components/TraceBuilder.jsx:357-360 | sets `hoverinfo` |
| TraceBuilding.TraceBuilder.RemoveLegend | src/components/TraceBuilder.jsx:366-369 | writes `showLegend` (capital L), so Plotly's `showlegend` is untouched |
| TraceBuilding.TraceBuilder.AddColor | src/components/TraceBuilder.jsx:381-387 | merges the colour into `marker` |
| TraceBuilding.TraceBuilder.ChangeColorScale | src/components/TraceBuilder.jsx:395-401 | merges the colour scale into `marker` |
| TraceBuilding.TraceBuilder.AddCustomColorScale | src/components/TraceBuilder.jsx:407-417 | sets the six-stop custom colour scale |
| TraceBuilding.TraceBuilder.AddContours | src/components/TraceBuilder.jsx:425-437 | applies the contour settings |
| TraceBuilding.TraceBuilder.AddStyledContours | src/components/TraceBuilder.jsx:444-449 | applies the reversed "Hot" contour style |
| TraceBuilding.TraceBuilder.AddTraceData | src/components/TraceBuilder.jsx:456-459 | the builder now refers to the given record itself, so later setters change the caller's object |
| TraceBuilding.TraceBuilder.BuildTrace | src/components/TraceBuilder.jsx:468-470 | hands back the record itself, not a copy |
| DashboardMetaData.ErrorBarTypeIsConstant | src/components/DashboardMetaData.jsx:171-189 | the repeated `type` key in the literal keeps the first key's place with the second value, so the bars are always "constant" |
| DashboardMetaData.RelativelySized | src/components/DashboardMetaData.jsx:158-168 | the marker gets the sizes, the area mode and sizeref for 40 pixels; its other entries are kept |
| DashboardMetaData.MarkerSizingEntries | src/components/DashboardMetaData.jsx:160-166 | the spread literal writes three distinct keys, exactly size, sizeref and sizemode, with their values |
| DashboardMetaData.Trace.constructor | src/components/DashboardMetaData.jsx:124-132 | name, type, marker mode, empty data and a shown colour scale, in that order |
| DashboardMetaData.Trace.AddDottedLine | src/components/DashboardMetaData.jsx:136-141 | replaces `line` with a dash-dotted line of the given width |
| DashboardMetaData.Trace.AddMarker | src/components/DashboardMetaData.jsx:143-155 | replaces `marker` with the circle marker of the given style |
| DashboardMetaData.Trace.AddRelativeSizeToMarkers | src/components/DashboardMetaData.jsx:158-168 | an array of numbers resizes the marker; any other size throws TypeError and changes nothing |
| DashboardMetaData.Trace.AddErrorBars | src/components/DashboardMetaData.jsx:171-189 | stores the constant error-bar record in the direction's slot |
| DashboardMetaData.Trace.AddValues | src/components/DashboardMetaData.jsx:193-196 | sets `values` |
| DashboardMetaData.Trace.AddLabels | src/components/DashboardMetaData.jsx:198-201 | sets `labels` |
| DashboardMetaData.Trace.AddDomain | src/components/DashboardMetaData.jsx:203-209 | sets the pie domain |
| DashboardMetaData.Trace.AddOutlierDetection | src/components/DashboardMetaData.jsx:213-225 | merges the outlier marker settings |
| DashboardMetaData.Trace.AddUnderlyingData | src/components/DashboardMetaData.jsx:227-232 | applies the underlying-data preset |
| DashboardMetaData.Trace.AddText | src/components/DashboardMetaData.jsx:236-242 | an empty text list with the orientation the trace's own type selects |
| DashboardMetaData.Trace.AddHoverInfo | src/components/DashboardMetaData.jsx:244-247 | hover shows label, percent and name |
| DashboardMetaData.Trace.RemoveLegend | src/components/DashboardMetaData.jsx:249-252 | writes `showLegend` (capital L) |
| DashboardMetaData.Trace.ChangeColorScale | src/components/DashboardMetaData.jsx:254-260 | merges the "Jet" scale into `marker` |
| DashboardMetaData.Trace.AddCustomColorScale | src/components/DashboardMetaData.jsx:262-272 | sets the six-stop custom colour scale |
| DashboardMetaData.Trace.AddContours | src/components/DashboardMetaData.jsx:275-287 | heatmap-coloured contours with labels |
| DashboardMetaData.Trace.StyleContours | src/components/DashboardMetaData.jsx:292-297 | applies the reversed "Hot" contour style |
| DashboardMetaData.NewPlotLayout | src/components/DashboardMetaData.jsx:301-355 | construction succeeds exactly when the module binds `group`; otherwise it is a ReferenceError |
| DashboardMetaData.PlotLayoutNeverConstructed | src/components/DashboardMetaData.jsx:352-354 | the layout constructor always throws a ReferenceError |
| DashboardMetaData.NewPlotlyInterface | src/components/DashboardMetaData.jsx:15-33 | the chart object fails exactly when its layout does |
| DashboardMetaData.PlotlyInterfaceNeverConstructed | src/components/DashboardMetaData.jsx:15-33 | the chart object of this file can never be constructed |
| DashboardMetaData.AddTraceOutcome | src/components/DashboardMetaData.jsx:35-48 | adding a trace throws exactly for the "box" type, with a ReferenceError |
| DashboardMetaData.AddDimensionOutcome | src/components/DashboardMetaData.jsx:55-61 | adding a dimension throws exactly for the "x" axis, with a TypeError |
| LayoutOps.FontRecord | src/components/LayoutBuilder.jsx:101-109 | a font record with keys family, size, color holding the arguments |
| LayoutOps.MarginRecord | src/components/LayoutBuilder.jsx:141-150 | a margin record with keys l, r, b, t, pad holding the arguments |
| LayoutOps.WithLegend | src/components/LayoutBuilder.jsx:190-203 | replaces the legend, keeping the key order; nothing else changes |
| LayoutOps.BarChartStyled | src/components/LayoutBuilder.jsx:210-215 | the bar mode with gaps 0.15 and 0.1; nothing else changes |
| LayoutOps.BarChartRestyled | src/components/LayoutBuilder.jsx:210-215 | styling bars twice equals styling them once with the second mode |
| LayoutOps.HistogramsStyled | src/components/LayoutBuilder.jsx:222-225 | only the bar mode changes |
| LayoutOps.BoxPlotStyled | src/components/LayoutBuilder.jsx:232-235 | the box mode becomes "group"; nothing else changes |
| LayoutBuilding.FieldWrite | src/components/LayoutBuilder.jsx:22-35 | writing into an axis object sets one entry and keeps the rest; an array target absorbs the write; any other target throws TypeError and changes nothing |
| LayoutBuilding.FieldWriteKeeps | src/components/LayoutBuilder.jsx:22-35 | whatever the target, the layout's other properties and the axis object's other entries read as before |
| LayoutBuilding.AxisUpdate | src/components/LayoutBuilder.jsx:22-35 | "x" and "y" write into their axes; any other axis replaces `scene` by copies of both axes and then throws TypeError |
| LayoutBuilding.AxisUpdateThrows | src/components/LayoutBuilder.jsx:22-35 | without axis objects every axis update throws TypeError and still leaves no axis object |
| LayoutBuilding.RemoveGridKeepsShowgrid | src/components/LayoutBuilder.jsx:157-160 | the misspelt key leaves both axes' `showgrid` as it was |
| LayoutBuilding.StyledFont | src/components/LayoutBuilder.jsx:44-51 | a font record with keys color, family, size holding the arguments |
| LayoutBuilding.BgColored | src/components/LayoutBuilder.jsx:59-63 | sets the paper and plot colours; nothing else changes |
| LayoutBuilding.StyleFontIdempotent | src/components/LayoutBuilder.jsx:44-51 | styling the font twice equals styling it once |
| LayoutBuilding.BgColoredIdempotent | src/components/LayoutBuilder.jsx:59-63 | setting the colours twice equals setting them once |
| LayoutBuilding.LayoutBuilder.constructor | src/components/LayoutBuilder.jsx:11-13 | the layout holds only the title and has no axis objects |
| LayoutBuilding.LayoutBuilder.UpdateAxis | src/components/LayoutBuilder.jsx:22-35 | the layout becomes `AxisUpdate`'s; on a fresh builder it always throws TypeError |
| LayoutBuilding.LayoutBuilder.StyleFont | src/components/LayoutBuilder.jsx:44-51 | installs the font and keeps "no axes" |
| LayoutBuilding.LayoutBuilder.StyleBgColor | src/components/LayoutBuilder.jsx:59-63 | sets the colours and keeps "no axes" |
| LayoutBuilding.LayoutBuilder.AddGrid | src/components/LayoutBuilder.jsx:71-74 | an axis update of `gridcolor`; it succeeds exactly when the update does |
| LayoutBuilding.LayoutBuilder.StyleAxis | src/components/LayoutBuilder.jsx:85-92 | reads an undeclared name, so it throws ReferenceError and changes nothing |
| LayoutBuilding.LayoutBuilder.StyleAxisFont | src/components/LayoutBuilder.jsx:101-109 | stores the font under `data` and then throws ReferenceError |
| LayoutBuilding.LayoutBuilder.AddAxis | src/components/LayoutBuilder.jsx:117-120 | an axis update of `title`; it succeeds exactly when the update does |
| LayoutBuilding.LayoutBuilder.AddLogScale | src/components/LayoutBuilder.jsx:127-130 | an axis update of `type: "log"`; it succeeds exactly when the update does |
| LayoutBuilding.LayoutBuilder.AddMargin | src/components/LayoutBuilder.jsx:141-150 | installs the margin record |
| LayoutBuilding.LayoutBuilder.RemoveGrid | src/components/LayoutBuilder.jsx:157-160 | an axis update of the misspelt `shogrid` |
| LayoutBuilding.LayoutBuilder.RemoveZeroLine | src/components/LayoutBuilder.jsx:167-170 | an axis update of `zeroline: false` |
| LayoutBuilding.LayoutBuilder.AddLegend | src/components/LayoutBuilder.jsx:190-203 | installs the legend |
| LayoutBuilding.LayoutBuilder.StyleBarChart | src/components/LayoutBuilder.jsx:210-215 | applies the bar style |
| LayoutBuilding.LayoutBuilder.StyleHistograms | src/components/LayoutBuilder.jsx:222-225 | sets the bar mode |
| LayoutBuilding.LayoutBuilder.StyleBoxPlot | src/components/LayoutBuilder.jsx:232-235 | groups the boxes |
| LayoutBuilding.LayoutBuilder.BuildLayout | src/components/LayoutBuilder.jsx:241-243 | the layout is the builder itself |
| PlotLayouts.YAxisRecord | src/components/PlotLayout.jsx:13-28 | seven distinct keys in source order: title, grid colour, an 18-point Arial title font, and autorange on |
| PlotLayouts.XAxisRecord | src/components/PlotLayout.jsx:30-47 | nine distinct keys in source order, with the grid and the zero line shown |
| PlotLayouts.AxisFlagged | src/components/PlotLayout.jsx:49-55 | the spread-and-set axis update: the flag is set, the axis's other entries are kept, and a new flag goes last |
| PlotLayouts.AxisFlaggedIdempotent | src/components/PlotLayout.jsx:49-55 | setting the same flag twice equals setting it once |
| PlotLayouts.AxisFlaggedKeeps | src/components/PlotLayout.jsx:49-55 | every entry of the axis record other than the flag reads as before |
| PlotLayouts.AxisFlaggedElsewhere | src/components/PlotLayout.jsx:49-55 | every layout property other than the flagged axis reads as before |
| PlotLayouts.RemoveXGridKeepsGrid | src/components/PlotLayout.jsx:84-98 | the misspelt `showgriid` leaves an added x axis's grid shown, while `removeYGrid` hides the y grid |
| PlotLayouts.Scene | src/components/PlotLayout.jsx:57-74 | the scene holds copies of the x and y axes and a titled z axis |
| PlotLayouts.FixedSize | src/components/PlotLayout.jsx:57-74 | 550 by 500, with the fixed margin; nothing else changes |
| PlotLayouts.ZAxisAdded | src/components/PlotLayout.jsx:57-74 | scene, autosize off and the fixed size; nothing else changes |
| PlotLayouts.SceneAxesAreCopies | src/components/PlotLayout.jsx:57-74 | flagging the x axis after `addZAxis` leaves the scene's copy unchanged |
| PlotLayouts.PlotLayout.constructor | src/components/PlotLayout.jsx:5-11 | title, legend, font and the two colours, in source order |
| PlotLayouts.PlotLayout.AddYaxis | src/components/PlotLayout.jsx:13-28 | replaces `yaxis` with the y record |
| PlotLayouts.PlotLayout.AddXaxis | src/components/PlotLayout.jsx:30-47 | replaces `xaxis` with the x record |
| PlotLayouts.PlotLayout.AddLogXScale | src/components/PlotLayout.jsx:49-55 | flags the x axis as logarithmic |
| PlotLayouts.PlotLayout.AddZAxis | src/components/PlotLayout.jsx:57-74 | applies `ZAxisAdded` |
| PlotLayouts.PlotLayout.AddLogYScale | src/components/PlotLayout.jsx:76-82 | flags the y axis as logarithmic |
| PlotLayouts.PlotLayout.RemoveXGrid | src/components/PlotLayout.jsx:84-90 | sets the misspelt `showgriid` on the x axis |
| PlotLayouts.PlotLayout.RemoveYGrid | src/components/PlotLayout.jsx:92-98 | hides the y grid |
| PlotLayouts.PlotLayout.RemoveXZeroLine | src/components/PlotLayout.jsx:100-106 | hides the x zero line |
| PlotLayouts.PlotLayout.RemoveYZeroLine | src/components/PlotLayout.jsx:108-114 | hides the y zero line |
| PlotLayouts.PlotLayout.AddLegend | src/components/PlotLayout.jsx:116-129 | installs the legend |
| PlotLayouts.PlotLayout.StyleBarChart | src/components/PlotLayout.jsx:132-138 | applies the bar style |
| PlotLayouts.PlotLayout.StyleHistograms | src/components/PlotLayout.jsx:141-144 | sets the bar mode |
| PlotLayouts.PlotLayout.StyleBoxPlot | src/components/PlotLayout.jsx:146-149 | groups the boxes |
| Slots.IndexOf | src/components/DashboardBuilder.jsx:38-43 | `indexOf` is -1 exactly when the slot is absent, and otherwise its first position |
| Slots.KeptFromSurvivors | src/components/DashboardBuilder.jsx:38-43 | a slot survives the filter exactly when its first index equals the argument |
| Slots.KeptOnlyAtIndex | src/components/DashboardBuilder.jsx:38-43 | only the slot at the index can survive `removePlot`; it survives unless it also sits earlier, in which case nothing survives |
| Slots.KeptOutOfRange | src/components/DashboardBuilder.jsx:38-43 | an index outside the list removes every slot |
| Slots.KeptFromNone | src/components/DashboardBuilder.jsx:38-43 | when no entry first occurs at the index, the filter keeps nothing |
| Slots.KeptFromDistinct | src/components/DashboardBuilder.jsx:38-43 | with distinct slots, the filter over a suffix keeps the indexed slot exactly when the suffix contains its position |
| Slots.KeptDistinct | src/components/DashboardBuilder.jsx:38-43 | with distinct slots, `removePlot(i)` leaves exactly the slot at `i` |
| Slots.KeptExample | src/components/DashboardBuilder.jsx:38-43 | an illustration of `KeptDistinct`: removing index 1 of three slots leaves only the middle one |
| Slots.KeptRepeated | src/components/DashboardBuilder.jsx:38-43 | a repeated slot survives twice at its first index and not at all at its second |
| Slots.GridCell | src/components/DashboardBuilder.jsx:28-36 | a grid cell with keys x, y, w, h |
| Slots.BuilderSlot | src/components/DashboardBuilder.jsx:28-36 | plot, layout, grid and tools, with a 4 by 4 cell at (4, 0) |
| Slots.ModelSlot | src/components/DashboardModel.jsx:11-17 | plot, grid and tools, with no layout entry and a 5 by 10 cell at the origin |
| DashboardBuilding.DashboardBuilder.constructor | src/components/DashboardBuilder.jsx:21-26 | stores the title, slots and colours as given |
| DashboardBuilding.DashboardBuilder.AddPlot | src/components/DashboardBuilder.jsx:28-36 | appends one fresh builder slot; earlier slots, their contents and the other fields are unchanged |
| DashboardBuilding.DashboardBuilder.RemovePlot | src/components/DashboardBuilder.jsx:38-43 | the slots become the filter's survivors, which are at most the slot at the index |
| DashboardBuilding.DashboardBuilder.AddDashboardTitle | src/components/DashboardBuilder.jsx:45-48 | sets the title only |
| DashboardBuilding.DashboardBuilder.AddBgColor | src/components/DashboardBuilder.jsx:50-53 | sets the background colour only |
| DashboardBuilding.DashboardBuilder.AddDarkBgColor | src/components/DashboardBuilder.jsx:55-58 | sets the dark background colour only |
| DashboardBuilding.DashboardBuilder.BuildDashboard | src/components/DashboardBuilder.jsx:60-62 | the dashboard is the builder itself |
| DashboardBuilding.DashboardBuilder.AddPlotObject | src/components/DashboardBuilder.jsx:78-81 | an index in range sets that slot's `plot`, in place and seen by every holder, with other slots unchanged; any other index throws TypeError and changes nothing |
| DashboardBuilding.DashboardBuilder.AddLayoutObject | src/components/DashboardBuilder.jsx:83-86 | the same for the slot's `layout` |
| DashboardModels.DashboardModel.constructor | src/components/DashboardModel.jsx:4-9 | stores the title, slots and colours as given |
| DashboardModels.DashboardModel.AddPlot | src/components/DashboardModel.jsx:11-17 | appends one fresh model slot; everything else is unchanged |
| DashboardModels.DashboardModel.RemovePlot | src/components/DashboardModel.jsx:19-23 | the slots become the filter's survivors, which are at most the slot at the index |
| DashboardModels.DashboardModel.AddDashboardTitle | src/components/DashboardModel.jsx:25-27 | sets the title only |
| DashboardModels.DashboardModel.AddBgColor | src/components/DashboardModel.jsx:29-31 | sets the background colour only |
| DashboardModels.DashboardModel.AddDarkBgColor | src/components/DashboardModel.jsx:33-35 | sets the dark background colour only |
| PlotlyAdapter.ZoomScrolled | src/components/PlotlyInterface.jsx:49-51 | scroll zoom on, key order kept; nothing else changes |
| PlotlyAdapter.ZoomScrolledIdempotent | src/components/PlotlyInterface.jsx:49-51 | turning scroll zoom on twice equals doing it once |
| PlotlyAdapter.ModeBarRemoved | src/components/PlotlyInterface.jsx:171-173 | mode bar hidden, key order kept; nothing else changes |
| PlotlyAdapter.ModeBarRemovedIdempotent | src/components/PlotlyInterface.jsx:171-173 | hiding the mode bar twice equals hiding it once |
| PlotlyAdapter.NewTrace | src/components/PlotlyInterface.jsx:37-42 | the pushed trace has name, type, the default marker and marker mode, in that order |
| PlotlyAdapter.ColorDimension | src/components/PlotlyInterface.jsx:85-96 | the marker gets the colour data, a shown scale and the "Jet" scale; its other entries and the rest of the trace are kept |
| PlotlyAdapter.LinePlot | src/components/PlotlyInterface.jsx:107-113 | a solid width-"5" line in lines mode; nothing else changes |
| PlotlyAdapter.ScatterPlot | src/components/PlotlyInterface.jsx:115-121 | marker mode with the circle marker; nothing else changes |
| PlotlyAdapter.PlotlyInterface.constructor | src/components/PlotlyInterface.jsx:16-34 | the given canvas id, no traces, an empty layout and the initial configuration; the canvas id is a constant that no method changes |
| PlotlyAdapter.PlotlyInterface.AddTrace | src/components/PlotlyInterface.jsx:37-42 | appends one fresh trace equal to `NewTrace`; the layout and configuration are unchanged and the canvas id is constant |
| PlotlyAdapter.PlotlyInterface.AddPlotTitle | src/components/PlotlyInterface.jsx:44-47 | the layout becomes a fresh builder holding only the title; the traces and configuration are unchanged |
| PlotlyAdapter.PlotlyInterface.AddZoomScroll | src/components/PlotlyInterface.jsx:49-51 | the configuration turns scroll zoom on; the traces and layout are unchanged |
| PlotlyAdapter.PlotlyInterface.ImportTrace | src/components/PlotlyInterface.jsx:53-59 | into an empty list the trace goes in; otherwise `splice`'s argument order puts the index in front instead of the trace; the layout and configuration are unchanged |
| PlotlyAdapter.PlotlyInterface.ImportLayout | src/components/PlotlyInterface.jsx:61-63 | the layout becomes the given one; the traces and configuration are unchanged |
| PlotlyAdapter.PlotlyInterface.AddAxisDimension | src/components/PlotlyInterface.jsx:65-83 | always ends in TypeError; a trace at the index receives the axis data first, and no other trace changes |
| PlotlyAdapter.PlotlyInterface.AddColorDimension | src/components/PlotlyInterface.jsx:85-96 | succeeds exactly when there is a trace at the index, which gets `ColorDimension`; no other trace changes |
| PlotlyAdapter.PlotlyInterface.AddSizeDimension | src/components/PlotlyInterface.jsx:98-105 | succeeds exactly for a trace at the index and an array of sizes; no other trace changes |
| PlotlyAdapter.PlotlyInterface.AddLinePlot | src/components/PlotlyInterface.jsx:107-113 | succeeds exactly for a trace at the index, which becomes `LinePlot` of itself; no other trace changes |
| PlotlyAdapter.PlotlyInterface.AddScatterPlot | src/components/PlotlyInterface.jsx:115-121 | succeeds exactly for a trace at the index, which becomes `ScatterPlot` of itself; no other trace changes |
| PlotlyAdapter.PlotlyInterface.UpdateInitialPlot | src/components/PlotlyInterface.jsx:142-169 | the extended trace indices are 0 to n-1, one per new y series, in order |
| PlotlyAdapter.PlotlyInterface.RemoveModeBar | src/components/PlotlyInterface.jsx:171-173 | the configuration hides the mode bar; the traces and layout are unchanged |
| DataProcessing.ReadableFormat | src/components/DataProcessing.js:10-27 | succeeds exactly for an array whose every file converts; one table per file, in order |
| DataProcessing.RowOfOk | src/components/DataProcessing.js:19-23 | a row is built exactly when every cell of it can be read |
| DataProcessing.RowOfShape | src/components/DataProcessing.js:19-23 | a built row has exactly the file's columns as keys, in column order, and each holds its cell |
| DataProcessing.RowOfHas | src/components/DataProcessing.js:19-23 | a built row has a key exactly when it is one of the columns |
| DataProcessing.RowOfKeys | src/components/DataProcessing.js:19-23 | with distinct columns, a built row's keys are the columns in order |
| DataProcessing.RowOfCells | src/components/DataProcessing.js:19-23 | every column of a built row holds the cell read from the file |
| DataProcessing.TableRows | src/components/DataProcessing.js:14-23 | a converted file has one row per row key of its first column, each keyed by the columns and holding the cells |
| DataProcessing.RowCount | src/components/DataProcessing.js:14-18 | the row count is the size of the first column, and each row's keys are the file's column names |
| DataProcessing.ColumnRoundTrip | src/components/DataProcessing.js:15-23 | when all columns are objects sharing the first column's row keys, reading a column back out of the rows gives the original column |
| DataProcessing.ArrayColumnRoundTrip | src/components/DataProcessing.js:15-23 | when all columns are arrays of the first column's length n, there are n rows and reading a column back out of them gives the original array |
| DataProcessing.NoColumnsFails | src/components/DataProcessing.js:14-16 | a file with no columns makes the conversion throw TypeError |
| DataProcessing.FillRow | src/components/DataProcessing.js:19-23 | the inner loop fills row `i` with `RowOf`, or throws TypeError exactly when a cell cannot be read |
| DataProcessing.ConvertFile | src/components/DataProcessing.js:12-24 | the loops compute `FileTable` of the file |
| DataProcessing.ConvertFilesToReadableFormat | src/components/DataProcessing.js:10-27 | the loop computes `ReadableFormat` of the files |
| DataProcessing.FirstNamed | src/components/DataProcessing.js:29-34 | the first file whose name matches, -1 when none does, and a TypeError when some file cannot be read |
| DataProcessing.GetUserFileId | src/components/DataProcessing.js:29-34 | the same over the user-file array; anything else throws TypeError |
| CommandLine.OptionNames | src/components/CommandLineModel.jsx:116-118 | the nine menu names in source order, without repeats |
| CommandLine.OptionFor | src/components/CommandLineModel.jsx:62-74 | a provider exists exactly for the menu names, and each named provider sits under its own name |
| CommandLine.Strings | src/components/CommandLineModel.jsx:11-22 | a name list as an array of the same strings |
| CommandLine.FileNames | src/components/CommandLineModel.jsx:3-9 | succeeds exactly for an array with no undefined or null files, giving each file's `filename` |
| CommandLine.SubOptions | src/components/CommandLineModel.jsx:3-50 | the six plots, the six themes, the file names, or the axis placeholder once the files convert; the tool menu throws |
| CommandLine.SubOptionsOutcome | src/components/CommandLineModel.jsx:85-93 | names outside the menu and the tool menu throw TypeError; plot and theme complete |
| CommandLine.StoredTextFails | src/components/CommandLineModel.jsx:55 | with the files as local storage holds them, text or null, only the plot and theme menus complete |
| CommandLine.CommandLineModel.constructor | src/components/CommandLineModel.jsx:104-106 | starts on "Select a File" |
| CommandLine.CommandLineModel.ChangeState | src/components/CommandLineModel.jsx:108-111 | sets the state and returns the model |
| CommandLine.CommandLineModel.GetCurrentState | src/components/CommandLineModel.jsx:113-115 | returns the state set last |
| CommandLine.CommandLineModel.DisplaySubOptions | src/components/CommandLineModel.jsx:127-130 | completes as `SubOptionsOutcome` of the current state |
| DatabaseApis.Stored | src/apis/DatabaseApi.jsx:59-70 | an absent key or stored `undefined` reads as an empty array, anything else as stored |
| DatabaseApis.ReadAfterWrite | src/apis/DatabaseApi.jsx:28-30 | after a write the key reads back the written value (an empty array for `undefined`), and other keys read as before |
| DatabaseApis.Appended | src/apis/DatabaseApi.jsx:48 | spreading works exactly for arrays and strings; the result has one more element, the resource last |
| DatabaseApis.Matches | src/apis/DatabaseApi.jsx:90 | a match test throws TypeError exactly on undefined or null elements |
| DatabaseApis.Replaced | src/apis/DatabaseApi.jsx:89-94 | the same length, each matching element replaced by the resource, the others kept |
| DatabaseApis.Updated | src/apis/DatabaseApi.jsx:81-99 | an empty array is replaced by the resource; a non-empty array gets `Replaced`; null throws TypeError |
| DatabaseApis.Filtered | src/apis/DatabaseApi.jsx:144-146 | succeeds exactly when every element can be compared, and otherwise throws TypeError |
| DatabaseApis.FilteredMembers | src/apis/DatabaseApi.jsx:144-146 | the survivors are the non-matching elements: each kept one is one, and every one is kept |
| DatabaseApis.FilteredConcat | src/apis/DatabaseApi.jsx:144-146 | filtering distributes over concatenation |
| DatabaseApis.FilteredNoMatch | src/apis/DatabaseApi.jsx:144-146 | with nothing matching, filtering changes nothing |
| DatabaseApis.LocalFirst | src/apis/DatabaseApi.jsx:121-127 | a non-empty local array wins, an empty one yields the fetched value, and null throws TypeError |
| DatabaseApis.DatabaseApi.constructor | src/apis/DatabaseApi.jsx:9-12 | stores the resource domain and uses the shared store |
| DatabaseApis.DatabaseApi.ReadResourceFromLocalStorage | src/apis/DatabaseApi.jsx:59-70 | returns `Stored` of the key |
| DatabaseApis.DatabaseApi.CreateResourceInLocalStorage | src/apis/DatabaseApi.jsx:28-30 | the store maps the key to the resource, and nothing else changes |
| DatabaseApis.DatabaseApi.CreateResource | src/apis/DatabaseApi.jsx:19-26 | the same local write |
| DatabaseApis.DatabaseApi.SaveResourceToLocalStorage | src/apis/DatabaseApi.jsx:42-50 | stores `Appended` of the stored value, or throws TypeError and changes nothing |
| DatabaseApis.DatabaseApi.UpdateResourceInLocalStorage | src/apis/DatabaseApi.jsx:81-99 | stores `Updated` of the stored value, or throws and changes nothing |
| DatabaseApis.DatabaseApi.DeleteResource | src/apis/DatabaseApi.jsx:137-150 | stores the filtered array, or throws TypeError and changes nothing |
| DatabaseApis.DatabaseApi.ReadResource | src/apis/DatabaseApi.jsx:115-128 | `LocalFirst` of the stored value and the fetched one; an absent key yields the fetched value |

## Left out

- Members written as arrow-function class fields are modelled as ordinary methods. Their binding of `this` makes no difference to the modelled calls. In the source those members are also function-valued own properties of the trace and layout objects (`TraceBuilder`, `LayoutBuilder`, `PlotLayout` and the `DashboardMetaData` trace); they are not among the modelled properties, so the keys and spreads of those objects list only their data properties.
- JavaScript's key order for array-index keys is not modelled. `Object.keys` lists the keys "0", "1", ... first, in ascending order, and then the other keys in creation order; the model keeps creation order for every key, so assigning "0" after "b" gives `["b", "0"]` where JavaScript gives `["0", "b"]`. The row conversion is therefore exact only for file contents whose columns list their index keys first and in ascending order, as JSON in column orientation does when its rows are numbered in order. A parsed object with a repeated key keeps only its last value in JavaScript; the model's object values are assumed to have distinct keys, except for the error-bar literal whose repeated key `DashboardMetaData.ErrorBarTypeIsConstant` describes.
- Sub-objects are values, not shared references. Aliasing between nested records is not modelled: a `scene` axis is a copy, and a `LayoutBuilder` `scene` that would share its `xaxis` with the layout holds a copy instead. Traces and dashboard slots are heap objects, so aliasing between them is modelled.
- Named properties set on arrays are not modelled: the model's arrays hold only their elements. An axis write into an array is accepted without effect.
- NaN, the infinities and floating-point rounding are not values of the model; numbers are reals.
- TraceBuilding.TraceBuilder.AddRelativeSizeToMarkers: requires the sizes to be a non-empty array of numbers, or a value that is neither an array nor a string. Excluded are empty arrays, for which `Math.max` gives -Infinity; arrays with elements that do not convert to numbers, for which it gives NaN; arrays of numeric strings, booleans or null, which `Math.max` converts to numbers (`["10", "20"]` gives 20, `[true]` gives 1, `[null]` gives 0), because that conversion is not modelled; and strings, whose spread into single characters is not modelled (`"123"` gives 3).
- DashboardMetaData.Trace.AddRelativeSizeToMarkers: the same precondition, for the same reasons.
- PlotlyAdapter.PlotlyInterface.AddSizeDimension: the same precondition on the sizes, for the same reasons.
- DashboardBuilding.DashboardBuilder.RemovePlot: the index is an integer; a non-number argument is not modelled.
- DashboardModels.DashboardModel.RemovePlot: the same.
- PlotlyAdapter.PlotlyInterface.ImportTrace: the index is an integer.
- The caller's slot array is copied into the dashboard. Growing the caller's array afterwards is not modelled.
- A dashboard slot that is not an object is not modelled: `addPlot` creates every slot as an object.
- `changeCurrentFile`, called at src/Dashboard.jsx:96, is defined nowhere in the repository. It is not part of this model.
- Replaying every slot of a dashboard into charts happens in the React pages, outside this layer. It is not modelled.
- The methods of the `DashboardMetaData` chart object other than `addTrace` and `addDimension` are not modelled. That object can never be constructed, so they are unreachable.
- Calls into Plotly are not modelled: drawing, `newPlot`, `extendTraces`, `relayout`, the y-range update and the static-plot update. `window.Plotly` is outside the model. `updateInitialPlot` is modelled only for the trace indices it extends.
- The remote half of `DatabaseApi` is not modelled: the REST interface, `putResource`, `getResource`, `deleteResource` and the `async`/`await` scheduling. The GET result is the parameter `fetched` of `ReadResource`.
- DatabaseApis.DatabaseApi.CreateResource: models only the local write of src/apis/DatabaseApi.jsx:24.
- `JSON.stringify` and `JSON.parse` are treated as inverse, so the store holds values. Values JSON cannot round-trip, such as functions or cycles, are not modelled. Storing `undefined` keeps the text "undefined", which reads back as an empty array.
- Logging with `console.log` is not modelled.
- The "Edit Plot" provider is commented out of the menu, so it is not modelled.
- The module-level `userFiles` of the command line is read from local storage when the module loads. It is a parameter of `SubOptions`, and `CommandLine.StoredTextFails` states what follows from its stored form.
- The module-level `userFiles` and `userFileNames` of the data processing file are read when the module loads. `GetUserFileId` takes the files as a parameter.
- DataProcessing.ConvertFile: `fileRows.indexOf(row)` is modelled as the loop position. Object keys are distinct, so the two agree.
- CommandLine.CommandLineModel.ChangeState: takes a string, not any value. A non-string state reads as a name outside the menu.
- React components, hooks and rendering are not modelled.
