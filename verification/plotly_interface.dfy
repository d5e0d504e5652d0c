/**
 * `PlotlyInterface`: the in-memory state behind one Plotly chart: the list
 * of traces (`plotData`), the layout and the configuration flags. The trace
 * helpers hand a stored trace to a `TraceBuilder` through `addTraceData`, so
 * the builder's setters change that stored trace in place.
 */
module PlotlyAdapter {
  import opened Js
  import opened TraceOps
  import opened TraceBuilding
  import opened LayoutBuilding

  /**
   * An entry of `plotData`: a trace object, or the bare index that
   * `importTrace` inserts in place of its trace.
   */
  datatype Entry = TraceRef(t: JsObject) | Index(n: int)

  /** The layout: a value given to `importLayout`, or the builder `addPlotTitle` creates. */
  datatype Layout = LayoutValue(v: Value) | FromBuilder(b: LayoutBuilder)

  /** The configuration a new chart starts with. */
  const InitialConfig: Props := [
    Prop("responsive", Bool(true)), Prop("editable", Bool(true)), Prop("displaylogo", Bool(false)),
    Prop("displayModeBar", Bool(true)), Prop("scrollZoom", Bool(false)), Prop("showLink", Bool(false)),
    Prop("linkText", Str("This text is custom!")), Prop("plotlyServerURL", Str("https://chart-studio.plotly.com"))
  ]

  /** `addZoomScroll`: zooming with the scroll wheel turned on. */
  function ZoomScrolled(c: Props): (r: Props)
    ensures Lookup(r, "scrollZoom") == Bool(true) && SameExcept(c, r, {"scrollZoom"})
    ensures Has(c, "scrollZoom") ==> Keys(r) == Keys(c)
  {
    PutKeys(c, "scrollZoom", Bool(true));
    Put(c, "scrollZoom", Bool(true))
  }

  lemma ZoomScrolledIdempotent(c: Props)
    ensures ZoomScrolled(ZoomScrolled(c)) == ZoomScrolled(c)
  {
    PutPut(c, "scrollZoom", Bool(true), Bool(true));
  }

  /** `removeModeBar`: the mode bar hidden. */
  function ModeBarRemoved(c: Props): (r: Props)
    ensures Lookup(r, "displayModeBar") == Bool(false) && SameExcept(c, r, {"displayModeBar"})
    ensures Has(c, "displayModeBar") ==> Keys(r) == Keys(c)
  {
    PutKeys(c, "displayModeBar", Bool(false));
    Put(c, "displayModeBar", Bool(false))
  }

  lemma ModeBarRemovedIdempotent(c: Props)
    ensures ModeBarRemoved(ModeBarRemoved(c)) == ModeBarRemoved(c)
  {
    PutPut(c, "displayModeBar", Bool(false), Bool(false));
  }

  /** The trace `addTrace` pushes: name, type, the default marker and marker mode, in that order. */
  function NewTrace(traceType: Value, name: Value): (p: Props)
    ensures Keys(p) == ["name", "type", "marker", "mode"]
    ensures Lookup(p, "name") == name && Lookup(p, "type") == traceType
    ensures Lookup(p, "marker") == MarkerPreset(Undef) && Lookup(p, "mode") == Str("markers")
  {
    var p := [Prop("name", name), Prop("type", traceType), Prop("marker", MarkerPreset(Undef)),
              Prop("mode", Str("markers"))];
    assert Keys(p) == ["name", "type", "marker", "mode"];
    LookupAt(p, 1);
    LookupAt(p, 2);
    LookupAt(p, 3);
    p
  }

  /**
   * `addColorDimension` on a trace: the colour data merged into the marker,
   * the colour scale shown, and the "Jet" scale merged in; the marker's other
   * entries and the trace's other keys stay.
   */
  function ColorDimension(t: Props, data: Value): (r: Props)
    ensures SameExcept(t, r, {"marker"}) && Lookup(r, "marker").Obj?
    ensures Lookup(Inner(r, "marker"), "color") == data
    ensures Lookup(Inner(r, "marker"), "showscale") == Bool(true)
    ensures Lookup(Inner(r, "marker"), "colorscale") == Str("Jet")
    ensures SameExcept(Inner(t, "marker"), Inner(r, "marker"), {"color", "showscale", "colorscale"})
  {
    var t1 := Merged(t, "marker", [Prop("color", data)]);
    MergedOne(t, "marker", "color", data, "showscale");
    ScaleShownKeeps(t1, "color");
    var t2 := ScaleShown(t1).value;
    var r := Merged(t2, "marker", [Prop("colorscale", Str("Jet"))]);
    MergedOne(t2, "marker", "colorscale", Str("Jet"), "showscale");
    MergedOne(t2, "marker", "colorscale", Str("Jet"), "color");
    forall k | k !in {"color", "showscale", "colorscale"}
      ensures Lookup(Inner(r, "marker"), k) == Lookup(Inner(t, "marker"), k)
    {
      MergedOne(t, "marker", "color", data, k);
      ScaleShownKeeps(t1, k);
      MergedOne(t2, "marker", "colorscale", Str("Jet"), k);
    }
    forall k | k != "marker"
      ensures Lookup(r, k) == Lookup(t, k)
    {
      ScaleShownKeeps(t1, k);
    }
    r
  }

  /** `addLinePlot` on a trace: a solid line of width "5" drawn as lines. */
  function LinePlot(t: Props): (r: Props)
    ensures Lookup(r, "line") == Obj([Prop("dash", Str("solid")), Prop("width", Str("5"))])
    ensures Lookup(r, "mode") == Str("lines")
    ensures SameExcept(t, r, {"line", "mode"})
  {
    Put(Put(t, "line", Obj([Prop("dash", Str("solid")), Prop("width", Str("5"))])), "mode", Str("lines"))
  }

  /** `addScatterPlot` on a trace: drawn as markers, with the default circle marker. */
  function ScatterPlot(t: Props): (r: Props)
    ensures Lookup(r, "mode") == Str("markers")
    ensures Lookup(r, "marker") == MarkerPreset(Str("circle"))
    ensures SameExcept(t, r, {"mode", "marker"})
  {
    Put(Put(t, "mode", Str("markers")), "marker", MarkerPreset(Str("circle")))
  }

  /** The trace objects held in `entries`. */
  function Traces(entries: seq<Entry>): set<JsObject>
  {
    set i | 0 <= i < |entries| && entries[i].TraceRef? :: entries[i].t
  }

  /** The entry at `traceID` when it is a trace object. */
  predicate IsTraceAt(entries: seq<Entry>, traceID: int)
  {
    0 <= traceID < |entries| && entries[traceID].TraceRef?
  }

  class PlotlyInterface {
    /** The id of the element the chart is drawn in; no method reassigns it. */
    const canvasID: Value
    var plotData: seq<Entry>
    var layout: Layout
    var config: Props

    /** No traces, an empty layout and the initial configuration. */
    constructor(canvasID: Value)
      ensures this.canvasID == canvasID && plotData == []
      ensures layout == LayoutValue(Obj([])) && config == InitialConfig
    {
      this.canvasID := canvasID;
      plotData := [];
      layout := LayoutValue(Obj([]));
      config := InitialConfig;
    }

    /** Builds a trace with the default marker and "markers" mode and appends it. */
    method AddTrace(traceType: Value, name: Value)
      modifies this
      ensures |plotData| == |old(plotData)| + 1 && plotData[..|old(plotData)|] == old(plotData)
      ensures plotData[|old(plotData)|].TraceRef? && fresh(plotData[|old(plotData)|].t)
      ensures plotData[|old(plotData)|].t.props == NewTrace(traceType, name)
      ensures layout == old(layout) && config == old(config)
    {
      var builder := new TraceBuilder(traceType, name);
      var b := builder.AddMarker(Undef);
      b := b.AddMode(Str("markers"));
      var trace := b.BuildTrace();
      var p0 := [Prop("name", name), Prop("type", traceType)];
      assert Keys(p0) == ["name", "type"];
      AppendNew(p0, "marker", MarkerPreset(Undef));
      var p1 := p0 + [Prop("marker", MarkerPreset(Undef))];
      assert Keys(p1) == ["name", "type", "marker"];
      AppendNew(p1, "mode", Str("markers"));
      plotData := plotData + [TraceRef(trace)];
    }

    /** The layout becomes a new `LayoutBuilder` holding only the title. */
    method AddPlotTitle(title: Value)
      modifies this
      ensures layout.FromBuilder? && fresh(layout.b) && layout.b.props == [Prop("title", title)]
      ensures plotData == old(plotData) && config == old(config)
    {
      var builder := new LayoutBuilder(title);
      var built := builder.BuildLayout();
      layout := FromBuilder(built);
    }

    method AddZoomScroll()
      modifies this
      ensures config == ZoomScrolled(old(config))
      ensures plotData == old(plotData) && layout == old(layout)
    {
      config := ZoomScrolled(config);
    }

    /**
     * On an empty list the trace becomes the only entry. Otherwise the call is
     * `splice(trace, 0, traceID)`: the object `trace` converts to the start
     * index 0, so the number `traceID` is inserted at the front and the trace
     * itself is not stored.
     */
    method ImportTrace(trace: JsObject, traceID: int)
      modifies this
      ensures old(plotData) == [] ==> plotData == [TraceRef(trace)]
      ensures old(plotData) != [] ==> plotData == [Index(traceID)] + old(plotData)
      ensures layout == old(layout) && config == old(config)
    {
      if |plotData| == 0 {
        plotData := [TraceRef(trace)];
      } else {
        plotData := [Index(traceID)] + plotData;
      }
    }

    method ImportLayout(layout: Layout)
      modifies this
      ensures this.layout == layout
      ensures plotData == old(plotData) && config == old(config)
    {
      this.layout := layout;
    }

    /**
     * Writes the axis data into the trace at `traceID` (when there is one),
     * then throws TypeError: `LayoutBuilder` has no `addLayoutData`.
     */
    method AddAxisDimension(axis: Value, data: Value, axisLabel: Value, traceID: int) returns (c: Completion)
      modifies Traces(plotData)
      ensures c == Abrupt(TypeError)
      ensures IsTraceAt(plotData, traceID) ==>
                plotData[traceID].t.props == Put(old(plotData[traceID].t.props), AxisKey(axis), data)
      ensures forall o :: o in Traces(plotData) && !(IsTraceAt(plotData, traceID) && o == plotData[traceID].t) ==>
                o.props == old(o.props)
    {
      if IsTraceAt(plotData, traceID) {
        var builder := new TraceBuilder(Undef, Undef);
        var b := builder.AddTraceData(plotData[traceID].t);
        b := b.AddAxis(axis, data);
      }
      c := Abrupt(TypeError);
    }

    /**
     * Merges the colour data into the marker of the trace at `traceID`, shows
     * its colour scale and sets the "Jet" scale; throws TypeError, changing
     * nothing, when there is no trace object at `traceID`.
     */
    method AddColorDimension(data: Value, traceID: int) returns (c: Completion)
      modifies Traces(plotData)
      ensures c == Normal <==> IsTraceAt(plotData, traceID)
      ensures c.Abrupt? ==> c.error == TypeError
      ensures IsTraceAt(plotData, traceID) ==>
                plotData[traceID].t.props == ColorDimension(old(plotData[traceID].t.props), data)
      ensures forall o :: o in Traces(plotData) && !(IsTraceAt(plotData, traceID) && o == plotData[traceID].t) ==>
                o.props == old(o.props)
    {
      if !IsTraceAt(plotData, traceID) {
        return Abrupt(TypeError);
      }
      var builder := new TraceBuilder(Undef, Undef);
      var b := builder.AddTraceData(plotData[traceID].t);
      b := b.AddColor(data);
      var shown := b.AddColorScale();
      match shown
      case Err(e) =>
        assert false;
      case Ok(b2) =>
        b := b2.ChangeColorScale(Str("Jet"));
      c := Normal;
    }

    /**
     * Relative marker sizes on the trace at `traceID`; throws TypeError,
     * changing nothing, when there is no trace object there or `data` cannot
     * be spread.
     */
    method AddSizeDimension(data: Value, traceID: int) returns (c: Completion)
      requires SizeArgument(data)
      modifies Traces(plotData)
      ensures c == Normal <==> IsTraceAt(plotData, traceID) && data.Arr?
      ensures c.Abrupt? ==> c.error == TypeError
      ensures c == Normal ==>
                plotData[traceID].t.props == RelativelySized(old(plotData[traceID].t.props), data.elems)
      ensures forall o :: o in Traces(plotData) && !(c == Normal && o == plotData[traceID].t) ==>
                o.props == old(o.props)
    {
      if !IsTraceAt(plotData, traceID) {
        return Abrupt(TypeError);
      }
      var builder := new TraceBuilder(Undef, Undef);
      var b := builder.AddTraceData(plotData[traceID].t);
      var sized := b.AddRelativeSizeToMarkers(data);
      c := if sized.Ok? then Normal else Abrupt(sized.error);
    }

    /** Draws the trace at `traceID` as a solid line; throws TypeError when there is no trace object there. */
    method AddLinePlot(traceID: int) returns (c: Completion)
      modifies Traces(plotData)
      ensures c == Normal <==> IsTraceAt(plotData, traceID)
      ensures c.Abrupt? ==> c.error == TypeError
      ensures c == Normal ==> plotData[traceID].t.props == LinePlot(old(plotData[traceID].t.props))
      ensures forall o :: o in Traces(plotData) && !(c == Normal && o == plotData[traceID].t) ==>
                o.props == old(o.props)
    {
      if !IsTraceAt(plotData, traceID) {
        return Abrupt(TypeError);
      }
      var builder := new TraceBuilder(Str("scatter"), Undef);
      var b := builder.AddTraceData(plotData[traceID].t);
      b := b.AddLine();
      b := b.AddMode(Str("lines"));
      c := Normal;
    }

    /** Draws the trace at `traceID` as circle markers; throws TypeError when there is no trace object there. */
    method AddScatterPlot(traceID: int) returns (c: Completion)
      modifies Traces(plotData)
      ensures c == Normal <==> IsTraceAt(plotData, traceID)
      ensures c.Abrupt? ==> c.error == TypeError
      ensures c == Normal ==> plotData[traceID].t.props == ScatterPlot(old(plotData[traceID].t.props))
      ensures forall o :: o in Traces(plotData) && !(c == Normal && o == plotData[traceID].t) ==>
                o.props == old(o.props)
    {
      if !IsTraceAt(plotData, traceID) {
        return Abrupt(TypeError);
      }
      var builder := new TraceBuilder(Str("scatter"), Undef);
      var b := builder.AddTraceData(plotData[traceID].t);
      b := b.AddMode(Str("markers"));
      b := b.AddMarker(Str("circle"));
      c := Normal;
    }

    /** The trace indices `updateInitialPlot` extends: one per entry of `newDataY`, in order. */
    method UpdateInitialPlot(newDataY: seq<Value>, newDataX: seq<Value>) returns (traceIDs: seq<int>)
      ensures |traceIDs| == |newDataY|
      ensures forall i :: 0 <= i < |traceIDs| ==> traceIDs[i] == i
    {
      traceIDs := [];
      var i := 0;
      while i < |newDataY|
        invariant 0 <= i <= |newDataY|
        invariant |traceIDs| == i
        invariant forall j :: 0 <= j < i ==> traceIDs[j] == j
      {
        traceIDs := traceIDs + [i];
        i := i + 1;
      }
    }

    method RemoveModeBar()
      modifies this
      ensures config == ModeBarRemoved(old(config))
      ensures plotData == old(plotData) && layout == old(layout)
    {
      config := ModeBarRemoved(config);
    }
  }
}
