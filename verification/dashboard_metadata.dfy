/**
 * The older chart classes of DashboardMetaData.jsx: a `Trace` whose own
 * fields are the Plotly trace, a `PlotLayout` whose constructor reads an
 * undeclared identifier, and a `PlotlyInterface` that builds such a layout.
 */
module DashboardMetaData {
  import opened Js
  import opened TraceOps

  /**
   * The top-level bindings of DashboardMetaData.jsx that hold values of the
   * model. The file declares only the three classes, so no identifier of the
   * model's values is in scope.
   */
  const ModuleScope: map<string, Value> := map[]

  /** The marker `addMarker` installs, always with the circle symbol. */
  function MarkerRecord(color: Value, opacity: Value, size: Value, lineColor: Value, lineWidth: Value): Value
  {
    Obj([Prop("color", color), Prop("opacity", opacity), Prop("size", size),
         Prop("line", Obj([Prop("color", lineColor), Prop("width", lineWidth)])), Prop("symbol", Str("circle"))])
  }

  /**
   * The literal of `addErrorBars`, which names `type` twice: "data" first and
   * "constant" later.
   */
  function ErrorBarLiteral(errorData: Value): Props
  {
    [Prop("type", Str("data")), Prop("visible", Bool(true)), Prop("type", Str("constant"))] + ErrorBarStyle(errorData)
  }

  /** The entries of the error-bar literal after its second `type`. */
  function ErrorBarStyle(errorData: Value): Props
  {
    [Prop("value", errorData), Prop("color", Str("#85144B")), Prop("thickness", Num(1.5)), Prop("width", Num(3.0)),
     Prop("opacity", Num(1.0))]
  }

  /** The style entries have distinct keys, none of them `type` or `visible`. */
  lemma ErrorBarStyleKeys(errorData: Value)
    ensures Distinct(Keys(ErrorBarStyle(errorData)))
    ensures !Has(ErrorBarStyle(errorData), "type") && !Has(ErrorBarStyle(errorData), "visible")
  {
    assert Keys(ErrorBarStyle(errorData)) == ["value", "color", "thickness", "width", "opacity"];
  }

  /** The later `type` wins and keeps the first one's place: the record is a constant error bar. */
  lemma ErrorBarTypeIsConstant(errorData: Value)
    ensures Literal(ErrorBarLiteral(errorData))
         == [Prop("type", Str("constant")), Prop("visible", Bool(true))] + ErrorBarStyle(errorData)
  {
    ErrorBarStyleKeys(errorData);
    LiteralRepeatedFirst(Prop("type", Str("data")), Prop("visible", Bool(true)), Prop("type", Str("constant")),
                         ErrorBarStyle(errorData));
  }

  /**
   * `addRelativeSizeToMarkers` of `Trace`: `{...marker, size, sizeref, sizemode}`,
   * sizes scaled so the largest is drawn 40 pixels across. Opacity is not touched.
   */
  function RelativelySized(t: Props, size: seq<Value>): (r: Props)
    requires |size| > 0 && Numbers(size)
    ensures SameExcept(t, r, {"marker"}) && Lookup(r, "marker").Obj?
    ensures Lookup(Inner(r, "marker"), "size") == Arr(size)
    ensures Lookup(Inner(r, "marker"), "sizeref") == Num(SizeRef(size, 40))
    ensures Lookup(Inner(r, "marker"), "sizemode") == Str("area")
    ensures SameExcept(Inner(t, "marker"), Inner(r, "marker"), {"size", "sizeref", "sizemode"})
  {
    MarkerSizingEntries(size);
    Merged(t, "marker", MarkerSizing(size))
  }

  /** The entries spread over the old marker by `addRelativeSizeToMarkers`, in order. */
  function MarkerSizing(size: seq<Value>): Props
    requires |size| > 0 && Numbers(size)
  {
    [Prop("size", Arr(size)), Prop("sizeref", Num(SizeRef(size, 40))), Prop("sizemode", Str("area"))]
  }

  /** The sizing entries have distinct keys, exactly the three written, each with its value. */
  lemma MarkerSizingEntries(size: seq<Value>)
    requires |size| > 0 && Numbers(size)
    ensures Distinct(Keys(MarkerSizing(size)))
    ensures forall k :: Has(MarkerSizing(size), k) <==> k in {"size", "sizeref", "sizemode"}
    ensures Lookup(MarkerSizing(size), "size") == Arr(size)
    ensures Lookup(MarkerSizing(size), "sizeref") == Num(SizeRef(size, 40))
    ensures Lookup(MarkerSizing(size), "sizemode") == Str("area")
  {
    var u := MarkerSizing(size);
    assert Keys(u) == ["size", "sizeref", "sizemode"];
    LookupAt(u, 1);
    LookupAt(u, 2);
  }

  /** A trace record: the Plotly fields are the object's own fields. */
  class Trace {
    var props: Props

    /** Name, type, scatter markers, empty x/y/z data and a visible colour scale. */
    constructor(traceType: Value, name: Value)
      ensures props == [Prop("name", name), Prop("type", traceType), Prop("mode", Str("markers")),
                        Prop("x", Arr([])), Prop("y", Arr([])), Prop("z", Arr([])), Prop("showscale", Bool(true))]
    {
      props := [Prop("name", name), Prop("type", traceType), Prop("mode", Str("markers")),
                Prop("x", Arr([])), Prop("y", Arr([])), Prop("z", Arr([])), Prop("showscale", Bool(true))];
    }

    /** Replaces `line`; unlike the other setters it returns nothing. */
    method AddDottedLine(lineWidth: Value)
      modifies this
      ensures props == Put(old(props), "line", Obj([Prop("dash", Str("dashdot")), Prop("width", lineWidth)]))
    {
      props := Put(props, "line", Obj([Prop("dash", Str("dashdot")), Prop("width", lineWidth)]));
    }

    /** Replaces `marker` wholesale. */
    method AddMarker(color: Value, opacity: Value, size: Value, lineColor: Value, lineWidth: Value) returns (self: Trace)
      modifies this
      ensures self == this
      ensures props == Put(old(props), "marker", MarkerRecord(color, opacity, size, lineColor, lineWidth))
    {
      props := Put(props, "marker", MarkerRecord(color, opacity, size, lineColor, lineWidth));
      return this;
    }

    /** Throws, changing nothing, when `size` cannot be spread into `Math.max`. */
    method AddRelativeSizeToMarkers(size: Value) returns (r: Result<Trace>)
      requires SizeArgument(size)
      modifies this
      ensures size.Arr? ==> r == Ok(this) && props == RelativelySized(old(props), size.elems)
      ensures !size.Arr? ==> r == Err(TypeError) && props == old(props)
    {
      if !size.Arr? {
        return Err(TypeError);
      }
      props := RelativelySized(props, size.elems);
      return Ok(this);
    }

    method AddErrorBars(direction: Value, errorData: Value) returns (self: Trace)
      modifies this
      ensures self == this
      ensures props == WithErrorBars(old(props), direction, Obj(Literal(ErrorBarLiteral(errorData))))
    {
      var data := Obj(Literal(ErrorBarLiteral(errorData)));
      if StrictEq(direction, Str("y")) {
        props := Put(props, "error_y", data);
      } else {
        props := Put(props, "error_x", data);
      }
      return this;
    }

    method AddValues(values: Value) returns (self: Trace)
      modifies this
      ensures self == this
      ensures props == Put(old(props), "values", values)
    {
      props := Put(props, "values", values);
      return this;
    }

    method AddLabels(labels: Value) returns (self: Trace)
      modifies this
      ensures self == this
      ensures props == Put(old(props), "labels", labels)
    {
      props := Put(props, "labels", labels);
      return this;
    }

    method AddDomain(row: Value, column: Value) returns (self: Trace)
      modifies this
      ensures self == this
      ensures props == WithDomain(old(props), row, column)
    {
      props := WithDomain(props, row, column);
      return this;
    }

    method AddOutlierDetection() returns (self: Trace)
      modifies this
      ensures self == this
      ensures props == WithOutlierDetection(old(props))
    {
      props := WithOutlierDetection(props);
      return this;
    }

    method AddUnderlyingData() returns (self: Trace)
      modifies this
      ensures self == this
      ensures props == WithUnderlyingData(old(props))
    {
      props := WithUnderlyingData(props);
      return this;
    }

    /** An empty text list; the orientation follows the trace's own type. */
    method AddText() returns (self: Trace)
      modifies this
      ensures self == this
      ensures props == WithText(old(props), Arr([]))
    {
      props := WithText(props, Arr([]));
      return this;
    }

    method AddHoverInfo() returns (self: Trace)
      modifies this
      ensures self == this
      ensures props == Put(old(props), "hoverinfo", Str("label+percent+name"))
    {
      props := Put(props, "hoverinfo", Str("label+percent+name"));
      return this;
    }

    method RemoveLegend() returns (self: Trace)
      modifies this
      ensures self == this
      ensures props == Put(old(props), "showLegend", Bool(false))
    {
      props := Put(props, "showLegend", Bool(false));
      return this;
    }

    /** `marker` keeps its entries and gets the "Jet" colour scale. */
    method ChangeColorScale() returns (self: Trace)
      modifies this
      ensures self == this
      ensures props == Merged(old(props), "marker", [Prop("colorscale", Str("Jet"))])
    {
      props := Merged(props, "marker", [Prop("colorscale", Str("Jet"))]);
      return this;
    }

    method AddCustomColorScale() returns (self: Trace)
      modifies this
      ensures self == this
      ensures props == Put(old(props), "colorscale", CustomScale)
    {
      props := Put(props, "colorscale", CustomScale);
      return this;
    }

    /** Heatmap-coloured contours with labels. */
    method AddContours() returns (self: Trace)
      modifies this
      ensures self == this
      ensures props == WithContours(old(props), Str("heatmap"), Bool(true))
    {
      props := WithContours(props, Str("heatmap"), Bool(true));
      return this;
    }

    method StyleContours() returns (self: Trace)
      modifies this
      ensures self == this
      ensures props == WithStyledContours(old(props))
    {
      props := WithStyledContours(props);
      return this;
    }
  }

  /** The fields the `PlotLayout` constructor assigns before it reaches its box-plot entry. */
  function PlotLayoutFields(): Props
  {
    [Prop("title", Str("plot title")),
     Prop("showlegend", Bool(true)),
     Prop("font", Obj([Prop("color", Str("")), Prop("size", Num(18.0))])),
     Prop("paper_bgcolor", Str("")),
     Prop("plot_bgcolor", Str("")),
     Prop("yaxis", Obj([Prop("title", Str("")), Prop("gridcolor", Str("")),
                        Prop("titlefont", Obj([Prop("family", Str("Arial, sans-serif")), Prop("size", Num(18.0)), Prop("color", Str(""))])),
                        Prop("showline", Bool(true)), Prop("zerolinecolor", Str("")), Prop("zerolinewidth", Num(2.0))])),
     // `this.xTicks` and `this.fontColor` are never assigned and read as undefined
     Prop("xaxis", Obj([Prop("title", Undef), Prop("showgrid", Bool(false)), Prop("autorange", Bool(true)),
                        Prop("gridwidth", Num(1.0)), Prop("zeroline", Bool(false)), Prop("tickangle", Num(60.0)),
                        Prop("range", Arr([])),
                        Prop("titlefont", Obj([Prop("family", Str("Arial, sans-serif")), Prop("size", Num(18.0)), Prop("color", Undef)]))])),
     Prop("legend", Obj([Prop("width", Num(500.0)), Prop("height", Num(500.0)), Prop("y", Num(0.5)), Prop("yref", Str("paper")),
                         Prop("font", Obj([Prop("family", Str("Arial, sans-serif")), Prop("size", Num(20.0)), Prop("color", Str("grey"))]))])),
     Prop("barmode", Str("stack")),
     Prop("bargap", Num(0.15)),
     Prop("bargroupgap", Num(0.1))]
  }

  /**
   * `new PlotLayout(type)`: the fields in order, then `layout = {boxmode: group}`,
   * whose `group` is declared nowhere.
   */
  function NewPlotLayout(layoutType: Value): (r: Result<Props>)
    ensures r.Ok? <==> "group" in ModuleScope
    ensures r.Err? ==> r.error == ReferenceError
  {
    match Identifier(ModuleScope, "group")
    case Err(e) => Err(e)
    case Ok(group) => Ok(Put(PlotLayoutFields(), "layout", Obj([Prop("boxmode", group)])))
  }

  /** Construction always throws a ReferenceError. */
  lemma PlotLayoutNeverConstructed(layoutType: Value)
    ensures NewPlotLayout(layoutType) == Err(ReferenceError)
  {
  }

  /**
   * `new PlotlyInterface(canvasID)`: empty plot data, then a `PlotLayout("scatter")`,
   * then the configuration. The layout's error propagates.
   */
  function NewPlotlyInterface(canvasID: Value): (r: Result<Props>)
    ensures r.Err? <==> NewPlotLayout(Str("scatter")).Err?
  {
    match NewPlotLayout(Str("scatter"))
    case Err(e) => Err(e)
    case Ok(layout) => Ok([Prop("canvasID", canvasID), Prop("plotData", Arr([])), Prop("layout", Obj(layout))])
  }

  /** No `PlotlyInterface` of this file can be constructed. */
  lemma PlotlyInterfaceNeverConstructed(canvasID: Value)
    ensures NewPlotlyInterface(canvasID) == Err(ReferenceError)
  {
    PlotLayoutNeverConstructed(Str("scatter"));
  }

  /**
   * `addTrace(type, name)`: a box trace reads the undeclared `seeUnderlyingData`
   * and throws; any other type is pushed.
   */
  function AddTraceOutcome(traceType: Value): (c: Completion)
    ensures c.Abrupt? <==> traceType == Str("box")
    ensures c.Abrupt? ==> c.error == ReferenceError
  {
    if StrictEq(traceType, Str("box")) then
      match Identifier(ModuleScope, "seeUnderlyingData")
      case Err(e) => Abrupt(e)
      case Ok(_) => Normal
    else Normal
  }

  /**
   * `addDimension(axis, …)`: for the "x" axis it writes through `this.trace`,
   * which is undefined, and throws; for any other axis it does nothing.
   */
  function AddDimensionOutcome(axis: Value): (c: Completion)
    ensures c.Abrupt? <==> axis == Str("x")
    ensures c.Abrupt? ==> c.error == TypeError
  {
    if StrictEq(axis, Str("x")) then
      match SetProp(Undef, "x", Undef)
      case Err(e) => Abrupt(e)
      case Ok(_) => Normal
    else Normal
  }
}
