/**
 * `TraceBuilder`: builds one Plotly trace record a field at a time. Every
 * setter writes into the record the builder currently refers to and returns
 * the builder itself, so calls chain. `addTraceData` makes the builder refer
 * to a record it is given, so later setters change that record in place.
 */
module TraceBuilding {
  import opened Js
  import opened TraceOps

  /** The marker `addMarker` installs: opacity 0.8 and the symbol, "circle" when none is given. */
  function MarkerPreset(symbol: Value): (m: Value)
    ensures m.Obj? && Keys(m.props) == ["opacity", "symbol"]
    ensures Lookup(m.props, "opacity") == Num(0.8)
    ensures symbol == Undef ==> Lookup(m.props, "symbol") == Str("circle")
    ensures symbol != Undef ==> Lookup(m.props, "symbol") == symbol
  {
    var m := [Prop("opacity", Num(0.8)), Prop("symbol", if StrictEq(symbol, Undef) then Str("circle") else symbol)];
    assert Keys(m[1..]) == ["symbol"];
    Obj(m)
  }

  /**
   * `this.trace.marker.showscale = true`: sets the flag inside an existing
   * marker object; throws when there is no marker or it is a primitive. An
   * array marker accepts the write, but arrays carry no named properties here.
   */
  function ScaleShown(t: Props): (r: Result<Props>)
    ensures r.Err? <==> !Lookup(t, "marker").Obj? && !Lookup(t, "marker").Arr?
    ensures r.Err? ==> r.error == TypeError
    ensures Lookup(t, "marker").Obj? ==>
              r.Ok? && SameExcept(t, r.value, {"marker"}) && Lookup(r.value, "marker").Obj? &&
              Lookup(Inner(r.value, "marker"), "showscale") == Bool(true) &&
              SameExcept(Inner(t, "marker"), Inner(r.value, "marker"), {"showscale"})
    ensures Lookup(t, "marker").Arr? ==> r == Ok(t)
  {
    var marker := Lookup(t, "marker");
    if marker.Arr? then Ok(t)
    else
      var m :- SetProp(marker, "showscale", Bool(true));
      Ok(Put(t, "marker", m))
  }

  /** Showing the scale of a marker object leaves its other entries and the trace's other keys as they were. */
  lemma ScaleShownKeeps(t: Props, k: string)
    requires Lookup(t, "marker").Obj?
    ensures ScaleShown(t).Ok? && Lookup(ScaleShown(t).value, "marker").Obj?
    ensures Lookup(Inner(ScaleShown(t).value, "marker"), "showscale") == Bool(true)
    ensures k != "showscale" ==> Lookup(Inner(ScaleShown(t).value, "marker"), k) == Lookup(Inner(t, "marker"), k)
    ensures k != "marker" ==> Lookup(ScaleShown(t).value, k) == Lookup(t, k)
  {
  }

  /**
   * `addRelativeSizeToMarkers`: `{...marker, opacity, size, sizeref, sizemode}`,
   * the old entries copied and the four written in order; opacity 0.6 and
   * sizes scaled so the largest is drawn 65 pixels across.
   */
  function RelativelySized(t: Props, size: seq<Value>): (r: Props)
    requires |size| > 0 && Numbers(size)
    ensures SameExcept(t, r, {"marker"}) && Lookup(r, "marker").Obj?
    ensures Lookup(Inner(r, "marker"), "opacity") == Num(0.6)
    ensures Lookup(Inner(r, "marker"), "size") == Arr(size)
    ensures Lookup(Inner(r, "marker"), "sizeref") == Num(SizeRef(size, 65))
    ensures Lookup(Inner(r, "marker"), "sizemode") == Str("area")
    ensures SameExcept(Inner(t, "marker"), Inner(r, "marker"), {"opacity", "size", "sizeref", "sizemode"})
  {
    MarkerSizingEntries(size);
    Merged(t, "marker", MarkerSizing(size))
  }

  /** The entries spread over the old marker by `addRelativeSizeToMarkers`, in order. */
  function MarkerSizing(size: seq<Value>): Props
    requires |size| > 0 && Numbers(size)
  {
    [Prop("opacity", Num(0.6)), Prop("size", Arr(size)), Prop("sizeref", Num(SizeRef(size, 65))),
     Prop("sizemode", Str("area"))]
  }

  /** The sizing entries have distinct keys, exactly the four written, each with its value. */
  lemma MarkerSizingEntries(size: seq<Value>)
    requires |size| > 0 && Numbers(size)
    ensures Distinct(Keys(MarkerSizing(size)))
    ensures forall k :: Has(MarkerSizing(size), k) <==> k in {"opacity", "size", "sizeref", "sizemode"}
    ensures Lookup(MarkerSizing(size), "opacity") == Num(0.6)
    ensures Lookup(MarkerSizing(size), "size") == Arr(size)
    ensures Lookup(MarkerSizing(size), "sizeref") == Num(SizeRef(size, 65))
    ensures Lookup(MarkerSizing(size), "sizemode") == Str("area")
  {
    var u := MarkerSizing(size);
    assert Keys(u) == ["opacity", "size", "sizeref", "sizemode"];
    LookupAt(u, 1);
    LookupAt(u, 2);
    LookupAt(u, 3);
  }

  /** The error-bar record of `addErrorBars`: the given type and value in a fixed style. */
  function ErrorBarRecord(barType: Value, value: Value): Value
  {
    Obj([Prop("type", barType), Prop("visible", Bool(true)), Prop("value", value), Prop("color", Str("#85144B")),
         Prop("thickness", Num(1.5)), Prop("width", Num(3.0)), Prop("opacity", Num(1.0))])
  }

  class TraceBuilder {
    /** The record being built; `addTraceData` makes it refer to another one. */
    var trace: JsObject

    /** A new record whose only properties are `name` and `type`, in that order. */
    constructor(traceType: Value, name: Value)
      ensures fresh(trace)
      ensures trace.props == [Prop("name", name), Prop("type", traceType)]
    {
      trace := new JsObject([Prop("name", name), Prop("type", traceType)]);
    }

    method AddMode(mode: Value) returns (self: TraceBuilder)
      modifies trace
      ensures self == this
      ensures trace.props == Put(old(trace.props), "mode", mode)
    {
      trace.props := Put(trace.props, "mode", mode);
      return this;
    }

    /** A falsy fill type falls back to "tonexity". */
    method AddFill(fillType: Value) returns (self: TraceBuilder)
      modifies trace
      ensures self == this
      ensures Falsy(fillType) ==> trace.props == Put(old(trace.props), "fill", Str("tonexity"))
      ensures !Falsy(fillType) ==> trace.props == Put(old(trace.props), "fill", fillType)
    {
      var fill := fillType;
      if Falsy(fill) {
        fill := Str("tonexity");
      }
      trace.props := Put(trace.props, "fill", fill);
      return this;
    }

    method AddLine() returns (self: TraceBuilder)
      modifies trace
      ensures self == this
      ensures trace.props == Put(old(trace.props), "line", Obj([Prop("dash", Str("solid")), Prop("width", Str("5"))]))
    {
      trace.props := Put(trace.props, "line", Obj([Prop("dash", Str("solid")), Prop("width", Str("5"))]));
      return this;
    }

    /** The data goes to `z` for "z", to `y` for "y", and to `x` for any other axis name. */
    method AddAxis(axis: Value, axisData: Value) returns (self: TraceBuilder)
      modifies trace
      ensures self == this
      ensures trace.props == Put(old(trace.props), AxisKey(axis), axisData)
    {
      if StrictEq(axis, Str("z")) {
        trace.props := Put(trace.props, "z", axisData);
      } else if StrictEq(axis, Str("y")) {
        trace.props := Put(trace.props, "y", axisData);
      } else {
        trace.props := Put(trace.props, "x", axisData);
      }
      return this;
    }

    /** `line` keeps its entries and becomes dash-dotted. */
    method AddDottedLine() returns (self: TraceBuilder)
      modifies trace
      ensures self == this
      ensures trace.props == Merged(old(trace.props), "line", [Prop("dash", Str("dashdot"))])
    {
      trace.props := Merged(trace.props, "line", [Prop("dash", Str("dashdot"))]);
      return this;
    }

    /** `marker` keeps its entries and gets a fresh `line` of width "5". */
    method AddMarkerLine() returns (self: TraceBuilder)
      modifies trace
      ensures self == this
      ensures trace.props == Merged(old(trace.props), "marker", [Prop("line", Obj([Prop("width", Str("5"))]))])
    {
      trace.props := Merged(trace.props, "marker", [Prop("line", Obj([Prop("width", Str("5"))]))]);
      return this;
    }

    method AddOrientation(orientation: Value) returns (self: TraceBuilder)
      modifies trace
      ensures self == this
      ensures trace.props == Put(old(trace.props), "orientation", orientation)
    {
      trace.props := Put(trace.props, "orientation", orientation);
      return this;
    }

    /** Throws, changing nothing, unless the trace already has a marker to write into. */
    method AddColorScale() returns (r: Result<TraceBuilder>)
      modifies trace
      ensures ScaleShown(old(trace.props)).Ok? ==> r == Ok(this) && trace.props == ScaleShown(old(trace.props)).value
      ensures ScaleShown(old(trace.props)).Err? ==> r == Err(TypeError) && trace.props == old(trace.props)
    {
      var shown := ScaleShown(trace.props);
      if shown.Err? {
        return Err(shown.error);
      }
      trace.props := shown.value;
      return Ok(this);
    }

    /** Replaces `marker` wholesale. */
    method AddMarker(symbol: Value) returns (self: TraceBuilder)
      modifies trace
      ensures self == this
      ensures trace.props == Put(old(trace.props), "marker", MarkerPreset(symbol))
    {
      trace.props := Put(trace.props, "marker", MarkerPreset(symbol));
      return this;
    }

    /** Throws, changing nothing, when `size` cannot be spread into `Math.max`. */
    method AddRelativeSizeToMarkers(size: Value) returns (r: Result<TraceBuilder>)
      requires SizeArgument(size)
      modifies trace
      ensures size.Arr? ==> r == Ok(this) && trace.props == RelativelySized(old(trace.props), size.elems)
      ensures !size.Arr? ==> r == Err(TypeError) && trace.props == old(trace.props)
    {
      if !size.Arr? {
        return Err(TypeError);
      }
      trace.props := RelativelySized(trace.props, size.elems);
      return Ok(this);
    }

    method AddErrorBars(barType: Value, direction: Value, value: Value) returns (self: TraceBuilder)
      modifies trace
      ensures self == this
      ensures trace.props == WithErrorBars(old(trace.props), direction, ErrorBarRecord(barType, value))
    {
      var data := ErrorBarRecord(barType, value);
      if StrictEq(direction, Str("y")) {
        trace.props := Put(trace.props, "error_y", data);
      } else {
        trace.props := Put(trace.props, "error_x", data);
      }
      return this;
    }

    method AddValues(values: Value) returns (self: TraceBuilder)
      modifies trace
      ensures self == this
      ensures trace.props == Put(old(trace.props), "values", values)
    {
      trace.props := Put(trace.props, "values", values);
      return this;
    }

    method AddLabels(labels: Value) returns (self: TraceBuilder)
      modifies trace
      ensures self == this
      ensures trace.props == Put(old(trace.props), "labels", labels)
    {
      trace.props := Put(trace.props, "labels", labels);
      return this;
    }

    method AddDomain(row: Value, column: Value) returns (self: TraceBuilder)
      modifies trace
      ensures self == this
      ensures trace.props == WithDomain(old(trace.props), row, column)
    {
      trace.props := WithDomain(trace.props, row, column);
      return this;
    }

    method AddOutlierDetection() returns (self: TraceBuilder)
      modifies trace
      ensures self == this
      ensures trace.props == WithOutlierDetection(old(trace.props))
    {
      trace.props := WithOutlierDetection(trace.props);
      return this;
    }

    method AddUnderlyingData() returns (self: TraceBuilder)
      modifies trace
      ensures self == this
      ensures trace.props == WithUnderlyingData(old(trace.props))
    {
      trace.props := Put(trace.props, "boxpoints", Str("all"));
      trace.props := Put(trace.props, "jitter", Num(0.3));
      trace.props := Put(trace.props, "pointpos", Num(-1.8));
      return this;
    }

    method AddBoxPoints(boxpoints: Value) returns (self: TraceBuilder)
      modifies trace
      ensures self == this
      ensures trace.props == Put(old(trace.props), "boxpoints", boxpoints)
    {
      trace.props := Put(trace.props, "boxpoints", boxpoints);
      return this;
    }

    method AddText(text: Value) returns (self: TraceBuilder)
      modifies trace
      ensures self == this
      ensures trace.props == WithText(old(trace.props), text)
    {
      trace.props := WithText(trace.props, text);
      return this;
    }

    method AddHoverInfo(hoverinfo: Value) returns (self: TraceBuilder)
      modifies trace
      ensures self == this
      ensures trace.props == Put(old(trace.props), "hoverinfo", hoverinfo)
    {
      trace.props := Put(trace.props, "hoverinfo", hoverinfo);
      return this;
    }

    /** Writes `showLegend` (capital L), the key the code uses. */
    method RemoveLegend() returns (self: TraceBuilder)
      modifies trace
      ensures self == this
      ensures trace.props == Put(old(trace.props), "showLegend", Bool(false))
    {
      trace.props := Put(trace.props, "showLegend", Bool(false));
      return this;
    }

    method AddColor(color: Value) returns (self: TraceBuilder)
      modifies trace
      ensures self == this
      ensures trace.props == Merged(old(trace.props), "marker", [Prop("color", color)])
    {
      trace.props := Merged(trace.props, "marker", [Prop("color", color)]);
      return this;
    }

    method ChangeColorScale(colorscale: Value) returns (self: TraceBuilder)
      modifies trace
      ensures self == this
      ensures trace.props == Merged(old(trace.props), "marker", [Prop("colorscale", colorscale)])
    {
      trace.props := Merged(trace.props, "marker", [Prop("colorscale", colorscale)]);
      return this;
    }

    method AddCustomColorScale() returns (self: TraceBuilder)
      modifies trace
      ensures self == this
      ensures trace.props == Put(old(trace.props), "colorscale", CustomScale)
    {
      trace.props := Put(trace.props, "colorscale", CustomScale);
      return this;
    }

    method AddContours(coloring: Value, showlabels: Value) returns (self: TraceBuilder)
      modifies trace
      ensures self == this
      ensures trace.props == WithContours(old(trace.props), coloring, showlabels)
    {
      trace.props := WithContours(trace.props, coloring, showlabels);
      return this;
    }

    method AddStyledContours() returns (self: TraceBuilder)
      modifies trace
      ensures self == this
      ensures trace.props == WithStyledContours(old(trace.props))
    {
      trace.props := WithStyledContours(trace.props);
      return this;
    }

    /** The builder now refers to `data` itself: no copy and no merge. */
    method AddTraceData(data: JsObject) returns (self: TraceBuilder)
      modifies this
      ensures self == this
      ensures trace == data && trace.props == old(data.props)
    {
      trace := data;
      return this;
    }

    /** The record itself, as built so far. */
    method BuildTrace() returns (t: JsObject)
      ensures t == trace && t.props == trace.props
    {
      return trace;
    }
  }
}
