/**
 * `LayoutBuilder`: a Plotly layout built a property at a time on the builder
 * object itself; `buildLayout` hands back the builder as the layout. Axis
 * settings go through `updateAxis`, which writes into `xaxis`, `yaxis` or a
 * fresh `scene`. The builder never creates `xaxis` or `yaxis`, so on its own
 * records every axis setting throws.
 */
module LayoutBuilding {
  import opened Js
  import opened LayoutOps

  /** Names bound at module level in the layout builder's file: none that its methods read. */
  const ModuleScope: map<string, Value> := map[]

  /** The layout after a nested write, and whether the write completed or threw. */
  datatype AxisWrite = AxisWrite(layout: Props, outcome: Completion)

  /**
   * `this[field][key] = v` in strict code: sets the entry of an axis object,
   * is accepted without effect on an array, and throws on anything else.
   */
  function FieldWrite(p: Props, field: string, key: string, v: Value): (w: AxisWrite)
    ensures Lookup(p, field).Obj? ==>
              w.outcome == Normal && SameExcept(p, w.layout, {field}) && Lookup(w.layout, field).Obj? &&
              Lookup(Inner(w.layout, field), key) == v &&
              SameExcept(Inner(p, field), Inner(w.layout, field), {key})
    ensures Lookup(p, field).Arr? ==> w == AxisWrite(p, Normal)
    ensures !Lookup(p, field).Obj? && !Lookup(p, field).Arr? ==> w == AxisWrite(p, Abrupt(TypeError))
  {
    var target := Lookup(p, field);
    if target.Arr? then AxisWrite(p, Normal)
    else
      match SetProp(target, key, v)
      case Ok(o) => AxisWrite(Put(p, field, o), Normal)
      case Err(e) => AxisWrite(p, Abrupt(e))
  }

  /** A nested write leaves the layout's other properties and the axis object's other entries as they were. */
  lemma FieldWriteKeeps(p: Props, field: string, key: string, v: Value, j: string, k: string)
    ensures j != field ==> Lookup(FieldWrite(p, field, key, v).layout, j) == Lookup(p, j)
    ensures k != key ==> Lookup(Inner(FieldWrite(p, field, key, v).layout, field), k) == Lookup(Inner(p, field), k)
  {
  }

  /**
   * `updateAxis(axis, key, value)`: "y" writes into `yaxis`, "x" into `xaxis`;
   * any other axis first replaces `scene` by `{xaxis, yaxis}` and then throws,
   * because that scene has no `zaxis` to write into.
   */
  function AxisUpdate(p: Props, axis: Value, key: string, v: Value): (w: AxisWrite)
    ensures axis == Str("y") ==> w == FieldWrite(p, "yaxis", key, v)
    ensures axis == Str("x") ==> w == FieldWrite(p, "xaxis", key, v)
    ensures axis != Str("x") && axis != Str("y") ==>
              w.outcome == Abrupt(TypeError) && SameExcept(p, w.layout, {"scene"}) &&
              Lookup(w.layout, "scene") == Obj([Prop("xaxis", Lookup(p, "xaxis")), Prop("yaxis", Lookup(p, "yaxis"))])
  {
    if StrictEq(axis, Str("y")) then FieldWrite(p, "yaxis", key, v)
    else if StrictEq(axis, Str("x")) then FieldWrite(p, "xaxis", key, v)
    else
      var scene := Obj([Prop("xaxis", Lookup(p, "xaxis")), Prop("yaxis", Lookup(p, "yaxis"))]);
      assert Keys(scene.props) == ["xaxis", "yaxis"];
      LookupAbsent(scene.props, "zaxis");
      var zaxis := Lookup(scene.props, "zaxis");
      match SetProp(zaxis, key, v)
      case Ok(_) => AxisWrite(Put(p, "scene", scene), Normal)
      case Err(e) => AxisWrite(Put(p, "scene", scene), Abrupt(e))
  }

  /** No `xaxis` and no `yaxis`: what every record the builder produces satisfies. */
  predicate AxesUnset(p: Props)
  {
    Lookup(p, "xaxis") == Undef && Lookup(p, "yaxis") == Undef
  }

  /** Without axis objects, every axis update throws, and the failed update creates none. */
  lemma AxisUpdateThrows(p: Props, axis: Value, key: string, v: Value)
    requires AxesUnset(p)
    ensures AxisUpdate(p, axis, key, v).outcome == Abrupt(TypeError)
    ensures AxesUnset(AxisUpdate(p, axis, key, v).layout)
  {
  }

  /**
   * `removeGrid` writes the misspelt key "shogrid", so whatever the axis and
   * whatever the outcome, the axis's `showgrid` entry reads as before.
   */
  lemma RemoveGridKeepsShowgrid(p: Props, axis: Value)
    ensures var w := AxisUpdate(p, axis, "shogrid", Bool(false));
            Lookup(Inner(w.layout, "xaxis"), "showgrid") == Lookup(Inner(p, "xaxis"), "showgrid") &&
            Lookup(Inner(w.layout, "yaxis"), "showgrid") == Lookup(Inner(p, "yaxis"), "showgrid")
  {
    if axis == Str("y") || axis == Str("x") {
      var f := if axis == Str("y") then "yaxis" else "xaxis";
      var other := if axis == Str("y") then "xaxis" else "yaxis";
      FieldWriteKeeps(p, f, "shogrid", Bool(false), other, "showgrid");
    } else {
      var w := AxisUpdate(p, axis, "shogrid", Bool(false));
      assert Lookup(w.layout, "xaxis") == Lookup(p, "xaxis");
      assert Lookup(w.layout, "yaxis") == Lookup(p, "yaxis");
    }
  }

  /** The record `styleFont` installs, keys in the order color, family, size. */
  function StyledFont(color: Value, family: Value, size: Value): (f: Value)
    ensures f.Obj? && Keys(f.props) == ["color", "family", "size"]
    ensures Lookup(f.props, "color") == color && Lookup(f.props, "family") == family
    ensures Lookup(f.props, "size") == size
  {
    var p := [Prop("color", color), Prop("family", family), Prop("size", size)];
    assert Keys(p[1..]) == ["family", "size"];
    assert Lookup(p, "size") == Lookup(p[1..], "size") == Lookup(p[1..][1..], "size");
    Obj(p)
  }

  /** `styleBgColor`: the paper colour and the plot-area colour. */
  function BgColored(p: Props, paperColor: Value, plotBgColor: Value): (r: Props)
    ensures Lookup(r, "paper_bgcolor") == paperColor && Lookup(r, "plot_bgcolor") == plotBgColor
    ensures SameExcept(p, r, {"paper_bgcolor", "plot_bgcolor"})
  {
    Put(Put(p, "paper_bgcolor", paperColor), "plot_bgcolor", plotBgColor)
  }

  /** Styling the font a second time with the same arguments changes nothing. */
  lemma StyleFontIdempotent(p: Props, color: Value, family: Value, size: Value)
    ensures var f := StyledFont(color, family, size);
            Put(Put(p, "font", f), "font", f) == Put(p, "font", f)
  {
    var f := StyledFont(color, family, size);
    PutPut(p, "font", f, f);
  }

  /** Setting the same background colours a second time changes nothing. */
  lemma BgColoredIdempotent(p: Props, paperColor: Value, plotBgColor: Value)
    ensures BgColored(BgColored(p, paperColor, plotBgColor), paperColor, plotBgColor) == BgColored(p, paperColor, plotBgColor)
  {
    var p1 := Put(p, "paper_bgcolor", paperColor);
    var r := Put(p1, "plot_bgcolor", plotBgColor);
    PutKeys(p, "paper_bgcolor", paperColor);
    PutKeys(p1, "plot_bgcolor", plotBgColor);
    PutExisting(r, "paper_bgcolor");
    PutExisting(r, "plot_bgcolor");
  }

  class LayoutBuilder {
    /** The layout's properties, which are the builder's own. */
    var props: Props

    predicate NoAxes()
      reads this
    {
      AxesUnset(props)
    }

    /** A layout holding only its title. */
    constructor(title: Value)
      ensures props == [Prop("title", title)]
      ensures NoAxes()
    {
      props := [Prop("title", title)];
    }

    /** Returns the builder when the write completes, the error when it throws. */
    method UpdateAxis(axis: Value, key: string, value: Value) returns (r: Result<LayoutBuilder>)
      modifies this
      ensures props == AxisUpdate(old(props), axis, key, value).layout
      ensures AxisUpdate(old(props), axis, key, value).outcome == Normal ==> r == Ok(this)
      ensures AxisUpdate(old(props), axis, key, value).outcome.Abrupt? ==>
                r == Err(AxisUpdate(old(props), axis, key, value).outcome.error)
      ensures old(NoAxes()) ==> NoAxes() && r == Err(TypeError)
    {
      var w := AxisUpdate(props, axis, key, value);
      if NoAxes() {
        AxisUpdateThrows(props, axis, key, value);
      }
      props := w.layout;
      match w.outcome
      case Normal => r := Ok(this);
      case Abrupt(e) => r := Err(e);
    }

    method StyleFont(color: Value, family: Value, size: Value) returns (self: LayoutBuilder)
      modifies this
      ensures self == this
      ensures props == Put(old(props), "font", StyledFont(color, family, size))
      ensures old(NoAxes()) ==> NoAxes()
    {
      props := Put(props, "font", StyledFont(color, family, size));
      return this;
    }

    method StyleBgColor(paperColor: Value, plotBgColor: Value) returns (self: LayoutBuilder)
      modifies this
      ensures self == this
      ensures props == BgColored(old(props), paperColor, plotBgColor)
      ensures old(NoAxes()) ==> NoAxes()
    {
      props := BgColored(props, paperColor, plotBgColor);
      return this;
    }

    method AddGrid(gridcolor: Value, axis: Value) returns (r: Result<LayoutBuilder>)
      modifies this
      ensures props == AxisUpdate(old(props), axis, "gridcolor", gridcolor).layout
      ensures r.Ok? <==> AxisUpdate(old(props), axis, "gridcolor", gridcolor).outcome == Normal
      ensures r.Ok? ==> r.value == this
      ensures old(NoAxes()) ==> NoAxes() && r == Err(TypeError)
    {
      r := UpdateAxis(axis, "gridcolor", gridcolor);
    }

    /**
     * Reads a variable `axis` that is not in scope: throws ReferenceError
     * before any write.
     */
    method StyleAxis(showline: Value, gridwidth: Value, showgrid: Value, zerolinewidth: Value, autorange: Value)
      returns (r: Result<LayoutBuilder>)
      modifies this
      ensures r == Err(ReferenceError) && props == old(props)
    {
      var axis := Identifier(ModuleScope, "axis");
      r := Err(axis.error);
    }

    /**
     * Stores the font record under `data`, then reads a variable `data` that
     * is not in scope and throws ReferenceError.
     */
    method StyleAxisFont(axis: Value, family: Value, size: Value, color: Value) returns (r: Result<LayoutBuilder>)
      modifies this
      ensures r == Err(ReferenceError) && props == Put(old(props), "data", FontRecord(family, size, color))
      ensures old(NoAxes()) ==> NoAxes()
    {
      props := Put(props, "data", FontRecord(family, size, color));
      var data := Identifier(ModuleScope, "data");
      r := Err(data.error);
    }

    method AddAxis(title: Value, axis: Value) returns (r: Result<LayoutBuilder>)
      modifies this
      ensures props == AxisUpdate(old(props), axis, "title", title).layout
      ensures r.Ok? <==> AxisUpdate(old(props), axis, "title", title).outcome == Normal
      ensures r.Ok? ==> r.value == this
      ensures old(NoAxes()) ==> NoAxes() && r == Err(TypeError)
    {
      r := UpdateAxis(axis, "title", title);
    }

    method AddLogScale(axis: Value) returns (r: Result<LayoutBuilder>)
      modifies this
      ensures props == AxisUpdate(old(props), axis, "type", Str("log")).layout
      ensures r.Ok? <==> AxisUpdate(old(props), axis, "type", Str("log")).outcome == Normal
      ensures r.Ok? ==> r.value == this
      ensures old(NoAxes()) ==> NoAxes() && r == Err(TypeError)
    {
      r := UpdateAxis(axis, "type", Str("log"));
    }

    method AddMargin(l: Value, r: Value, b: Value, t: Value, pad: Value) returns (self: LayoutBuilder)
      modifies this
      ensures self == this
      ensures props == Put(old(props), "margin", MarginRecord(l, r, b, t, pad))
      ensures old(NoAxes()) ==> NoAxes()
    {
      props := Put(props, "margin", MarginRecord(l, r, b, t, pad));
      return this;
    }

    /** Writes "shogrid", not "showgrid": see `RemoveGridKeepsShowgrid`. */
    method RemoveGrid(axis: Value) returns (r: Result<LayoutBuilder>)
      modifies this
      ensures props == AxisUpdate(old(props), axis, "shogrid", Bool(false)).layout
      ensures r.Ok? <==> AxisUpdate(old(props), axis, "shogrid", Bool(false)).outcome == Normal
      ensures r.Ok? ==> r.value == this
      ensures old(NoAxes()) ==> NoAxes() && r == Err(TypeError)
    {
      r := UpdateAxis(axis, "shogrid", Bool(false));
    }

    method RemoveZeroLine(axis: Value) returns (r: Result<LayoutBuilder>)
      modifies this
      ensures props == AxisUpdate(old(props), axis, "zeroline", Bool(false)).layout
      ensures r.Ok? <==> AxisUpdate(old(props), axis, "zeroline", Bool(false)).outcome == Normal
      ensures r.Ok? ==> r.value == this
      ensures old(NoAxes()) ==> NoAxes() && r == Err(TypeError)
    {
      r := UpdateAxis(axis, "zeroline", Bool(false));
    }

    method AddLegend() returns (self: LayoutBuilder)
      modifies this
      ensures self == this
      ensures props == WithLegend(old(props))
      ensures old(NoAxes()) ==> NoAxes()
    {
      props := WithLegend(props);
      return this;
    }

    method StyleBarChart(barmode: Value) returns (self: LayoutBuilder)
      modifies this
      ensures self == this
      ensures props == BarChartStyled(old(props), barmode)
      ensures old(NoAxes()) ==> NoAxes()
    {
      props := BarChartStyled(props, barmode);
      return this;
    }

    method StyleHistograms(barmode: Value) returns (self: LayoutBuilder)
      modifies this
      ensures self == this
      ensures props == HistogramsStyled(old(props), barmode)
      ensures old(NoAxes()) ==> NoAxes()
    {
      props := HistogramsStyled(props, barmode);
      return this;
    }

    method StyleBoxPlot() returns (self: LayoutBuilder)
      modifies this
      ensures self == this
      ensures props == BoxPlotStyled(old(props))
      ensures old(NoAxes()) ==> NoAxes()
    {
      props := BoxPlotStyled(props);
      return this;
    }

    /** The layout is the builder itself. */
    method BuildLayout() returns (self: LayoutBuilder)
      ensures self == this && self.props == props
    {
      return this;
    }
  }
}
