/**
 * `PlotLayout`: a Plotly layout whose constructor sets the title, the legend
 * switch, the font and the two background colours, and whose methods add
 * axis records, flags inside them, a 3-D scene and the shared presets. Flags
 * are added by spreading the old axis record into a new one, so entries the
 * record already has keep their place.
 */
module PlotLayouts {
  import opened Js
  import opened LayoutOps

  /** The y-axis record of `addYaxis`: title and grid colour, 18-point Arial title font, line and autorange on. */
  function YAxisRecord(title: Value, fontColor: Value, gridColor: Value): (a: Value)
    ensures a.Obj? && Distinct(Keys(a.props))
    ensures Keys(a.props) == ["title", "gridcolor", "titlefont", "showline", "gridwidth", "zerolinewidth", "autorange"]
    ensures Lookup(a.props, "title") == title && Lookup(a.props, "gridcolor") == gridColor
    ensures Lookup(a.props, "titlefont") == FontRecord(Str("Arial, sans-serif"), Num(18.0), fontColor)
    ensures Lookup(a.props, "autorange") == Bool(true)
  {
    var p := [Prop("title", title), Prop("gridcolor", gridColor),
              Prop("titlefont", FontRecord(Str("Arial, sans-serif"), Num(18.0), fontColor)),
              Prop("showline", Bool(true)), Prop("gridwidth", Num(1.0)), Prop("zerolinewidth", Num(2.0)),
              Prop("autorange", Bool(true))];
    assert Keys(p) == ["title", "gridcolor", "titlefont", "showline", "gridwidth", "zerolinewidth", "autorange"];
    LookupAt(p, 1);
    LookupAt(p, 2);
    LookupAt(p, 6);
    Obj(p)
  }

  /** The x-axis record of `addXaxis`: like the y axis, but with the grid and the zero line shown. */
  function XAxisRecord(title: Value, fontColor: Value, gridColor: Value): (a: Value)
    ensures a.Obj? && Distinct(Keys(a.props))
    ensures Keys(a.props) == ["gridcolor", "title", "showgrid", "autorange", "gridwidth", "zeroline", "titlefont",
                              "showline", "zerolinewidth"]
    ensures Lookup(a.props, "title") == title && Lookup(a.props, "gridcolor") == gridColor
    ensures Lookup(a.props, "titlefont") == FontRecord(Str("Arial, sans-serif"), Num(18.0), fontColor)
    ensures Lookup(a.props, "showgrid") == Bool(true) && Lookup(a.props, "zeroline") == Bool(true)
  {
    var p := [Prop("gridcolor", gridColor), Prop("title", title), Prop("showgrid", Bool(true)),
              Prop("autorange", Bool(true)), Prop("gridwidth", Num(1.0)), Prop("zeroline", Bool(true)),
              Prop("titlefont", FontRecord(Str("Arial, sans-serif"), Num(18.0), fontColor)),
              Prop("showline", Bool(true)), Prop("zerolinewidth", Num(2.0))];
    assert Keys(p) == ["gridcolor", "title", "showgrid", "autorange", "gridwidth", "zeroline", "titlefont",
                       "showline", "zerolinewidth"];
    LookupAt(p, 1);
    LookupAt(p, 2);
    LookupAt(p, 5);
    LookupAt(p, 6);
    Obj(p)
  }

  /**
   * `this[axisKey] = {...this[axisKey], flag: v}`: a new axis record holding
   * the old entries and the flag; an entry the old record already had keeps
   * its place, a new one goes last.
   */
  function AxisFlagged(p: Props, axisKey: string, flag: string, v: Value): (r: Props)
    ensures SameExcept(p, r, {axisKey}) && Lookup(r, axisKey).Obj?
    ensures Lookup(Inner(r, axisKey), flag) == v
    ensures SameExcept(Inner(p, axisKey), Inner(r, axisKey), {flag})
    ensures Keys(Inner(r, axisKey)) == if Has(Inner(p, axisKey), flag) then Keys(Inner(p, axisKey))
                                      else Keys(Inner(p, axisKey)) + [flag]
  {
    var u := [Prop(flag, v)];
    var q := Inner(p, axisKey);
    PutAllStep(q, u);
    assert PutAll(q, u) == Put(q, flag, v);
    PutKeys(q, flag, v);
    Merged(p, axisKey, u)
  }

  /** Adding the same flag a second time changes nothing. */
  lemma AxisFlaggedIdempotent(p: Props, axisKey: string, flag: string, v: Value)
    ensures AxisFlagged(AxisFlagged(p, axisKey, flag, v), axisKey, flag, v) == AxisFlagged(p, axisKey, flag, v)
  {
    var u := [Prop(flag, v)];
    var q := Inner(p, axisKey);
    PutAllStep(q, u);
    var r := AxisFlagged(p, axisKey, flag, v);
    assert r == Put(p, axisKey, Obj(Put(q, flag, v)));
    var q' := Inner(r, axisKey);
    assert q' == Put(q, flag, v);
    PutAllStep(q', u);
    PutPut(q, flag, v, v);
    assert AxisFlagged(r, axisKey, flag, v) == Put(r, axisKey, Obj(Put(q, flag, v)));
    PutPut(p, axisKey, Obj(Put(q, flag, v)), Obj(Put(q, flag, v)));
  }

  /** Flagging an axis leaves every other entry of its record as it was. */
  lemma AxisFlaggedKeeps(p: Props, axisKey: string, flag: string, v: Value, k: string)
    requires k != flag
    ensures Lookup(Inner(AxisFlagged(p, axisKey, flag, v), axisKey), k) == Lookup(Inner(p, axisKey), k)
  {
  }

  /** Flagging an axis leaves every other property of the layout as it was. */
  lemma AxisFlaggedElsewhere(p: Props, axisKey: string, flag: string, v: Value, k: string)
    requires k != axisKey
    ensures Lookup(AxisFlagged(p, axisKey, flag, v), k) == Lookup(p, k)
  {
  }

  /**
   * `removeXGrid` adds the misspelt flag "showgriid": an x axis installed by
   * `addXaxis` still shows its grid afterwards, while `removeYGrid` does hide
   * the grid of the y axis.
   */
  lemma RemoveXGridKeepsGrid(p: Props, title: Value, fontColor: Value, gridColor: Value)
    ensures var r := AxisFlagged(Put(p, "xaxis", XAxisRecord(title, fontColor, gridColor)), "xaxis", "showgriid", Bool(false));
            Lookup(Inner(r, "xaxis"), "showgrid") == Bool(true)
    ensures var r := AxisFlagged(Put(p, "yaxis", YAxisRecord(title, fontColor, gridColor)), "yaxis", "showgrid", Bool(false));
            Lookup(Inner(r, "yaxis"), "showgrid") == Bool(false)
  {
    var x := Put(p, "xaxis", XAxisRecord(title, fontColor, gridColor));
    assert Inner(x, "xaxis") == XAxisRecord(title, fontColor, gridColor).props;
    AxisFlaggedKeeps(x, "xaxis", "showgriid", Bool(false), "showgrid");
  }

  /** The scene `addZAxis` installs: copies of the x and y axis records and a titled z axis. */
  function Scene(p: Props, title: Value): (s: Value)
    ensures s.Obj? && Keys(s.props) == ["xaxis", "yaxis", "zaxis"]
    ensures Lookup(s.props, "xaxis") == Obj(Inner(p, "xaxis")) && Lookup(s.props, "yaxis") == Obj(Inner(p, "yaxis"))
    ensures Lookup(s.props, "zaxis") == Obj([Prop("title", title)])
  {
    var sp := [Prop("xaxis", Obj(Inner(p, "xaxis"))), Prop("yaxis", Obj(Inner(p, "yaxis"))),
               Prop("zaxis", Obj([Prop("title", title)]))];
    assert Keys(sp) == ["xaxis", "yaxis", "zaxis"];
    LookupAt(sp, 1);
    LookupAt(sp, 2);
    Obj(sp)
  }

  /** The fixed 550 by 500 size of a 3-D layout, with 50 above and below, none at the sides and 4 of padding. */
  function FixedSize(p: Props): (r: Props)
    ensures Lookup(r, "width") == Num(550.0) && Lookup(r, "height") == Num(500.0)
    ensures Lookup(r, "margin") == MarginRecord(Num(0.0), Num(0.0), Num(50.0), Num(50.0), Num(4.0))
    ensures SameExcept(p, r, {"width", "height", "margin"})
  {
    var p1 := Put(p, "width", Num(550.0));
    var p2 := Put(p1, "height", Num(500.0));
    Put(p2, "margin", MarginRecord(Num(0.0), Num(0.0), Num(50.0), Num(50.0), Num(4.0)))
  }

  /** The scene installed and autosize turned off, before the size is fixed. */
  function SceneInstalled(p: Props, title: Value): (r: Props)
    ensures Lookup(r, "scene") == Scene(p, title) && Lookup(r, "autosize") == Bool(false)
    ensures SameExcept(p, r, {"scene", "autosize"})
  {
    Put(Put(p, "scene", Scene(p, title)), "autosize", Bool(false))
  }

  /** Fixing the size leaves every other property as it was. */
  lemma FixedSizeKeeps(q: Props, k: string)
    requires k !in {"width", "height", "margin"}
    ensures Lookup(FixedSize(q), k) == Lookup(q, k)
  {
  }

  /** Installing the scene leaves every other property as it was. */
  lemma SceneInstalledKeeps(p: Props, title: Value, k: string)
    requires k !in {"scene", "autosize"}
    ensures Lookup(SceneInstalled(p, title), k) == Lookup(p, k)
  {
  }

  /** `addZAxis`: the 3-D scene, autosize off, and the fixed size. */
  function ZAxisAdded(p: Props, title: Value): (r: Props)
    ensures Lookup(r, "scene") == Scene(p, title)
    ensures Lookup(r, "autosize") == Bool(false)
    ensures Lookup(r, "width") == Num(550.0) && Lookup(r, "height") == Num(500.0)
    ensures Lookup(r, "margin") == MarginRecord(Num(0.0), Num(0.0), Num(50.0), Num(50.0), Num(4.0))
    ensures SameExcept(p, r, {"scene", "autosize", "width", "height", "margin"})
  {
    var q := SceneInstalled(p, title);
    FixedSizeKeeps(q, "scene");
    FixedSizeKeeps(q, "autosize");
    forall k | k !in {"scene", "autosize", "width", "height", "margin"}
      ensures Lookup(FixedSize(q), k) == Lookup(p, k)
    {
      FixedSizeKeeps(q, k);
      SceneInstalledKeeps(p, title, k);
    }
    FixedSize(q)
  }

  /** The scene's x axis spreads back to the layout's x-axis record. */
  lemma SceneXAxis(p: Props, title: Value)
    ensures Inner(Scene(p, title).props, "xaxis") == Inner(p, "xaxis")
  {
  }

  /** The scene holds copies: flagging the x axis afterwards leaves the scene's x axis as it was. */
  lemma SceneAxesAreCopies(p: Props, title: Value, flag: string, v: Value)
    ensures var z := ZAxisAdded(p, title);
            Lookup(AxisFlagged(z, "xaxis", flag, v), "scene") == Lookup(z, "scene")
    ensures var z := ZAxisAdded(p, title);
            Lookup(Inner(Lookup(AxisFlagged(z, "xaxis", flag, v), "scene").props, "xaxis"), flag)
              == Lookup(Inner(p, "xaxis"), flag)
  {
    var z := ZAxisAdded(p, title);
    AxisFlaggedElsewhere(z, "xaxis", flag, v, "scene");
    SceneXAxis(p, title);
  }

  class PlotLayout {
    /** The layout's properties, which are the object's own. */
    var props: Props

    /** Title "plot title", legend on, 18-point text in the text colour, and the two background colours. */
    constructor(textColor: Value, paperColor: Value, plotBgColor: Value)
      ensures props == [Prop("title", Str("plot title")), Prop("showlegend", Bool(true)),
                        Prop("font", Obj([Prop("color", textColor), Prop("size", Num(18.0))])),
                        Prop("paper_bgcolor", paperColor), Prop("plot_bgcolor", plotBgColor)]
    {
      props := [Prop("title", Str("plot title")), Prop("showlegend", Bool(true)),
                Prop("font", Obj([Prop("color", textColor), Prop("size", Num(18.0))])),
                Prop("paper_bgcolor", paperColor), Prop("plot_bgcolor", plotBgColor)];
    }

    method AddYaxis(title: Value, fontColor: Value, gridColor: Value) returns (self: PlotLayout)
      modifies this
      ensures self == this
      ensures props == Put(old(props), "yaxis", YAxisRecord(title, fontColor, gridColor))
    {
      props := Put(props, "yaxis", YAxisRecord(title, fontColor, gridColor));
      return this;
    }

    method AddXaxis(title: Value, fontColor: Value, gridColor: Value) returns (self: PlotLayout)
      modifies this
      ensures self == this
      ensures props == Put(old(props), "xaxis", XAxisRecord(title, fontColor, gridColor))
    {
      props := Put(props, "xaxis", XAxisRecord(title, fontColor, gridColor));
      return this;
    }

    method AddLogXScale() returns (self: PlotLayout)
      modifies this
      ensures self == this
      ensures props == AxisFlagged(old(props), "xaxis", "type", Str("log"))
    {
      props := AxisFlagged(props, "xaxis", "type", Str("log"));
      return this;
    }

    method AddZAxis(title: Value) returns (self: PlotLayout)
      modifies this
      ensures self == this
      ensures props == ZAxisAdded(old(props), title)
    {
      props := ZAxisAdded(props, title);
      return this;
    }

    method AddLogYScale() returns (self: PlotLayout)
      modifies this
      ensures self == this
      ensures props == AxisFlagged(old(props), "yaxis", "type", Str("log"))
    {
      props := AxisFlagged(props, "yaxis", "type", Str("log"));
      return this;
    }

    /** Adds "showgriid", not "showgrid": see `RemoveXGridKeepsGrid`. */
    method RemoveXGrid() returns (self: PlotLayout)
      modifies this
      ensures self == this
      ensures props == AxisFlagged(old(props), "xaxis", "showgriid", Bool(false))
    {
      props := AxisFlagged(props, "xaxis", "showgriid", Bool(false));
      return this;
    }

    method RemoveYGrid() returns (self: PlotLayout)
      modifies this
      ensures self == this
      ensures props == AxisFlagged(old(props), "yaxis", "showgrid", Bool(false))
    {
      props := AxisFlagged(props, "yaxis", "showgrid", Bool(false));
      return this;
    }

    method RemoveXZeroLine() returns (self: PlotLayout)
      modifies this
      ensures self == this
      ensures props == AxisFlagged(old(props), "xaxis", "zeroline", Bool(false))
    {
      props := AxisFlagged(props, "xaxis", "zeroline", Bool(false));
      return this;
    }

    method RemoveYZeroLine() returns (self: PlotLayout)
      modifies this
      ensures self == this
      ensures props == AxisFlagged(old(props), "yaxis", "zeroline", Bool(false))
    {
      props := AxisFlagged(props, "yaxis", "zeroline", Bool(false));
      return this;
    }

    method AddLegend() returns (self: PlotLayout)
      modifies this
      ensures self == this
      ensures props == WithLegend(old(props))
    {
      props := WithLegend(props);
      return this;
    }

    method StyleBarChart(barmode: Value) returns (self: PlotLayout)
      modifies this
      ensures self == this
      ensures props == BarChartStyled(old(props), barmode)
    {
      props := BarChartStyled(props, barmode);
      return this;
    }

    method StyleHistograms(barmode: Value) returns (self: PlotLayout)
      modifies this
      ensures self == this
      ensures props == HistogramsStyled(old(props), barmode)
    {
      props := HistogramsStyled(props, barmode);
      return this;
    }

    method StyleBoxPlot() returns (self: PlotLayout)
      modifies this
      ensures self == this
      ensures props == BoxPlotStyled(old(props))
    {
      props := BoxPlotStyled(props);
      return this;
    }
  }
}
