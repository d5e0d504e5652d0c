/**
 * Layout updates shared by the two layout classes, `LayoutBuilder` and
 * `PlotLayout`: the legend, the bar, histogram and box-plot presets and the
 * margin record. Each function takes a layout's properties and returns them
 * after the update, stating which keys it sets and that every other key reads
 * as before.
 */
module LayoutOps {
  import opened Js

  /** A font record `{family, size, color}`, the shape of every axis-title and legend font. */
  function FontRecord(family: Value, size: Value, color: Value): (f: Value)
    ensures f.Obj? && Keys(f.props) == ["family", "size", "color"]
    ensures Lookup(f.props, "family") == family && Lookup(f.props, "size") == size
    ensures Lookup(f.props, "color") == color
  {
    var p := [Prop("family", family), Prop("size", size), Prop("color", color)];
    assert Keys(p[1..]) == ["size", "color"];
    assert Lookup(p, "color") == Lookup(p[1..], "color") == Lookup(p[1..][1..], "color");
    Obj(p)
  }

  /** A margin record `{l, r, b, t, pad}` in that key order. */
  function MarginRecord(l: Value, r: Value, b: Value, t: Value, pad: Value): (m: Value)
    ensures m.Obj? && Keys(m.props) == ["l", "r", "b", "t", "pad"]
    ensures Lookup(m.props, "l") == l && Lookup(m.props, "r") == r && Lookup(m.props, "b") == b
    ensures Lookup(m.props, "t") == t && Lookup(m.props, "pad") == pad
  {
    var p := [Prop("l", l), Prop("r", r), Prop("b", b), Prop("t", t), Prop("pad", pad)];
    var p3 := p[1..][1..][1..];
    assert p3 == [Prop("t", t), Prop("pad", pad)] && Keys(p3) == ["t", "pad"];
    assert Lookup(p, "b") == Lookup(p[1..], "b") == Lookup(p[1..][1..], "b");
    assert Lookup(p, "t") == Lookup(p[1..], "t") == Lookup(p[1..][1..], "t") == Lookup(p3, "t");
    assert Lookup(p, "pad") == Lookup(p[1..], "pad") == Lookup(p[1..][1..], "pad") == Lookup(p3, "pad") == Lookup(p3[1..], "pad");
    Obj(p)
  }

  /** The legend both classes install: 500 by 500, centred vertically on the paper, in black 20-point Arial. */
  const Legend: Value := Obj([
    Prop("width", Num(500.0)), Prop("height", Num(500.0)), Prop("y", Num(0.5)), Prop("yref", Str("paper")),
    Prop("font", FontRecord(Str("Arial, sans-serif"), Num(20.0), Str("black")))
  ])

  /** `addLegend`: replaces the whole legend record. */
  function WithLegend(p: Props): (r: Props)
    ensures Lookup(r, "legend") == Legend
    ensures SameExcept(p, r, {"legend"})
    ensures Has(p, "legend") ==> Keys(r) == Keys(p)
  {
    PutKeys(p, "legend", Legend);
    Put(p, "legend", Legend)
  }

  /** `styleBarChart`: the bar mode with a 0.15 gap between bars and 0.1 between groups. */
  function BarChartStyled(p: Props, barmode: Value): (r: Props)
    ensures Lookup(r, "barmode") == barmode
    ensures Lookup(r, "bargap") == Num(0.15) && Lookup(r, "bargroupgap") == Num(0.1)
    ensures SameExcept(p, r, {"barmode", "bargap", "bargroupgap"})
  {
    var p1 := Put(p, "barmode", barmode);
    var p2 := Put(p1, "bargap", Num(0.15));
    Put(p2, "bargroupgap", Num(0.1))
  }

  /**
   * Styling the bars a second time is styling them once with the second mode:
   * the gaps are rewritten with the values they already hold, and the mode is
   * overwritten where it stands.
   */
  lemma BarChartRestyled(p: Props, first: Value, second: Value)
    ensures BarChartStyled(BarChartStyled(p, first), second) == BarChartStyled(p, second)
  {
    var p1 := Put(p, "barmode", first);
    var p2 := Put(p1, "bargap", Num(0.15));
    var r := Put(p2, "bargroupgap", Num(0.1));
    PutKeys(p, "barmode", first);
    PutKeys(p1, "bargap", Num(0.15));
    PutKeys(p2, "bargroupgap", Num(0.1));
    // the second styling's gap writes change nothing
    var r1 := Put(r, "barmode", second);
    PutKeys(r, "barmode", second);
    PutExisting(r1, "bargap");
    PutKeys(r1, "bargap", Num(0.15));
    PutExisting(r1, "bargroupgap");
    assert BarChartStyled(r, second) == r1;
    // move the new mode down to the first assignment
    PutCommute(p2, "bargroupgap", Num(0.1), "barmode", second);
    PutCommute(p1, "bargap", Num(0.15), "barmode", second);
    PutPut(p, "barmode", first, second);
  }

  /** `styleHistograms`: only the bar mode. */
  function HistogramsStyled(p: Props, barmode: Value): (r: Props)
    ensures Lookup(r, "barmode") == barmode
    ensures SameExcept(p, r, {"barmode"})
    ensures Has(p, "barmode") ==> Keys(r) == Keys(p)
  {
    PutKeys(p, "barmode", barmode);
    Put(p, "barmode", barmode)
  }

  /** `styleBoxPlot`: boxes of one position drawn side by side. */
  function BoxPlotStyled(p: Props): (r: Props)
    ensures Lookup(r, "boxmode") == Str("group")
    ensures SameExcept(p, r, {"boxmode"})
    ensures Has(p, "boxmode") ==> Keys(r) == Keys(p)
  {
    PutKeys(p, "boxmode", Str("group"));
    Put(p, "boxmode", Str("group"))
  }
}
