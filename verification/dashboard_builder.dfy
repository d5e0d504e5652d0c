/**
 * `DashboardBuilder`: the dashboard's title, colours and ordered slot list,
 * with fluent setters. Slots are objects: `addPlotObject` and
 * `addLayoutObject` change the slot at an index in place, so every place that
 * holds the same slot sees the change.
 */
module DashboardBuilding {
  import opened Js
  import opened Slots

  class DashboardBuilder {
    var title: Value
    var plots: seq<JsObject>
    var bgColor: Value
    var darkBgColor: Value

    /** Stores the four arguments as given. */
    constructor(title: Value, plots: seq<JsObject>, bgColor: Value, darkBgColor: Value)
      ensures this.title == title && this.plots == plots
      ensures this.bgColor == bgColor && this.darkBgColor == darkBgColor
    {
      this.title := title;
      this.plots := plots;
      this.bgColor := bgColor;
      this.darkBgColor := darkBgColor;
    }

    /** Appends one new slot; the earlier slots and the other fields stay as they were. */
    method AddPlot() returns (self: DashboardBuilder)
      modifies this
      ensures self == this
      ensures |plots| == |old(plots)| + 1 && plots[..|old(plots)|] == old(plots)
      ensures fresh(plots[|old(plots)|]) && plots[|old(plots)|].props == BuilderSlot()
      ensures forall i :: 0 <= i < |old(plots)| ==> plots[i].props == old(plots[i].props)
      ensures title == old(title) && bgColor == old(bgColor) && darkBgColor == old(darkBgColor)
    {
      var slot := new JsObject(BuilderSlot());
      plots := plots + [slot];
      return this;
    }

    /**
     * Keeps the slots whose first index is `plotID`: at most the slot at
     * `plotID`, nothing when `plotID` is not an index.
     */
    method RemovePlot(plotID: int) returns (self: DashboardBuilder)
      modifies this
      ensures self == this
      ensures plots == Kept(old(plots), plotID)
      ensures forall x :: x in plots ==> 0 <= plotID < |old(plots)| && x == old(plots)[plotID]
      ensures title == old(title) && bgColor == old(bgColor) && darkBgColor == old(darkBgColor)
    {
      KeptOnlyAtIndex(plots, plotID);
      plots := Kept(plots, plotID);
      return this;
    }

    method AddDashboardTitle(title: Value) returns (self: DashboardBuilder)
      modifies this
      ensures self == this
      ensures this.title == title && plots == old(plots)
      ensures bgColor == old(bgColor) && darkBgColor == old(darkBgColor)
    {
      this.title := title;
      return this;
    }

    method AddBgColor(bgColor: Value) returns (self: DashboardBuilder)
      modifies this
      ensures self == this
      ensures this.bgColor == bgColor && plots == old(plots)
      ensures title == old(title) && darkBgColor == old(darkBgColor)
    {
      this.bgColor := bgColor;
      return this;
    }

    method AddDarkBgColor(darkBgColor: Value) returns (self: DashboardBuilder)
      modifies this
      ensures self == this
      ensures this.darkBgColor == darkBgColor && plots == old(plots)
      ensures title == old(title) && bgColor == old(bgColor)
    {
      this.darkBgColor := darkBgColor;
      return this;
    }

    /** The dashboard is the builder itself. */
    method BuildDashboard() returns (self: DashboardBuilder)
      ensures self == this
    {
      return this;
    }

    /**
     * `plots[id].plot = plot`: sets the entry on the slot object at `id`, and on
     * no other slot object; throws TypeError when `id` is not an index.
     */
    method AddPlotObject(plot: Value, id: int) returns (r: Result<DashboardBuilder>)
      modifies plots
      ensures r.Ok? <==> 0 <= id < |plots|
      ensures r.Ok? ==> r.value == this && plots[id].props == Put(old(plots[id].props), "plot", plot)
      ensures r.Ok? ==> forall o :: o in plots && o != plots[id] ==> o.props == old(o.props)
      ensures r.Err? ==> r.error == TypeError && forall o :: o in plots ==> o.props == old(o.props)
    {
      if 0 <= id < |plots| {
        plots[id].props := Put(plots[id].props, "plot", plot);
        r := Ok(this);
      } else {
        r := Err(TypeError);
      }
    }

    /** `plots[id].layout = layout`, with the same failure as `AddPlotObject`. */
    method AddLayoutObject(layout: Value, id: int) returns (r: Result<DashboardBuilder>)
      modifies plots
      ensures r.Ok? <==> 0 <= id < |plots|
      ensures r.Ok? ==> r.value == this && plots[id].props == Put(old(plots[id].props), "layout", layout)
      ensures r.Ok? ==> forall o :: o in plots && o != plots[id] ==> o.props == old(o.props)
      ensures r.Err? ==> r.error == TypeError && forall o :: o in plots ==> o.props == old(o.props)
    {
      if 0 <= id < |plots| {
        plots[id].props := Put(plots[id].props, "layout", layout);
        r := Ok(this);
      } else {
        r := Err(TypeError);
      }
    }
  }
}
