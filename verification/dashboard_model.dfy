/**
 * `DashboardModel`: the same title, colours and slot list as
 * `DashboardBuilder`, with setters that return nothing and slots that have no
 * layout entry.
 */
module DashboardModels {
  import opened Js
  import opened Slots

  class DashboardModel {
    var title: Value
    var plots: seq<JsObject>
    var bgColor: Value
    var darkBgColor: Value

    /** Stores the four arguments as given. */
    constructor(title: Value, plots: seq<JsObject>, bgColor: Value, darkBgColor: Value)
      ensures this.title == title && this.plots == plots
      ensures this.bgColor == bgColor && this.darkBgColor == darkBgColor
    {
      this.title := title;
      this.plots := plots;
      this.bgColor := bgColor;
      this.darkBgColor := darkBgColor;
    }

    /** Appends one new slot; the earlier slots and the other fields stay as they were. */
    method AddPlot()
      modifies this
      ensures |plots| == |old(plots)| + 1 && plots[..|old(plots)|] == old(plots)
      ensures fresh(plots[|old(plots)|]) && plots[|old(plots)|].props == ModelSlot()
      ensures forall i :: 0 <= i < |old(plots)| ==> plots[i].props == old(plots[i].props)
      ensures title == old(title) && bgColor == old(bgColor) && darkBgColor == old(darkBgColor)
    {
      var slot := new JsObject(ModelSlot());
      plots := plots + [slot];
    }

    /** The same filter as `DashboardBuilder.RemovePlot`: at most the slot at `plotID` survives. */
    method RemovePlot(plotID: int)
      modifies this
      ensures plots == Kept(old(plots), plotID)
      ensures forall x :: x in plots ==> 0 <= plotID < |old(plots)| && x == old(plots)[plotID]
      ensures title == old(title) && bgColor == old(bgColor) && darkBgColor == old(darkBgColor)
    {
      KeptOnlyAtIndex(plots, plotID);
      plots := Kept(plots, plotID);
    }

    method AddDashboardTitle(title: Value)
      modifies this
      ensures this.title == title && plots == old(plots)
      ensures bgColor == old(bgColor) && darkBgColor == old(darkBgColor)
    {
      this.title := title;
    }

    method AddBgColor(bgColor: Value)
      modifies this
      ensures this.bgColor == bgColor && plots == old(plots)
      ensures title == old(title) && darkBgColor == old(darkBgColor)
    {
      this.bgColor := bgColor;
    }

    method AddDarkBgColor(darkBgColor: Value)
      modifies this
      ensures this.darkBgColor == darkBgColor && plots == old(plots)
      ensures title == old(title) && bgColor == old(bgColor)
    {
      this.darkBgColor := darkBgColor;
    }
  }
}
