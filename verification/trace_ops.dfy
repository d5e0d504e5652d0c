/**
 * Record updates shared by the two trace builders: the fluent `TraceBuilder`
 * and the older `Trace` class. Each function takes a trace's properties and
 * returns them after the update, stating which keys it sets and that every
 * other key reads as before.
 */
module TraceOps {
  import opened Js

  // ---------------------------------------------------------------------------
  // Choosing a key by name

  /** The trace key `addAxis` writes: `z` for "z", `y` for "y", `x` for any other value. */
  function AxisKey(axis: Value): (k: string)
    ensures k == "z" <==> axis == Str("z")
    ensures k == "y" <==> axis == Str("y")
    ensures k == "x" <==> axis != Str("z") && axis != Str("y")
  {
    if StrictEq(axis, Str("z")) then "z"
    else if StrictEq(axis, Str("y")) then "y"
    else "x"
  }

  /** Stores an error-bar record under `error_y` when the direction is "y", under `error_x` otherwise. */
  function WithErrorBars(t: Props, direction: Value, bars: Value): (r: Props)
    ensures direction == Str("y") ==> Lookup(r, "error_y") == bars && SameExcept(t, r, {"error_y"})
    ensures direction != Str("y") ==> Lookup(r, "error_x") == bars && SameExcept(t, r, {"error_x"})
  {
    if StrictEq(direction, Str("y")) then Put(t, "error_y", bars) else Put(t, "error_x", bars)
  }

  // ---------------------------------------------------------------------------
  // Fixed presets

  /** The text, its position and the text info, written before the orientation. */
  function TextPlaced(t: Props, text: Value): (r: Props)
    ensures Lookup(r, "text") == text
    ensures Lookup(r, "textposition") == Str("auto") && Lookup(r, "textinfo") == Str("none")
  {
    Put(Put(Put(t, "text", text), "textposition", Str("auto")), "textinfo", Str("none"))
  }

  /** Placing the text leaves every other key as it was. */
  lemma TextPlacedKeeps(t: Props, text: Value, k: string)
    requires k !in {"text", "textposition", "textinfo"}
    ensures Lookup(TextPlaced(t, text), k) == Lookup(t, k)
  {
  }

  /** `addText`: the text and its placement; the orientation is radial for pie traces only. */
  function WithText(t: Props, text: Value): (r: Props)
    ensures Lookup(r, "text") == text
    ensures Lookup(r, "textposition") == Str("auto") && Lookup(r, "textinfo") == Str("none")
    ensures Lookup(t, "type") == Str("pie") ==> Lookup(r, "insidetextorientation") == Str("radial")
    ensures Lookup(t, "type") != Str("pie") ==> Lookup(r, "insidetextorientation") == Str("")
    ensures SameExcept(t, r, {"text", "textposition", "textinfo", "insidetextorientation"})
  {
    var t1 := TextPlaced(t, text);
    TextPlacedKeeps(t, text, "type");
    forall k | k !in {"text", "textposition", "textinfo", "insidetextorientation"}
      ensures Lookup(t1, k) == Lookup(t, k)
    {
      TextPlacedKeeps(t, text, k);
    }
    Put(t1, "insidetextorientation", if StrictEq(Lookup(t1, "type"), Str("pie")) then Str("radial") else Str(""))
  }

  /** `addUnderlyingData`: every point drawn beside the box, jittered and shifted left. */
  function WithUnderlyingData(t: Props): (r: Props)
    ensures Lookup(r, "boxpoints") == Str("all")
    ensures Lookup(r, "jitter") == Num(0.3) && Lookup(r, "pointpos") == Num(-1.8)
    ensures SameExcept(t, r, {"boxpoints", "jitter", "pointpos"})
  {
    var t1 := Put(t, "boxpoints", Str("all"));
    var t2 := Put(t1, "jitter", Num(0.3));
    Put(t2, "pointpos", Num(-1.8))
  }

  /** Applying the underlying-data preset a second time changes nothing. */
  lemma UnderlyingDataIdempotent(t: Props)
    ensures WithUnderlyingData(WithUnderlyingData(t)) == WithUnderlyingData(t)
  {
    var t1 := Put(t, "boxpoints", Str("all"));
    var t2 := Put(t1, "jitter", Num(0.3));
    PutKeys(t, "boxpoints", Str("all"));
    PutKeys(t1, "jitter", Num(0.3));
    PutKeys(t2, "pointpos", Num(-1.8));
    var r := WithUnderlyingData(t);
    PutExisting(r, "boxpoints");
    PutExisting(r, "jitter");
    PutExisting(r, "pointpos");
  }

  /** `addDomain`: the grid cell of a pie trace. */
  function WithDomain(t: Props, row: Value, column: Value): (r: Props)
    ensures Lookup(r, "domain") == Obj([Prop("row", row), Prop("column", column)])
    ensures SameExcept(t, r, {"domain"})
  {
    Put(t, "domain", Obj([Prop("row", row), Prop("column", column)]))
  }

  /** The marker entries `addOutlierDetection` merges in. */
  const OutlierMarker: Props := [
    Prop("color", Str("rgb(8,81,156)")),
    Prop("outliercolor", Str("rgba(219, 64, 82, 0.6)")),
    Prop("line", Obj([Prop("outliercolor", Str("rgba(219, 64, 82, 1.0)")), Prop("outlierwidth", Num(2.0))]))
  ]

  /** `addOutlierDetection`: outlier colours merged into the marker, whose other entries stay. */
  function WithOutlierDetection(t: Props): (r: Props)
    ensures SameExcept(t, r, {"marker"}) && Lookup(r, "marker").Obj?
    ensures Lookup(Inner(r, "marker"), "color") == Str("rgb(8,81,156)")
    ensures Lookup(Inner(r, "marker"), "outliercolor") == Str("rgba(219, 64, 82, 0.6)")
    ensures Lookup(Inner(r, "marker"), "line") == Lookup(OutlierMarker, "line")
    ensures SameExcept(Inner(t, "marker"), Inner(r, "marker"), {"color", "outliercolor", "line"})
  {
    assert Keys(OutlierMarker) == ["color", "outliercolor", "line"];
    Merged(t, "marker", OutlierMarker)
  }

  /** The six-stop colour scale of `addCustomColorScale`. */
  const CustomScale: Value := Arr([
    Arr([Num(0.0), Str("rgb(166,206,227)")]),
    Arr([Num(0.25), Str("rgb(31,120,180)")]),
    Arr([Num(0.45), Str("rgb(178,223,138)")]),
    Arr([Num(0.65), Str("rgb(51,160,44)")]),
    Arr([Num(0.85), Str("rgb(251,154,153)")]),
    Arr([Num(1.0), Str("rgb(227,26,28)")])
  ])

  /** `addContours`: contour colouring and labels in Raleway 12 white, with 20 contours. */
  function WithContours(t: Props, coloring: Value, showlabels: Value): (r: Props)
    ensures Lookup(r, "contours").Obj?
    ensures Lookup(Inner(r, "contours"), "coloring") == coloring
    ensures Lookup(Inner(r, "contours"), "showlabels") == showlabels
    ensures Lookup(Inner(r, "contours"), "labelfont")
         == Obj([Prop("family", Str("Raleway")), Prop("size", Num(12.0)), Prop("color", Str("white"))])
    ensures Lookup(r, "ncontours") == Num(20.0)
    ensures SameExcept(t, r, {"contours", "ncontours"})
  {
    var labelfont := Obj([Prop("family", Str("Raleway")), Prop("size", Num(12.0)), Prop("color", Str("white"))]);
    var contours := [Prop("coloring", coloring), Prop("showlabels", showlabels), Prop("labelfont", labelfont)];
    assert Lookup(contours, "labelfont") == labelfont by {
      assert contours[1..][1..] == [Prop("labelfont", labelfont)];
      assert Lookup(contours, "labelfont") == Lookup(contours[1..], "labelfont");
      assert Lookup(contours[1..], "labelfont") == Lookup(contours[1..][1..], "labelfont");
    }
    Put(Put(t, "contours", Obj(contours)), "ncontours", Num(20.0))
  }

  /** `addStyledContours` / `styleContours`: the reversed "Hot" scale with 20 contours. */
  function WithStyledContours(t: Props): (r: Props)
    ensures Lookup(r, "colorscale") == Str("Hot") && Lookup(r, "ncontours") == Num(20.0)
    ensures Lookup(r, "reversescale") == Bool(true)
    ensures SameExcept(t, r, {"colorscale", "ncontours", "reversescale"})
  {
    var t1 := Put(t, "colorscale", Str("Hot"));
    var t2 := Put(t1, "ncontours", Num(20.0));
    Put(t2, "reversescale", Bool(true))
  }

  /** Styling the contours a second time changes nothing. */
  lemma StyledContoursIdempotent(t: Props)
    ensures WithStyledContours(WithStyledContours(t)) == WithStyledContours(t)
  {
    var t1 := Put(t, "colorscale", Str("Hot"));
    var t2 := Put(t1, "ncontours", Num(20.0));
    PutKeys(t, "colorscale", Str("Hot"));
    PutKeys(t1, "ncontours", Num(20.0));
    PutKeys(t2, "reversescale", Bool(true));
    var r := WithStyledContours(t);
    PutExisting(r, "colorscale");
    PutExisting(r, "ncontours");
    PutExisting(r, "reversescale");
  }

  // ---------------------------------------------------------------------------
  // Relative marker sizes

  predicate Numbers(s: seq<Value>)
  {
    forall i :: 0 <= i < |s| ==> s[i].Num?
  }

  /** `Math.max(...s)` over a non-empty list of numbers. */
  function MaxNum(s: seq<Value>): (m: real)
    requires |s| > 0 && Numbers(s)
    ensures forall i :: 0 <= i < |s| ==> s[i].n <= m
    ensures exists i :: 0 <= i < |s| && s[i].n == m
  {
    if |s| == 1 then s[0].n
    else
      var rest := MaxNum(s[1..]);
      assert forall i :: 1 <= i < |s| ==> s[i] == s[1..][i - 1];
      if s[0].n >= rest then s[0].n else rest
  }

  /**
   * The sizes the model covers: a non-empty array of numbers, for which
   * `Math.max(...size)` is their maximum, or a value that is neither an array
   * nor a string, which cannot be spread and throws. An empty array gives
   * -Infinity and a non-numeric element NaN, which are not values of the
   * model; the conversion of numeric strings, booleans and null to numbers,
   * and the spread of a string into characters, are not modelled.
   */
  predicate SizeArgument(size: Value)
  {
    (size.Arr? ==> |size.elems| > 0 && Numbers(size.elems)) && !size.Str?
  }

  /** `sizeref = 2·max(size) / desired²`, Plotly's recipe for area-scaled marker sizes. */
  function SizeRef(size: seq<Value>, desired: nat): real
    requires |size| > 0 && Numbers(size) && desired > 0
  {
    2.0 * MaxNum(size) / (desired * desired) as real
  }

  /**
   * With this `sizeref` the largest size value is drawn with the desired
   * diameter, and no size value is drawn larger.
   */
  lemma SizeRefScales(size: seq<Value>, desired: nat)
    requires |size| > 0 && Numbers(size) && desired > 0
    ensures SizeRef(size, desired) * (desired * desired) as real == 2.0 * MaxNum(size)
    ensures forall i :: 0 <= i < |size| ==> 2.0 * size[i].n <= SizeRef(size, desired) * (desired * desired) as real
  {
  }
}
