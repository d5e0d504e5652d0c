/**
 * The slot list shared by `DashboardBuilder` and `DashboardModel`: an ordered
 * array of slot objects compared by identity. `removePlot(i)` is written as
 * `plots.filter(plot => plots.indexOf(plot) === i)`, which keeps the slots
 * whose FIRST occurrence is at index `i`, that is, at most the slot at `i`
 * and its repetitions.
 */
module Slots {
  import opened Js

  /** `s.indexOf(x)`: the first index holding `x`, or -1. */
  function IndexOf<T(==)>(s: seq<T>, x: T): (i: int)
    ensures -1 <= i < |s|
    ensures i == -1 <==> x !in s
    ensures 0 <= i ==> s[i] == x && forall j :: 0 <= j < i ==> s[j] != x
  {
    if s == [] then -1
    else if s[0] == x then 0
    else
      var i := IndexOf(s[1..], x);
      if i == -1 then -1 else i + 1
  }

  /** `s.filter(x => s.indexOf(x) === id)`, the filter run over `s[from..]`. */
  function KeptFrom<T(==)>(s: seq<T>, from: nat, id: int): seq<T>
    requires from <= |s|
    decreases |s| - from
  {
    if from == |s| then []
    else (if IndexOf(s, s[from]) == id then [s[from]] else []) + KeptFrom(s, from + 1, id)
  }

  /** What `removePlot(id)` leaves of the slot list `s`. */
  function Kept<T(==)>(s: seq<T>, id: int): seq<T>
  {
    KeptFrom(s, 0, id)
  }

  /** The survivors of the filter over `s[from..]` are the entries there whose first occurrence is at `id`. */
  lemma {:induction false} KeptFromSurvivors<T>(s: seq<T>, from: nat, id: int)
    requires from <= |s|
    ensures forall x :: x in KeptFrom(s, from, id) <==> x in s[from..] && IndexOf(s, x) == id
    decreases |s| - from
  {
    if from < |s| {
      KeptFromSurvivors(s, from + 1, id);
      assert s[from..] == [s[from]] + s[from + 1..];
    }
  }

  /**
   * Every slot that survives `removePlot(id)` is the slot at `id`. That slot
   * survives when it does not also sit at an earlier index; when it does,
   * nothing survives.
   */
  lemma KeptOnlyAtIndex<T>(s: seq<T>, id: int)
    ensures forall x :: x in Kept(s, id) ==> 0 <= id < |s| && x == s[id]
    ensures 0 <= id < |s| && s[id] !in s[..id] ==> s[id] in Kept(s, id)
    ensures 0 <= id < |s| && s[id] in s[..id] ==> Kept(s, id) == []
  {
    KeptFromSurvivors(s, 0, id);
    assert s[0..] == s;
    assert Kept(s, id) == KeptFrom(s, 0, id);
    forall x | x in Kept(s, id)
      ensures 0 <= id < |s| && x == s[id]
    {
      assert IndexOf(s, x) == id;
    }
    if 0 <= id < |s| && s[id] in s[..id] {
      var j :| 0 <= j < id && s[..id][j] == s[id];
      assert s[j] == s[id] && IndexOf(s, s[id]) <= j;
      KeptFromNone(s, 0, id);
    }
  }

  /** An `id` outside the list removes every slot. */
  lemma KeptOutOfRange<T>(s: seq<T>, id: int)
    requires id < 0 || |s| <= id
    ensures Kept(s, id) == []
  {
    KeptFromNone(s, 0, id);
  }

  /** When no entry of `s[from..]` first occurs at `id`, the filter over it keeps nothing. */
  lemma {:induction false} KeptFromNone<T>(s: seq<T>, from: nat, id: int)
    requires from <= |s|
    requires forall k :: from <= k < |s| ==> IndexOf(s, s[k]) != id
    ensures KeptFrom(s, from, id) == []
    decreases |s| - from
  {
    if from < |s| {
      KeptFromNone(s, from + 1, id);
    }
  }

  /** No slot appears twice. */
  predicate NoRepeats<T(==)>(s: seq<T>)
  {
    forall i, j :: 0 <= i < j < |s| ==> s[i] != s[j]
  }

  /** The filter over `s[from..]` keeps one entry for each position there that holds `s[id]`. */
  lemma {:induction false} KeptFromDistinct<T>(s: seq<T>, from: nat, id: int)
    requires NoRepeats(s) && 0 <= id < |s| && from <= |s|
    ensures KeptFrom(s, from, id) == if from <= id then [s[id]] else []
    decreases |s| - from
  {
    if from < |s| {
      KeptFromDistinct(s, from + 1, id);
      var i := IndexOf(s, s[from]);
      assert i == from;
    }
  }

  /** With distinct slots, `removePlot(id)` keeps exactly the slot at `id`. */
  lemma KeptDistinct<T>(s: seq<T>, id: int)
    requires NoRepeats(s) && 0 <= id < |s|
    ensures Kept(s, id) == [s[id]]
  {
    KeptFromDistinct(s, 0, id);
  }

  /** An illustration of `KeptDistinct`: removing index 1 from three distinct slots leaves only the middle one. */
  lemma KeptExample(a: JsObject, b: JsObject, c: JsObject)
    requires a != b && b != c && a != c
    ensures Kept([a, b, c], 1) == [b]
  {
    KeptDistinct([a, b, c], 1);
  }

  /**
   * With a repeated slot, removing at its first index keeps both copies, and
   * removing at its second index keeps nothing.
   */
  lemma KeptRepeated(a: JsObject, b: JsObject)
    requires a != b
    ensures Kept([a, b, a], 0) == [a, a]
    ensures Kept([a, b, a], 2) == []
  {
    var s := [a, b, a];
    assert IndexOf(s, a) == 0;
    assert IndexOf(s, b) == 1;
    assert KeptFrom(s, 3, 0) == [];
    assert KeptFrom(s, 2, 0) == [a];
    assert KeptFrom(s, 1, 0) == [a];
    assert KeptFrom(s, 3, 2) == [];
    assert KeptFrom(s, 2, 2) == [];
    assert KeptFrom(s, 1, 2) == [];
  }

  /** The dashboard grid cell `{x, y, w, h}`. */
  function GridCell(x: real, y: real, w: real, h: real): (g: Value)
    ensures g.Obj? && Keys(g.props) == ["x", "y", "w", "h"]
    ensures Lookup(g.props, "x") == Num(x) && Lookup(g.props, "y") == Num(y)
    ensures Lookup(g.props, "w") == Num(w) && Lookup(g.props, "h") == Num(h)
  {
    var p := [Prop("x", Num(x)), Prop("y", Num(y)), Prop("w", Num(w)), Prop("h", Num(h))];
    assert Keys(p) == ["x", "y", "w", "h"];
    LookupAt(p, 1);
    LookupAt(p, 2);
    LookupAt(p, 3);
    Obj(p)
  }

  /** The slot `DashboardBuilder.addPlot` appends: empty plot, layout and tools, a 4 by 4 cell at (4, 0). */
  function BuilderSlot(): (p: Props)
    ensures Keys(p) == ["plot", "layout", "dataGrid", "tools"]
    ensures Lookup(p, "dataGrid") == GridCell(4.0, 0.0, 4.0, 4.0)
  {
    var p := [Prop("plot", Obj([])), Prop("layout", Obj([])), Prop("dataGrid", GridCell(4.0, 0.0, 4.0, 4.0)),
              Prop("tools", Obj([]))];
    assert Keys(p) == ["plot", "layout", "dataGrid", "tools"];
    LookupAt(p, 2);
    p
  }

  /** The slot `DashboardModel.addPlot` appends: no layout entry, a 5 by 10 cell at the origin. */
  function ModelSlot(): (p: Props)
    ensures Keys(p) == ["plot", "dataGrid", "tools"] && !Has(p, "layout")
    ensures Lookup(p, "dataGrid") == GridCell(0.0, 0.0, 5.0, 10.0)
  {
    var p := [Prop("plot", Obj([])), Prop("dataGrid", GridCell(0.0, 0.0, 5.0, 10.0)), Prop("tools", Obj([]))];
    assert Keys(p) == ["plot", "dataGrid", "tools"];
    LookupAt(p, 1);
    p
  }
}
