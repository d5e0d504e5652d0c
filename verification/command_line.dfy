/**
 * The dashboard command line: a menu of option names, each bound to a
 * provider of sub-options, and a model whose state is the option selected
 * last. Asking the model for sub-options looks its state up in the menu and
 * calls the provider, discarding what it returns; only whether the call
 * throws is observable.
 */
module CommandLine {
  import opened Js
  import DataProcessing

  /** The sub-option providers bound in the menu. */
  datatype Provider = SelectFile | SelectAxis | SelectPlot | SelectTheme | SelectTool

  /** The menu, in the order of its keys. */
  const Options: seq<(string, Provider)> := [
    ("Select a File", SelectFile),
    ("Select X axis", SelectAxis),
    ("Select Y axis", SelectAxis),
    ("Select Z axis", SelectAxis),
    ("Select Color", SelectAxis),
    ("Select Size", SelectAxis),
    ("Select a Plot", SelectPlot),
    ("Select a Theme", SelectTheme),
    ("Select a Tool", SelectTool)
  ]

  /** `displayOptions`: `Object.keys` of the menu. */
  function OptionNames(): (names: seq<string>)
    ensures names == ["Select a File", "Select X axis", "Select Y axis", "Select Z axis", "Select Color",
                      "Select Size", "Select a Plot", "Select a Theme", "Select a Tool"]
    ensures Distinct(names)
  {
    seq(|Options|, i requires 0 <= i < |Options| => Options[i].0)
  }

  /** The provider the menu binds to `name`, if any. */
  function OptionFor(name: string): (p: Option<Provider>)
    ensures p.Some? <==> name in OptionNames()
    ensures p == Some(SelectTool) <==> name == "Select a Tool"
    ensures p == Some(SelectPlot) <==> name == "Select a Plot"
    ensures p == Some(SelectTheme) <==> name == "Select a Theme"
    ensures p == Some(SelectFile) <==> name == "Select a File"
  {
    if i :| 0 <= i < |Options| && Options[i].0 == name then Some(Options[i].1) else None
  }

  /** The plot kinds `SelectPlot` offers. */
  const PlotKinds: seq<string> := ["Scatter Plot", "Line Plot", "Pie Chart", "BarChart", "Heatmap", "3D Plot"]

  /** The themes `SelectTheme` offers. */
  const ThemeNames: seq<string> := ["seaborn", "dark", "light", "gray", "default", "transparent"]

  /** A list of names as an array of strings. */
  function Strings(names: seq<string>): (r: seq<Value>)
    ensures |r| == |names| && forall i :: 0 <= i < |names| ==> r[i] == Str(names[i])
  {
    seq(|names|, i requires 0 <= i < |names| => Str(names[i]))
  }

  /** `userFiles.map(file => file.filename)`: only an array has `map`, and a file that is undefined or null throws. */
  function FileNames(userFiles: Value): (r: Result<seq<Value>>)
    ensures r.Ok? <==> (userFiles.Arr? &&
      forall i :: 0 <= i < |userFiles.elems| ==> userFiles.elems[i] != Undef && userFiles.elems[i] != Null)
    ensures r.Err? ==> r.error == TypeError
    ensures r.Ok? ==> (|r.value| == |userFiles.elems| &&
      forall i :: 0 <= i < |userFiles.elems| ==> Get(userFiles.elems[i], "filename") == Ok(r.value[i]))
  {
    if userFiles.Arr? && forall i :: 0 <= i < |userFiles.elems| ==> Get(userFiles.elems[i], "filename").Ok? then
      var files := userFiles.elems;
      Ok(seq(|files|, i requires 0 <= i < |files| && Get(files[i], "filename").Ok? => Get(files[i], "filename").value))
    else Err(TypeError)
  }

  /**
   * A provider's `displaySubOptions()`. `SelectAxis` converts the user files
   * first and throws when the conversion does; `SelectTool` has no such
   * method, so calling it throws.
   */
  function SubOptions(p: Provider, userFiles: Value): (r: Result<seq<Value>>)
    ensures p == SelectTool ==> r == Err(TypeError)
    ensures p == SelectPlot ==> r == Ok(Strings(PlotKinds)) && |r.value| == 6
    ensures p == SelectTheme ==> r == Ok(Strings(ThemeNames)) && |r.value| == 6
    ensures p == SelectFile ==> r == FileNames(userFiles)
    ensures p == SelectAxis ==> (r.Ok? <==> DataProcessing.ReadableFormat(userFiles).Ok?)
    ensures p == SelectAxis && r.Ok? ==> r.value == [Str("Random Data X axis")]
    ensures r.Err? ==> r.error == TypeError
  {
    match p
    case SelectFile => FileNames(userFiles)
    case SelectAxis =>
      var _ :- DataProcessing.ReadableFormat(userFiles);
      Ok([Str("Random Data X axis")])
    case SelectPlot => Ok(Strings(PlotKinds))
    case SelectTheme => Ok(Strings(ThemeNames))
    case SelectTool => Err(TypeError)
  }

  /**
   * How `new State(name).displaySubOptions()` ends. A name outside the menu
   * reads `undefined` or an inherited member without `displaySubOptions`, and
   * calling that throws.
   */
  function SubOptionsOutcome(name: string, userFiles: Value): (c: Completion)
    ensures name !in OptionNames() ==> c == Abrupt(TypeError)
    ensures name == "Select a Tool" ==> c == Abrupt(TypeError)
    ensures name == "Select a Plot" || name == "Select a Theme" ==> c == Normal
    ensures c.Normal? ==> name in OptionNames() && name != "Select a Tool"
    ensures c.Abrupt? ==> c.error == TypeError
  {
    match OptionFor(name)
    case None => Abrupt(TypeError)
    case Some(p) =>
      var r := SubOptions(p, userFiles);
      if r.Ok? then Normal else Abrupt(r.error)
  }

  /**
   * With the user files as the module reads them from local storage (a
   * string, or null when nothing is stored), only the plot and theme menus
   * answer; every other option throws.
   */
  lemma StoredTextFails(name: string, userFiles: Value)
    requires userFiles.Str? || userFiles == Null
    ensures SubOptionsOutcome(name, userFiles).Normal? <==> name == "Select a Plot" || name == "Select a Theme"
  {
    match OptionFor(name)
    case None =>
    case Some(p) =>
      assert p == SelectAxis ==> DataProcessing.ReadableFormat(userFiles).Err?;
  }

  /** `CommandLineModel`: the selected option. */
  class CommandLineModel {
    var state: string

    /** The command line starts on the file menu. */
    constructor()
      ensures state == "Select a File"
    {
      state := "Select a File";
    }

    /** `changeState`: any state may follow any other; returns the model itself. */
    method ChangeState(s: string) returns (self: CommandLineModel)
      modifies this
      ensures state == s && self == this
    {
      state := s;
      self := this;
    }

    /** `getCurrentState`: the state set last. */
    method GetCurrentState() returns (s: string)
      ensures s == state
    {
      s := state;
    }

    /** `displaySubOptions`: the sub-options of the current state are computed and dropped. */
    method DisplaySubOptions(userFiles: Value) returns (c: Completion)
      ensures c == SubOptionsOutcome(state, userFiles)
      ensures state == "Select a Plot" || state == "Select a Theme" ==> c == Normal
      ensures state !in OptionNames() || state == "Select a Tool" ==> c == Abrupt(TypeError)
    {
      var current := OptionFor(state);
      if current.None? {
        return Abrupt(TypeError);
      }
      var subOptions := SubOptions(current.value, userFiles);
      c := if subOptions.Ok? then Normal else Abrupt(subOptions.error);
    }
  }
}
