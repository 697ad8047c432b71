/**
 * Whole runs of an interface tool, put together from the contracts of the
 * option handlers, `Setup` and `RunMain` alone: a tool `mytool` whose one
 * action `list` returns a non-empty list.
 */
module Scenarios {
  import opened Wrappers
  import opened Text
  import opened Interfaces
  import opened Application

  const ToolClass: string := ApplicationNamespace + "Mytool"
  const ListJson: string := "[\"a\",\"b\"]"

  lemma TypeNameOfMytool()
    ensures TypeName(ToolClass) == "mytool"
  {
    TypeNameOfApplicationClass("Mytool");
    var lower := ToLower("Mytool");
    assert lower[0] == 'm' && lower[1] == 'y' && lower[2] == 't';
    assert lower[3] == 'o' && lower[4] == 'o' && lower[5] == 'l';
    assert lower == "mytool";
  }

  /** The `list` action returns a list object; any other verb raises. */
  function ListAction(options: map<string, string>, verb: string, arguments: seq<string>): ActionResult
  {
    if verb == "list" then Returned(Obj(1)) else Failed("no such method")
  }

  /** Serialises the list object as JSON text; nothing else is needed here. */
  function Serialize(v: Value, renderMethod: string): string
  {
    if renderMethod == "to_json" then ListJson else ""
  }

  const Formats: map<string, string> := map["json" := "to_json", "pson" := DumpMethod]

  /** `mytool list --format json`: the JSON text is printed and the tool exits with 0. */
  method ListAsJson() returns (o: Outcome)
    ensures o == Exited(0, Some(ListJson))
  {
    var mytool := new Interface(["list"], "pson", ListAction);
    var app := new InterfaceBase(ToolClass, ["list"], map[]);
    var formatErr := app.HandleFormat("json");
    TypeNameOfMytool();
    var err := app.Setup(map["mytool" := mytool]);
    assert err.None?;
    o := app.RunMain(Formats, Serialize);
  }

  /**
   * `mytool list` with an exit code of 3 already written: the default format
   * of the interface is the dump format, so the result is dumped and the
   * exit status is 0, not 3.
   */
  method ListDumpedDespiteExitCode() returns (o: Outcome)
    ensures o == DumpedAndExited0(Obj(1)) && o.Status() == Some(0)
  {
    var mytool := new Interface(["list"], "pson", ListAction);
    var app := new InterfaceBase(ToolClass, ["list"], map[]);
    app.SetExitCode(3);
    TypeNameOfMytool();
    var err := app.Setup(map["mytool" := mytool]);
    assert err.None? && app.format == Some("pson");
    o := app.RunMain(Formats, Serialize);
  }

  /**
   * `mytool --mode bogus find x`: the mode is refused, naming "bogus", and the
   * run mode stays as it was (the `agent` that InterfaceBase declares).
   */
  method BogusMode() returns (err: Option<Error>, mode: RunMode)
    ensures err == Some(RuntimeError(InvalidModeMessage("bogus")))
    ensures mode == Agent
  {
    var app := new InterfaceBase(ToolClass, ["find", "x"], map[]);
    err := app.HandleMode("bogus");
    mode := app.runMode;
  }

  /** `mytool --format ""`: an empty format cannot become a symbol, so the option raises. */
  method EmptyFormat() returns (err: Option<Error>, format: Option<string>)
    ensures err == Some(ArgumentError(EmptySymbolMessage))
    ensures format == None
  {
    var app := new InterfaceBase(ToolClass, ["list"], map[]);
    err := app.HandleFormat("");
    format := app.format;
  }

  /** `mytool` alone: setup copies the options to the interface, then fails for want of a verb. */
  method MissingVerb() returns (err: Option<Error>, copied: map<string, string>)
    ensures err == Some(RuntimeError(MissingVerbMessage(["list"])))
    ensures copied == map["verbose" := "true"]
  {
    var mytool := new Interface(["list"], "pson", ListAction);
    var app := new InterfaceBase(ToolClass, [], map["verbose" := "true"]);
    TypeNameOfMytool();
    err := app.Setup(map["mytool" := mytool]);
    copied := mytool.options;
  }

  /** A tool whose interface is not registered: setup fails before the interface is touched. */
  method UnregisteredTool() returns (err: Option<Error>, copied: map<string, string>)
    ensures err == Some(RuntimeError("Could not find interface 'mytool'"))
    ensures copied == map[]
  {
    var other := new Interface(["find"], "pson", ListAction);
    var app := new InterfaceBase(ToolClass, ["find"], map["verbose" := "true"]);
    TypeNameOfMytool();
    err := app.Setup(map["catalog" := other]);
    copied := other.options;
    assert NoInterfaceMessage("mytool") == "Could not find interface 'mytool'";
  }
}
