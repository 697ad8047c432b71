/**
 * The entry point shared by every interface tool (`InterfaceBase`): option
 * handlers for `--format` and `--mode`, `setup` (verb, arguments, interface
 * name, interface lookup, default format, option copy, validation), `main`
 * (invoke, print, exit) and `render`.
 *
 * Raising an exception, printing and ending the process are modelled as
 * returned values (`Error`, `Outcome`); the interface registry is a map from
 * interface name to interface object, and the format handler a map from
 * format name to the name of its render method.
 */
module Application {
  import opened Wrappers
  import opened Text
  import opened Interfaces

  // ---------------------------------------------------------------------------
  // Run modes

  datatype RunMode = User | Agent | Master

  /** The only values `--mode` accepts, in the order the error message lists them. */
  const ModeNames: seq<string> := ["user", "agent", "master"]

  function ModeName(m: RunMode): string
  {
    match m
    case User => "user"
    case Agent => "agent"
    case Master => "master"
  }

  /** The run mode a `--mode` argument names; None for anything but the three exact names. */
  function ParseRunMode(arg: string): (r: Option<RunMode>)
    ensures r.Some? <==> arg in ModeNames
    ensures r.Some? ==> ModeName(r.value) == arg
  {
    if arg == "user" then Some(User)
    else if arg == "agent" then Some(Agent)
    else if arg == "master" then Some(Master)
    else None
  }

  /** Every run mode is accepted under its own name. */
  lemma ParseRunModeOfName(m: RunMode)
    ensures ParseRunMode(ModeName(m)) == Some(m)
  {
  }

  const InvalidModeLead: string := "Invalid run mode "
  const InvalidModeTail: string := "; supported modes are user, agent, master"

  function InvalidModeMessage(arg: string): string
  {
    InvalidModeLead + arg + InvalidModeTail
  }

  /**
   * The error for a rejected `--mode` names the offending argument right
   * after its lead, and ends with the legal names joined by ", " in order.
   */
  lemma InvalidModeMessageNamesArgument(arg: string)
    ensures InvalidModeMessage(arg)[|InvalidModeLead|..|InvalidModeLead| + |arg|] == arg
    ensures InvalidModeMessage(arg)[|InvalidModeMessage(arg)| - |Join(ModeNames, ", ")|..] == Join(ModeNames, ", ")
  {
  }

  // ---------------------------------------------------------------------------
  // Errors and outcomes

  datatype Error =
    | RuntimeError(message: string)
      // the source's `raise "..."`
    | UnknownFormat(format: Option<string>)
      // the format handler knows no such format, so asking it for a render method fails
    | ActionError(message: string)
      // raised by the action itself and passed on untouched
    | ArgumentError(message: string)
      // `to_sym` of an empty string (Ruby 1.8 refuses to intern it)

  /** What Ruby 1.8 raises for `"".to_sym`. */
  const EmptySymbolMessage: string := "interning empty string"

  /** How `main` ends: an exception, an exit with what was printed, or the structured dump and exit 0. */
  datatype Outcome =
    | Raised(error: Error)
    | Exited(code: int, printed: Option<string>)
    | DumpedAndExited0(dumped: Value)
  {
    /** The status handed to the operating system, when the run ends by `exit`. */
    function Status(): Option<int>
    {
      match this
      case Raised(_) => None
      case Exited(code, _) => Some(code)
      case DumpedAndExited0(_) => Some(0)
    }
  }

  // ---------------------------------------------------------------------------
  // The interface name of a tool

  /**
   * `self.class.name.to_s.sub(/.+:/, '').downcase`: the tool's class name
   * with everything through the matched ':' removed, in lower case.
   */
  function TypeName(className: string): (r: string)
    ensures |r| <= |className|
    ensures forall m :: 0 <= m < |r| ==> !IsUpper(r[m])
  {
    ToLower(StripThroughColon(className))
  }

  /** For a namespaced class name, the interface name is the lower-cased last segment and holds no ':'. */
  lemma TypeNameOfNamespacedClass(className: string, j: nat)
    requires forall m :: 0 <= m < |className| ==> className[m] != '\n'
    requires 1 <= j < |className| && className[j] == ':'
    requires forall m :: j < m < |className| ==> className[m] != ':'
    ensures TypeName(className) == ToLower(className[j + 1..])
    ensures forall m :: 0 <= m < |TypeName(className)| ==> TypeName(className)[m] != ':'
  {
    StripRemovesThroughLastColon(className, j);
  }

  /** A class name with no ':' after its first character is only lower-cased. */
  lemma TypeNameOfPlainClass(className: string)
    requires forall m :: 1 <= m < |className| ==> className[m] != ':'
    ensures TypeName(className) == ToLower(className)
  {
    StripKeepsUnqualified(className);
  }

  const ApplicationNamespace: string := "Puppet::Application::"

  lemma NamespaceHasNoBreak()
    ensures forall m :: 0 <= m < |ApplicationNamespace| ==> ApplicationNamespace[m] != '\n'
  {
  }

  /** Under a namespace ending in ':', a tool class is bound to its own name, lower-cased. */
  lemma TypeNameUnderNamespace(ns: string, segment: string)
    requires 2 <= |ns| && ns[|ns| - 1] == ':'
    requires forall m :: 0 <= m < |ns| ==> ns[m] != '\n'
    requires forall m :: 0 <= m < |segment| ==> segment[m] != ':' && segment[m] != '\n'
    ensures TypeName(ns + segment) == ToLower(segment)
  {
    var name := ns + segment;
    var j := |ns| - 1;
    forall m | 0 <= m < |name|
      ensures name[m] != '\n'
    {
      if m < |ns| { assert name[m] == ns[m]; } else { assert name[m] == segment[m - |ns|]; }
    }
    forall m | j < m < |name|
      ensures name[m] != ':'
    {
      assert name[m] == segment[m - |ns|];
    }
    assert name[j + 1..] == segment;
    TypeNameOfNamespacedClass(name, j);
  }

  /** A tool class directly under the application namespace is bound to its lower-cased own name. */
  lemma TypeNameOfApplicationClass(segment: string)
    requires forall m :: 0 <= m < |segment| ==> segment[m] != ':' && segment[m] != '\n'
    ensures TypeName(ApplicationNamespace + segment) == ToLower(segment)
  {
    NamespaceHasNoBreak();
    TypeNameUnderNamespace(ApplicationNamespace, segment);
  }

  lemma TypeNameOfCatalog()
    ensures TypeName(ApplicationNamespace + "Catalog") == "catalog"
  {
    TypeNameOfApplicationClass("Catalog");
    var lower := ToLower("Catalog");
    assert lower[0] == 'c' && lower[1] == 'a' && lower[2] == 't' && lower[3] == 'a';
    assert lower[4] == 'l' && lower[5] == 'o' && lower[6] == 'g';
    assert lower == "catalog";
  }

  // ---------------------------------------------------------------------------
  // validate

  const MissingVerbLead: string := "You must specify "
  const MissingVerbTail: string := " as a verb; 'save' probably does not work right now"

  function MissingVerbMessage(actions: seq<string>): string
  {
    MissingVerbLead + Join(actions, ", ") + MissingVerbTail
  }

  function UnknownVerbMessage(verb: string, typeName: string): string
  {
    "Command '" + verb + "' not found for " + typeName
  }

  function NoInterfaceMessage(typeName: string): string
  {
    "Could not find interface '" + typeName + "'"
  }

  /**
   * `validate`: fails when there is no verb (only a missing one: an empty
   * verb is looked up like any other), or when the interface has no such
   * action; succeeds otherwise.
   */
  function Validate(verb: Option<string>, actions: seq<string>, typeName: string): (e: Option<Error>)
    ensures e.None? <==> verb.Some? && verb.value in actions
    ensures verb.None? ==> e == Some(RuntimeError(MissingVerbMessage(actions)))
    ensures verb.Some? && verb.value !in actions ==> e == Some(RuntimeError(UnknownVerbMessage(verb.value, typeName)))
  {
    if verb.None? then Some(RuntimeError(MissingVerbMessage(actions)))
    else if verb.value !in actions then Some(RuntimeError(UnknownVerbMessage(verb.value, typeName)))
    else None
  }

  /**
   * Without a verb, the error lists every action of the interface, in the
   * interface's order, separated by ", ".
   */
  lemma MissingVerbListsActions(actions: seq<string>, typeName: string, i: nat)
    requires i < |actions|
    ensures var msg := Validate(None, actions, typeName).value.message;
            var at := |MissingVerbLead| + PartOffset(actions, ", ", i);
            at + |actions[i]| <= |msg| && msg[at..at + |actions[i]|] == actions[i]
    ensures i + 1 < |actions| ==>
              PartOffset(actions, ", ", i) < PartOffset(actions, ", ", i + 1)
  {
    JoinPlacesPart(actions, ", ", i);
    var list := Join(actions, ", ");
    var msg := MissingVerbMessage(actions);
    var off := PartOffset(actions, ", ", i);
    assert msg[|MissingVerbLead|..|MissingVerbLead| + |list|] == list;
    assert msg[|MissingVerbLead| + off..|MissingVerbLead| + off + |actions[i]|] == list[off..off + |actions[i]|];
    if i + 1 < |actions| {
      JoinPlacesSeparator(actions, ", ", i);
    }
  }

  /** An empty-string verb is not "missing": it fails the action lookup unless "" is an action. */
  lemma EmptyVerbIsLookedUp(actions: seq<string>, typeName: string)
    ensures "" !in actions ==> Validate(Some(""), actions, typeName) == Some(RuntimeError(UnknownVerbMessage("", typeName)))
    ensures "" in actions ==> Validate(Some(""), actions, typeName) == None
  {
  }

  // ---------------------------------------------------------------------------
  // render

  /** `Puppet::Network::FormatHandler.format(format).render_method`, when the format is known. */
  function RenderMethod(formats: map<string, string>, format: Option<string>): (m: Option<string>)
    ensures m.Some? <==> format.Some? && format.value in formats
    ensures m.Some? ==> m.value == formats[format.value]
  {
    if format.Some? && format.value in formats then Some(formats[format.value]) else None
  }

  /** The render method of the structured-dump format. */
  const DumpMethod: string := "to_pson"

  /** What `render` does: return text, or dump the value and exit 0. */
  datatype Rendering = Rendered(text: string) | DumpAndExit0(dumped: Value) | NoRenderMethod

  /**
   * `render(result)`: with the dump format the result is dumped and the
   * process ends with 0; with any other known format the result's own
   * serialisation by that format's method is returned.
   */
  function Render(formats: map<string, string>, serialize: (Value, string) -> string,
                  format: Option<string>, result: Value): (r: Rendering)
    ensures r.NoRenderMethod? <==> RenderMethod(formats, format).None?
    ensures r.DumpAndExit0? <==> RenderMethod(formats, format) == Some(DumpMethod)
    ensures r.DumpAndExit0? ==> r.dumped == result
    ensures r.Rendered? ==> exists m :: RenderMethod(formats, format) == Some(m) && m != DumpMethod && r.text == serialize(result, m)
  {
    match RenderMethod(formats, format)
    case None => NoRenderMethod
    case Some(m) => if m == DumpMethod then DumpAndExit0(result) else Rendered(serialize(result, m))
  }

  // ---------------------------------------------------------------------------
  // The application object

  class InterfaceBase {
    /** The tool's class name, e.g. "Puppet::Application::Catalog". */
    const className: string
    /** The run mode; starts as the `agent` that InterfaceBase declares. */
    var runMode: RunMode
    /** The option store the generic option layer filled. */
    var options: map<string, string>
    /** The positional tokens of the command line. */
    var args: seq<string>
    var format: Option<string>
    var exitCode: Option<int>
    var verb: Option<string>
    var arguments: seq<string>
    var typeName: Option<string>
    var iface: Interface?

    constructor (className: string, args: seq<string>, options: map<string, string>)
      ensures this.className == className && this.args == args && this.options == options
      ensures runMode == Agent && format == None && exitCode == None
      ensures verb == None && arguments == [] && typeName == None && iface == null
    {
      this.className := className;
      this.args := args;
      this.options := options;
      runMode := Agent;
      format := None;
      exitCode := None;
      verb := None;
      arguments := [];
      typeName := None;
      iface := null;
    }

    /**
     * `--format FORMAT`: remembers the format as a symbol; an empty
     * argument cannot be made a symbol, so it raises and nothing changes.
     */
    method HandleFormat(arg: string) returns (err: Option<Error>)
      modifies this`format
      ensures err.None? <==> arg != ""
      ensures err.None? ==> format == Some(arg)
      ensures err.Some? ==> err.value == ArgumentError(EmptySymbolMessage) && format == old(format)
    {
      if arg == "" {
        return Some(ArgumentError(EmptySymbolMessage));
      }
      format := Some(arg);
      err := None;
    }

    /**
     * `--mode RUNMODE`: accepts exactly "user", "agent" or "master" and
     * records that run mode; anything else raises and changes nothing.
     */
    method HandleMode(arg: string) returns (err: Option<Error>)
      modifies this`runMode
      ensures err.None? <==> arg in ModeNames
      ensures err.None? ==> ModeName(runMode) == arg
      ensures err.Some? ==> err.value == RuntimeError(InvalidModeMessage(arg)) && runMode == old(runMode)
    {
      var mode := ParseRunMode(arg);
      if mode.None? {
        return Some(RuntimeError(InvalidModeMessage(arg)));
      }
      runMode := mode.value;
      err := None;
    }

    /** `exit_code`: the written code, or 0 when none was written. */
    function ExitCode(): (c: int)
      reads this
      ensures exitCode.None? ==> c == 0
      ensures exitCode.Some? ==> c == exitCode.value
    {
      if exitCode.Some? then exitCode.value else 0
    }

    /** `exit_code=`: later runs of `main` exit with this code. */
    method SetExitCode(code: int)
      modifies this`exitCode
      ensures ExitCode() == code
    {
      exitCode := Some(code);
    }

    /** The state a successful `setup` leaves: an interface and a verb it declares. */
    predicate Resolved()
      reads this
    {
      iface != null && verb.Some? && iface.HasAction(verb.value)
    }

    /**
     * `setup`: takes the verb off the command line, derives the interface
     * name, looks the interface up, defaults the format, copies the options
     * to the interface and validates. Fails fast when the interface name is
     * empty (no symbol) or unknown: nothing after that point happens then.
     */
    method Setup(registry: map<string, Interface>) returns (err: Option<Error>)
      modifies this, registry.Values
      // the verb is the first token, the arguments are the rest in order
      ensures verb == (if old(args) == [] then None else Some(old(args)[0]))
      ensures arguments == (if old(args) == [] then [] else old(args)[1..])
      ensures old(args) == (if verb.Some? then [verb.value] else []) + arguments
      ensures args == arguments
      ensures typeName == if TypeName(className) == "" then old(typeName) else Some(TypeName(className))
      ensures runMode == old(runMode) && options == old(options) && exitCode == old(exitCode)
      // empty interface name: `to_sym` raises, and interface, format and options are left alone
      ensures TypeName(className) == "" ==>
                && err == Some(ArgumentError(EmptySymbolMessage))
                && iface == old(iface) && format == old(format)
                && forall i :: i in registry.Values ==> i.options == old(i.options)
      // unknown interface: raise, and leave interface, format and options alone
      ensures TypeName(className) != "" && TypeName(className) !in registry ==>
                && err == Some(RuntimeError(NoInterfaceMessage(TypeName(className))))
                && iface == old(iface) && format == old(format)
                && forall i :: i in registry.Values ==> i.options == old(i.options)
      // known interface: the format is defaulted, the options copied, then validated
      ensures TypeName(className) != "" && TypeName(className) in registry ==>
                && iface == registry[TypeName(className)]
                && format == (if old(format).Some? then old(format) else Some(iface.defaultFormat))
                && iface.options == options
                && err == Validate(verb, iface.actions, TypeName(className))
                && forall i :: i in registry.Values && i != iface ==> i.options == old(i.options)
      ensures err.None? <==> TypeName(className) != "" && TypeName(className) in registry && Resolved()
      // no action runs during setup
      ensures forall i :: i in registry.Values ==> i.calls == old(i.calls)
    {
      if args == [] {
        verb := None;
      } else {
        verb := Some(args[0]);
        args := args[1..];
      }
      arguments := args;

      var t := TypeName(className);
      if t == "" {
        return Some(ArgumentError(EmptySymbolMessage));
      }
      typeName := Some(t);
      if t !in registry {
        return Some(RuntimeError(NoInterfaceMessage(t)));
      }
      iface := registry[t];
      if format.None? {
        format := Some(iface.defaultFormat);
      }
      iface.options := options;

      err := Validate(verb, iface.actions, t);
    }

    /**
     * `main`: runs the action once with the arguments; prints the rendered
     * result only when it is truthy, then exits with `exit_code` — unless
     * rendering dumped the result, which exits with 0.
     */
    method RunMain(formats: map<string, string>, serialize: (Value, string) -> string) returns (o: Outcome)
      requires Resolved()
      modifies iface`calls
      ensures iface.calls == old(iface.calls) + [Call(verb.value, arguments)]
      ensures var res := iface.invoke(iface.options, verb.value, arguments);
              && (res.Failed? ==> o == Raised(ActionError(res.message)))
              && (res.Returned? && !res.value.Truthy() ==> o == Exited(ExitCode(), None))
              && (res.Returned? && res.value.Truthy() ==>
                    match Render(formats, serialize, format, res.value)
                    case Rendered(t) => o == Exited(ExitCode(), Some(t))
                    case DumpAndExit0(d) => o == DumpedAndExited0(d)
                    case NoRenderMethod => o == Raised(UnknownFormat(format)))
      // whenever main reaches its own exit, it exits with exit_code
      ensures o.Exited? ==> o.code == ExitCode()
      // the dump path ends with 0 whatever exit_code holds
      ensures o.DumpedAndExited0? ==> o.Status() == Some(0) && RenderMethod(formats, format) == Some(DumpMethod)
    {
      var res := iface.Send(verb.value, arguments);
      match res
      case Failed(msg) =>
        o := Raised(ActionError(msg));
      case Returned(v) =>
        if v.Truthy() {
          match Render(formats, serialize, format, v)
          case Rendered(t) => o := Exited(ExitCode(), Some(t));
          case DumpAndExit0(d) => o := DumpedAndExited0(d);
          case NoRenderMethod => o := Raised(UnknownFormat(format));
        } else {
          o := Exited(ExitCode(), None);
        }
    }
  }
}
