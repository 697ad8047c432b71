# Interface tool entry point, modelled in Dafny

Every interface tool (`puppet catalog`, `puppet facts`, …) is a subclass of
`Puppet::Application::InterfaceBase`. That class turns one command line into a
call of one action of one interface:

- The `--format` handler stores the output format.
- The `--mode` handler accepts only `user`, `agent` or `master` and records the run mode.
- `setup` does the following, in order:
  - takes the verb off the front of the positional arguments;
  - derives the interface name from the tool's class name;
  - looks the interface up in the registry;
  - defaults the format to the interface's own default;
  - copies the tool's options to the interface;
  - validates the verb.
- `main` invokes the action and prints the rendered result when the result is
  truthy. It then exits with `exit_code`.
- `render` either serialises the result with the format's render method, or,
  for the `to_pson` method, dumps it and exits with 0.

The model keeps this structure:

- `text.dfy` (module `Text`) holds the string operations the class relies on:
  - Ruby's `Array#join`;
  - ASCII `String#downcase`;
  - `String#sub(/.+:/, '')`, matched as Ruby's regex engine does. The match is
    the leftmost one, the greedy one, and `.` does not match a line break.
- `interfaces.dfy` (module `Interfaces`) holds the collaborators:
  - result values, with Ruby truthiness;
  - action results;
  - the `Interface` object. It has its actions, its default format and its
    options store, and an abstract `invoke` function stands for the dynamic
    `send` of a verb. A ghost log of calls records how often, and with what,
    an action was invoked.
- `interface_base.dfy` (module `Application`) holds the class `InterfaceBase`:
  - its fields are `@format`, `@exit_code`, `@verb`, `@arguments`, `@type`
    (here `typeName`), `@interface` (here `iface`), the run mode, the option
    store and the command line's positional tokens;
  - its methods are the option handlers, `Setup` and `RunMain` (`main`);
  - the pure parts are functions: `ParseRunMode`, `ExitCode`, `TypeName`,
    `Validate` and `Render`.

  Raising an exception and ending the process are values:
  - `Error` is what was raised;
  - `Outcome` is `Raised`, `Exited(code, printed)` or `DumpedAndExited0`.

  The interface registry is a `map` from interface name to `Interface`. The
  format handler is a `map` from format name to render method name.
- `scenarios.dfy` (module `Scenarios`) holds whole runs of a tool `mytool`.
  Each one is derived only from the contracts above.

Three behaviours of the code worth noting:

- Only a missing verb (`nil`) gets the "You must specify …" error. An empty
  verb is looked up as an action like any other (`EmptyVerbIsLookedUp`).
- An unknown format has no error of its own in the code. The format lookup
  returns `nil`, and asking `nil` for its render method raises. The model
  calls that error `UnknownFormat`.
- `to_sym` on an empty string raises `ArgumentError` in Ruby 1.8. This can
  happen in two places: `--format ""` (line 25) and a class name whose type
  name comes out empty (line 72). The model raises `ArgumentError` in both,
  leaving the format or the type name unchanged.

## Model

| member | source | states |
|---|---|---|
| `Application.ParseRunMode` | lib/puppet/application/interface_base.rb:28-29 | a `--mode` argument is accepted exactly when it is one of `user`, `agent`, `master` (case-sensitive), and the accepted mode's name is the argument |
| `Application.ParseRunModeOfName` | lib/puppet/application/interface_base.rb:29-30 | each of the three run modes is accepted under its own name |
| `Application.InvalidModeMessageNamesArgument` | lib/puppet/application/interface_base.rb:29 | the error for a rejected mode contains the offending argument, and it ends with the legal names joined by ", " in the order user, agent, master |
| `Application.InterfaceBase.HandleMode` | lib/puppet/application/interface_base.rb:28-32 | succeeds exactly for the three legal names and then records that run mode; otherwise raises the invalid-run-mode error and leaves the run mode unchanged |
| `Application.InterfaceBase.HandleFormat` | lib/puppet/application/interface_base.rb:24-26 | `--format` stores a non-empty argument as the format. An empty argument cannot be interned as a symbol, so it raises `ArgumentError` and leaves the format unchanged |
| `Application.InterfaceBase.constructor` | lib/puppet/application/interface_base.rb:4-6 | a new object starts in the run mode `agent` that InterfaceBase declares; no format, exit code, verb, interface name or interface is set yet |
| `Application.InterfaceBase.ExitCode` | lib/puppet/application/interface_base.rb:40-42 | 0 when no exit code has been written, otherwise the written code |
| `Application.InterfaceBase.SetExitCode` | lib/puppet/application/interface_base.rb:36 | after the exit code is written, `exit_code` returns it |
| `Application.InterfaceBase.Setup` | lib/puppet/application/interface_base.rb:63-85 | the verb is the first token, or nil if there is none. The arguments are the remaining tokens in order, and verb followed by arguments gives back the command line. An empty interface name cannot be interned, so it raises `ArgumentError` and leaves the interface name, the interface, the format and all options untouched. Otherwise the interface name is set. An unknown interface raises "Could not find interface '…'" and leaves the interface, the format and every interface's options untouched. A known interface is stored. A format already set is kept, otherwise the interface's default is used. The options are copied to that interface whether or not validation then fails. The result is that of `validate`. No action runs. Success holds exactly when the interface name is non-empty, the interface is registered, and it declares the verb |
| `Application.Validate` | lib/puppet/application/interface_base.rb:87-95 | succeeds exactly when there is a verb and the interface declares it. A missing verb raises the "You must specify … as a verb" error. An undeclared verb raises "Command '<verb>' not found for <type>" |
| `Application.MissingVerbListsActions` | lib/puppet/application/interface_base.rb:88-89 | the missing-verb error contains every action of the interface, each at its own offset, and the offsets grow with the declared order |
| `Application.EmptyVerbIsLookedUp` | lib/puppet/application/interface_base.rb:88-94 | an empty-string verb is not treated as missing. It fails with "Command '' not found" unless "" is an action |
| `Application.RenderMethod` | lib/puppet/application/interface_base.rb:54 | a render method exists exactly for a set format that the format handler knows, and it is that format's method |
| `Application.Render` | lib/puppet/application/interface_base.rb:53-61 | rendering dumps the result and exits 0 exactly when the format's render method is `to_pson`. For any other known method it returns the result serialised by that method. For an unknown format it fails |
| `Application.InterfaceBase.RunMain` | lib/puppet/application/interface_base.rb:44-50 | the action is invoked exactly once, with the verb and the arguments in order. An exception from the action is passed on unchanged. A falsy result prints nothing and exits with `exit_code`. A truthy result is rendered and printed, then the run exits with `exit_code`. The dump path ends with status 0 whatever `exit_code` holds |
| `Interfaces.Interface.Send` | lib/puppet/application/interface_base.rb:46 | sending a verb runs that action once, on the interface's options and the given arguments, and logs the call |
| `Application.TypeName` | lib/puppet/application/interface_base.rb:72 | the interface name is never longer than the class name and contains no capital letters. `TypeNameOfNamespacedClass` and `TypeNameOfPlainClass` give its exact value for every class name without line breaks |
| `Application.TypeNameOfNamespacedClass` | lib/puppet/application/interface_base.rb:72 | for a class name whose last ':' is at position 1 or later, the interface name is the lower-cased text after that ':' and contains no ':' |
| `Application.TypeNameOfPlainClass` | lib/puppet/application/interface_base.rb:72 | a class name with no ':' after its first character is only lower-cased |
| `Application.TypeNameUnderNamespace` | lib/puppet/application/interface_base.rb:72 | a class named inside a namespace that ends in ':' is bound to its own lower-cased name |
| `Application.TypeNameOfApplicationClass` | lib/puppet/application/interface_base.rb:72 | a tool class `Puppet::Application::<Name>` is bound to the interface `<name>` in lower case |
| `Application.TypeNameOfCatalog` | lib/puppet/application/interface_base.rb:72 | `Puppet::Application::Catalog` is bound to `catalog` |
| `Text.StripThroughColon` | lib/puppet/application/interface_base.rb:72 | `sub(/.+:/, '')` either leaves the name unchanged or removes at least two characters |
| `Text.StripRemovesThroughLastColon` | lib/puppet/application/interface_base.rb:72 | on a string without line breaks whose last ':' is at position 1 or later, the substitution leaves exactly the text after that ':' |
| `Text.StripKeepsUnqualified` | lib/puppet/application/interface_base.rb:72 | with no ':' after the first character there is no match, and the string is unchanged |
| `Text.ToLower` | lib/puppet/application/interface_base.rb:72 | `downcase` keeps the length and maps each character on its own, replacing ASCII capitals by small letters |
| `Text.ToLowerIsLower` | lib/puppet/application/interface_base.rb:72 | a downcased string has no capitals left, and downcasing it again changes nothing |
| `Text.Join` | lib/puppet/application/interface_base.rb:89 | joining no parts gives ""; otherwise the length is the parts' total length plus one separator between each consecutive pair |
| `Text.JoinPlacesPart` | lib/puppet/application/interface_base.rb:89 | each part appears in the joined string at its offset, so the parts are listed in their given order |
| `Text.JoinPlacesSeparator` | lib/puppet/application/interface_base.rb:89 | between each part and the next the joined string holds exactly the separator, and the next part starts right after it |
| `Scenarios.ListAsJson` | lib/puppet/application/interface_base.rb:44-85 | `mytool list --format json`, where `list` returns a list: the JSON text is printed and the tool exits with 0 |
| `Scenarios.ListDumpedDespiteExitCode` | lib/puppet/application/interface_base.rb:53-58 | with exit code 3 written and the interface defaulting to the dump format, the result is dumped and the status is 0 |
| `Scenarios.BogusMode` | lib/puppet/application/interface_base.rb:28-32 | `mytool --mode bogus find x`: the invalid-run-mode error for `bogus` is raised, and the run mode stays as it was (the `agent` that InterfaceBase declares) |
| `Scenarios.EmptyFormat` | lib/puppet/application/interface_base.rb:24-26 | `--format ""` raises the empty-symbol `ArgumentError`, and no format is set |
| `Scenarios.MissingVerb` | lib/puppet/application/interface_base.rb:80-89 | with no verb, setup raises the missing-verb error listing `list`, and the options have already reached the interface |
| `Scenarios.UnregisteredTool` | lib/puppet/application/interface_base.rb:74-76 | with the tool's interface not registered, setup raises "Could not find interface 'mytool'", and the registered interface receives no options |
| `Scenarios.TypeNameOfMytool` | lib/puppet/application/interface_base.rb:72 | `Puppet::Application::Mytool` is bound to `mytool` |

## Left out

- The interrupt trap in `preinit` (lines 8-14): asynchronous signal handling.
- `--debug` and `--verbose` (lines 16-22), and the console log destination in `setup` (line 64): they only change process-wide logging.
- `should_parse_config` (line 5) and the generic option layer that splits the command line into options and positional tokens. The tokens and the option store are inputs.
- Real printing, the structured dump (`jj`) and process exit. They are `Outcome` values. What `puts` adds to the text (a trailing newline) is not modelled.
- The interface registry, the format handler and the actions are abstract:
  - the registry is a map of interface objects;
  - the format handler is a map from format name to render method name, and
    the handler's own normalisation of format names is not modelled;
  - the actions are an arbitrary function of options, verb and arguments.
- `result.send(render_method)` is a total function of the value and the method name. A result that lacks the method, and so raises, is not modelled.
- `Application.InterfaceBase.constructor`: the starting run mode is taken to be the `agent` that InterfaceBase declares at line 6. Whether a tool subclass inherits that class-level setting depends on how `Puppet::Application.run_mode` stores it, which is not part of this model; inheritance by tool subclasses is not modelled.
- `Application.InterfaceBase.HandleMode`: the class-level `run_mode` and the instance's `set_run_mode` are one field here. What `set_run_mode` does to Puppet's settings is not modelled.
- `Application.InterfaceBase.Setup`: the options are copied to the interface as a value. In Ruby the interface then shares the tool's hash, so later changes to that hash are visible to the interface; the model does not capture this.
- `Application.InterfaceBase.Setup`: in Ruby, `@arguments` and `command_line.args` are the same array. The model keeps two fields that are equal after `setup`. `@arguments ||= []` and `Array(@arguments)` do nothing to an array and are not modelled.
- `Application.InterfaceBase.SetExitCode`: only integers can be written. Ruby would also accept `false`, which `exit_code` reads as 0. The operating system truncating the status to 8 bits is not modelled.
- `Text.ToLower`: only ASCII capitals are mapped, as in the Ruby versions of the time. Unicode case mapping is not modelled.
- `Text.StripRemovesThroughLastColon`: the characterisation is stated only for strings without line breaks, since a Ruby class name cannot contain one. `Text.StripThroughColon` itself also handles line breaks.
- Symbols (`to_sym`) are plain strings. Interning them is modelled only by the Ruby 1.8 refusal to intern an empty string. Ruby 1.9 and later accept `""`, and the model does not follow that.
