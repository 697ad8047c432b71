/**
 * The collaborators the interface tools call but do not define: result
 * values, the outcome of an action, and the interface objects. The interface
 * registry itself is a map from interface name to interface object, passed to
 * `setup`. Their internals are not part of this model; only what
 * the tools rely on is stated here.
 */
module Interfaces {

  /** A Ruby value returned by an action: `nil`, `false` or any other object. */
  datatype Value = Nil | False | Obj(id: nat)
  {
    /** Ruby truthiness: everything except `nil` and `false`. */
    predicate Truthy()
    {
      !Nil? && !False?
    }
  }

  /** What calling an action gives: a value, or the exception it raised. */
  datatype ActionResult = Returned(value: Value) | Failed(message: string)

  /** One call of an action, as it was made: the verb and the argument list. */
  datatype Call = Call(verb: string, arguments: seq<string>)

  /**
   * An interface: a bundle of actions with a default output format and
   * an options store its actions read. `invoke` stands for the dynamic
   * `send` of a verb to the interface; the action sees the interface's
   * options. `calls` records the actions invoked so far; it exists only to
   * state how often, and with what, an action is called.
   */
  class Interface {
    const actions: seq<string>
    const defaultFormat: string
    const invoke: (map<string, string>, string, seq<string>) -> ActionResult
    var options: map<string, string>
    ghost var calls: seq<Call>

    constructor (actions: seq<string>, defaultFormat: string,
                 invoke: (map<string, string>, string, seq<string>) -> ActionResult)
      ensures this.actions == actions
      ensures this.defaultFormat == defaultFormat && this.invoke == invoke
      ensures options == map[] && calls == []
    {
      this.actions := actions;
      this.defaultFormat := defaultFormat;
      this.invoke := invoke;
      options := map[];
      calls := [];
    }

    /** `action?(verb)`: whether the interface declares that action. */
    predicate HasAction(verb: string)
    {
      verb in actions
    }

    /** `interface.send(verb, *arguments)`: runs the action once with these arguments. */
    method Send(verb: string, arguments: seq<string>) returns (res: ActionResult)
      modifies this`calls
      ensures res == invoke(options, verb, arguments)
      ensures calls == old(calls) + [Call(verb, arguments)]
    {
      res := invoke(options, verb, arguments);
      calls := calls + [Call(verb, arguments)];
    }
  }
}
