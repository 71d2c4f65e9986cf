/**
 * Interaction: a read-only projection of an action's `input`, `function` and
 * `payload`, read with optional chaining so that it never throws.
 */
module Interactions {
  import opened Wrappers
  import opened JsValues
  import opened Contexts
  import opened HandlerProxies

  /** The projected fields; `fn` stands for the field named `function`. */
  datatype Interaction = Interaction(input: Value, fn: Value, payload: Value)

  /** `Interaction(action)`: `action?.input`, `action?.input?.function`, `action?.input?.payload`. */
  function InteractionOf(action: Value): (r: Interaction)
    ensures action.Obj? && "input" in action.fields ==> r.input == action.fields["input"]
    ensures action.Obj? && "input" in action.fields && action.fields["input"].Obj? ==>
              var input := action.fields["input"].fields;
              && ("function" in input ==> r.fn == input["function"])
              && ("payload" in input ==> r.payload == input["payload"])
    ensures action.Obj? && "input" in action.fields && action.fields["input"].Obj? ==>
              var input := action.fields["input"].fields;
              && ("function" !in input ==> r.fn == Undefined)
              && ("payload" !in input ==> r.payload == Undefined)
    ensures !(action.Obj? && "input" in action.fields) ==> r == Interaction(Undefined, Undefined, Undefined)
    ensures !r.input.Obj? ==> r.fn == Undefined && r.payload == Undefined
  {
    var input := OptGet(action, "input");
    Interaction(input, OptGet(input, "function"), OptGet(input, "payload"))
  }

  /**
   * Where the proxy's strict read of `context.action.input.function`
   * succeeds, the projection of `context.action` gives the same value.
   */
  lemma InteractionAgreesWithStrictRead(ctx: Context)
    requires IncomingFunction(ctx).Ok?
    ensures InteractionOf(Action(ctx.value)).fn == IncomingFunction(ctx).value
  {
  }

  /** For a well-shaped context the projection yields the requested function name. */
  lemma InteractionOfWellShapedContext(context: Value)
    requires WellShaped(context)
    ensures InteractionOf(Action(context)).fn == Str(FunctionName(context))
    ensures InteractionOf(Action(context)).input == Input(context)
  {
  }
}
