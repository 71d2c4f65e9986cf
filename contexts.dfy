/**
 * The shape a context must have before it is dispatched
 * (`{ state, action: { input: { function, payload }, caller? } }`), the
 * ordered list of checks that establish it, and the operations on a
 * well-shaped context that routing and delegation use.
 */
module Contexts {
  import opened Wrappers
  import opened JsValues

  /** One check of the shape validator, named after what it demands. */
  datatype ShapeCheck =
    | ContextPresent     // `context` is truthy
    | ContextIsObject    // `typeof context === "object"`
    | StatePresent       // `context.state` exists and is truthy
    | ActionIsObject     // `context.action` exists, is truthy and an object
    | InputIsObject      // `context.action.input` exists, is truthy and an object
    | FunctionIsString   // `context.action.input.function` exists, is truthy and a string

  /** The order in which the validator applies the checks. */
  const ShapeChecks: seq<ShapeCheck> :=
    [ContextPresent, ContextIsObject, StatePresent, ActionIsObject, InputIsObject, FunctionIsString]

  function Action(context: Value): Value {
    Prop(context, "action")
  }

  function Input(context: Value): Value {
    Prop(Action(context), "input")
  }

  function FunctionField(context: Value): Value {
    Prop(Input(context), "function")
  }

  /** Whether `context` passes one check, judged on its own. */
  predicate Passes(check: ShapeCheck, context: Value) {
    match check
    case ContextPresent => Truthy(context)
    case ContextIsObject => IsObjectType(context)
    case StatePresent => Truthy(Prop(context, "state"))
    case ActionIsObject => Truthy(Action(context)) && IsObjectType(Action(context))
    case InputIsObject => Truthy(Input(context)) && IsObjectType(Input(context))
    case FunctionIsString => Truthy(FunctionField(context)) && FunctionField(context).Str?
  }

  /** The first check of `checks` that `context` fails, if any. */
  function FirstViolation(checks: seq<ShapeCheck>, context: Value): (r: Option<ShapeCheck>)
  {
    if checks == [] then None
    else if !Passes(checks[0], context) then Some(checks[0])
    else FirstViolation(checks[1..], context)
  }

  /**
   * A context is valid for dispatch iff it is an object whose `state` is
   * truthy, whose `action` and `action.input` are non-null objects and whose
   * `action.input.function` is a non-empty string.
   */
  predicate WellShaped(context: Value) {
    && context.Obj?
    && Truthy(Prop(context, "state"))
    && Action(context).Obj?
    && Input(context).Obj?
    && FunctionField(context).Str?
    && FunctionField(context).s != ""
  }

  /** The requested function name of a well-shaped context. */
  function FunctionName(context: Value): (r: string)
    requires WellShaped(context)
    ensures r != ""
  {
    FunctionField(context).s
  }

  /** The reported check is the first in `checks` that fails: all before it pass. */
  lemma {:induction false} FirstViolationIsFirst(checks: seq<ShapeCheck>, context: Value)
    ensures FirstViolation(checks, context).None? <==>
              forall k :: 0 <= k < |checks| ==> Passes(checks[k], context)
    ensures FirstViolation(checks, context).Some? ==>
              exists i :: 0 <= i < |checks| && checks[i] == FirstViolation(checks, context).value
                          && !Passes(checks[i], context)
                          && forall k :: 0 <= k < i ==> Passes(checks[k], context)
  {
    if checks != [] {
      FirstViolationIsFirst(checks[1..], context);
      if Passes(checks[0], context) {
        if FirstViolation(checks[1..], context).Some? {
          var i :| 0 <= i < |checks[1..]| && checks[1..][i] == FirstViolation(checks[1..], context).value
                   && !Passes(checks[1..][i], context)
                   && forall k :: 0 <= k < i ==> Passes(checks[1..][k], context);
          assert checks[i + 1] == FirstViolation(checks, context).value;
          forall k | 0 <= k < i + 1 ensures Passes(checks[k], context) {
            if k > 0 { assert checks[k] == checks[1..][k - 1]; }
          }
        } else {
          forall k | 0 <= k < |checks| ensures Passes(checks[k], context) {
            if k > 0 { assert checks[k] == checks[1..][k - 1]; }
          }
        }
      } else {
        assert checks[0] == FirstViolation(checks, context).value;
      }
    }
  }

  /** The first failing check, spelled out in the validator's order. */
  lemma ShapeChecksInOrder(context: Value)
    ensures FirstViolation(ShapeChecks, context) ==
              if !Passes(ContextPresent, context) then Some(ContextPresent)
              else if !Passes(ContextIsObject, context) then Some(ContextIsObject)
              else if !Passes(StatePresent, context) then Some(StatePresent)
              else if !Passes(ActionIsObject, context) then Some(ActionIsObject)
              else if !Passes(InputIsObject, context) then Some(InputIsObject)
              else if !Passes(FunctionIsString, context) then Some(FunctionIsString)
              else None
  {
    var c0 := ShapeChecks;
    var c1, c2, c3, c4, c5 := c0[1..], c0[2..], c0[3..], c0[4..], c0[5..];
    assert c1[1..] == c2 && c2[1..] == c3 && c3[1..] == c4 && c4[1..] == c5 && c5[1..] == [];
    assert FirstViolation(c5, context) ==
             if !Passes(FunctionIsString, context) then Some(FunctionIsString) else None;
    assert FirstViolation(c4, context) ==
             if !Passes(InputIsObject, context) then Some(InputIsObject) else FirstViolation(c5, context);
    assert FirstViolation(c3, context) ==
             if !Passes(ActionIsObject, context) then Some(ActionIsObject) else FirstViolation(c4, context);
    assert FirstViolation(c2, context) ==
             if !Passes(StatePresent, context) then Some(StatePresent) else FirstViolation(c3, context);
    assert FirstViolation(c1, context) ==
             if !Passes(ContextIsObject, context) then Some(ContextIsObject) else FirstViolation(c2, context);
  }

  /** Passing every check of the ordered list is exactly being well shaped. */
  lemma AllChecksPassIffWellShaped(context: Value)
    ensures FirstViolation(ShapeChecks, context).None? <==> WellShaped(context)
  {
    FirstViolationIsFirst(ShapeChecks, context);
    if forall k :: 0 <= k < |ShapeChecks| ==> Passes(ShapeChecks[k], context) {
      assert Passes(ShapeChecks[0], context) && Passes(ShapeChecks[1], context);
      assert Passes(ShapeChecks[2], context) && Passes(ShapeChecks[3], context);
      assert Passes(ShapeChecks[4], context) && Passes(ShapeChecks[5], context);
    }
    if WellShaped(context) {
      forall k | 0 <= k < |ShapeChecks| ensures Passes(ShapeChecks[k], context) { }
    }
  }

  /**
   * The context with `action.input.function` set to `target`: what a handler
   * does before it delegates to the handler registered under `target`.
   */
  function Retarget(context: Value, target: string): (r: Value)
    requires context.Obj? && Action(context).Obj? && Input(context).Obj?
    ensures WellShaped(context) && target != "" ==> WellShaped(r) && FunctionName(r) == target
    ensures forall k :: k != "action" ==> Prop(r, k) == Prop(context, k)
    ensures forall k :: k != "input" ==> Prop(Action(r), k) == Prop(Action(context), k)
    ensures forall k :: k != "function" ==> Prop(Input(r), k) == Prop(Input(context), k)
  {
    var action := Action(context);
    var input := Input(context);
    var input' := Obj(input.fields["function" := Str(target)]);
    Obj(context.fields["action" := Obj(action.fields["input" := input'])])
  }
}
