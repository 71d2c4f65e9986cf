/**
 * ActionsBuilder: registers named action handlers, rejecting duplicate names
 * and malformed handlers, and builds the dispatcher that validates a
 * context, attaches a non-writable `contract` member holding the
 * dispatcher's chain map as `actions`, and routes the
 * context to the proxy registered under the requested function name.
 */
module Actions {
  import opened Wrappers
  import opened JsValues
  import opened Contexts
  import opened Errors
  import opened HandlerProxies
  import opened ActionArguments

  // ---------------------------------------------------------------------------
  // Context validation
  // ---------------------------------------------------------------------------

  /** The usage example appended to the later shape-check messages. */
  const ExampleCall :=
    "Example:\n  \n  contract.handle({\n    state: { ... },\n    action: {\n      input: {\n        function: \"some_function_name\"\n      }\n    }\n  });\n  \n"

  function ShapeMessage(check: ShapeCheck): string {
    match check
    case ContextPresent => "Unexpected missing `context` object"
    case ContextIsObject => "Argument `context` in `contract.handle(context)`should be an object"
    case StatePresent => "Field `context.state` is required. " + ExampleCall
    case ActionIsObject => "Field 'context.action' should be an object. " + ExampleCall
    case InputIsObject => "Field 'context.action.input' should be an object. " + ExampleCall
    case FunctionIsString => "Field 'context.action.input.function' should be a string. " + ExampleCall
  }

  function ShapeError(check: ShapeCheck): Error {
    Error(InvalidShape(check), ShapeMessage(check))
  }

  /**
   * `validateContextShape`: the context comes back unchanged when it is well
   * shaped; otherwise the error names the first check, in validator order,
   * that it fails.
   */
  function ValidateContextShape(context: Value): (r: Result<Value, Error>)
    ensures r.Ok? <==> WellShaped(context)
    ensures r.Ok? ==> r.value == context
    ensures r.Err? ==> FirstViolation(ShapeChecks, context).Some?
                       && r.error == ShapeError(FirstViolation(ShapeChecks, context).value)
  {
    AllChecksPassIffWellShaped(context);
    ShapeChecksInOrder(context);
    if !Truthy(context) then Err(ShapeError(ContextPresent))
    else if !IsObjectType(context) then Err(ShapeError(ContextIsObject))
    else if !Truthy(Prop(context, "state")) then Err(ShapeError(StatePresent))
    else if !Truthy(Action(context)) || !IsObjectType(Action(context)) then Err(ShapeError(ActionIsObject))
    else if !Truthy(Input(context)) || !IsObjectType(Input(context)) then Err(ShapeError(InputIsObject))
    else if !Truthy(FunctionField(context)) || !FunctionField(context).Str? then Err(ShapeError(FunctionIsString))
    else Ok(context)
  }

  /**
   * `validateContext`: shape first, then a non-empty function list, then the
   * requested name among the known functions.
   */
  function ValidateContext(context: Value, functions: seq<string>): (r: Result<Value, Error>)
    ensures !WellShaped(context) ==> r.Err? && r.error == ValidateContextShape(context).error
    ensures WellShaped(context) && functions == [] ==> r == Err(NoFunctionsError)
    ensures WellShaped(context) && functions != [] && FunctionName(context) !in functions ==>
              r == Err(UnknownFunctionError(FunctionName(context)))
    ensures r.Ok? <==> WellShaped(context) && FunctionName(context) in functions
    ensures r.Ok? ==> r.value == context
  {
    var validContext :- ValidateContextShape(context);
    if |functions| == 0 then Err(NoFunctionsError)
    else
      var incomingFunction := FunctionName(validContext);
      if incomingFunction !in functions then Err(UnknownFunctionError(incomingFunction))
      else Ok(validContext)
  }

  /**
   * `addContractManager`: the context with `contract` set to the given
   * members; the caller's value is not otherwise touched.
   */
  function AddContractManager(contractMembers: ContractManager, context: Value): (r: Context)
    ensures r.value == context && r.contract == Some(contractMembers)
  {
    Context(context, Some(contractMembers))
  }

  // ---------------------------------------------------------------------------
  // Registration
  // ---------------------------------------------------------------------------

  /**
   * What `.action(fn, handler)` decides, given the names registered so far:
   * the name and callback it registers, or the error it throws. A handler
   * object is rewritten into the name-plus-callback form.
   */
  function Registration(known: seq<string>, fn: ActionArgument, handler: Option<Callback>): (r: Result<Entry, Error>)
    ensures r.Ok? ==> r.value.name !in known
    decreases fn.Described?
  {
    match fn
    case Described(obj) =>
      if obj.functionName.None? || !Truthy(obj.functionName.value) || !obj.functionName.value.Str? then
        Err(MissingFunctionNameError)
      else if obj.handle.None? then
        Err(MissingHandleError)
      else
        Registration(known, Named(obj.functionName.value.s), Some(Wrap(obj.handle.value)))
    case Named(name) =>
      if name in known then Err(DuplicateActionError(name))
      else if handler.None? then Err(MissingHandlerError)
      else Ok(Entry(name, handler.value))
  }

  /** A known name is reported as a duplicate whatever the callback, even a missing one. */
  lemma DuplicateReportedBeforeMissingCallback(known: seq<string>, name: string, handler: Option<Callback>)
    requires name in known
    ensures Registration(known, Named(name), handler) == Err(DuplicateActionError(name))
  {
  }

  /** A new name without a callback is rejected. */
  lemma MissingCallbackRejected(known: seq<string>, name: string)
    requires name !in known
    ensures Registration(known, Named(name), None) == Err(MissingHandlerError)
  {
  }

  /** A string name with a callback registers exactly that name and callback when it is new. */
  lemma NewNameRegistered(known: seq<string>, name: string, handleFn: Callback)
    ensures Registration(known, Named(name), Some(handleFn)).Ok? <==> name !in known
    ensures name !in known ==> Registration(known, Named(name), Some(handleFn)) == Ok(Entry(name, handleFn))
  {
  }

  /**
   * A handler object needs a non-empty string `function_name` and then a
   * `handle`; a well-formed one registers exactly as its name with a wrapper
   * of its `handle`, so duplicates are caught across both forms.
   */
  lemma HandlerObjectRegistration(known: seq<string>, obj: HandlerObject, handler: Option<Callback>)
    ensures obj.functionName.None? || !Truthy(obj.functionName.value) || !obj.functionName.value.Str? ==>
              Registration(known, Described(obj), handler) == Err(MissingFunctionNameError)
    ensures obj.functionName.Some? && obj.functionName.value.Str? && obj.functionName.value.s != "" ==>
              if obj.handle.None? then Registration(known, Described(obj), handler) == Err(MissingHandleError)
              else Registration(known, Described(obj), handler)
                   == Registration(known, Named(obj.functionName.value.s), Some(Wrap(obj.handle.value)))
    ensures obj.functionName.Some? && obj.functionName.value.Str? && obj.functionName.value.s != ""
              && obj.functionName.value.s in known && obj.handle.Some? ==>
              Registration(known, Described(obj), handler) == Err(DuplicateActionError(obj.functionName.value.s))
  {
  }

  /**
   * Whatever a handler object registers runs the object's own `handle`: the
   * registered callback gives, for every context, exactly what `handle` gives.
   */
  lemma HandlerObjectForwardsToHandle(known: seq<string>, obj: HandlerObject, handler: Option<Callback>, ctx: Context)
    requires Registration(known, Described(obj), handler).Ok?
    ensures obj.functionName.Some? && obj.functionName.value.Str? && obj.handle.Some?
    ensures Registration(known, Described(obj), handler).value.name == obj.functionName.value.s
    ensures Registration(known, Described(obj), handler).value.handleFn(ctx) == obj.handle.value(ctx)
  {
  }

  /**
   * Registers a fluent sequence `.action(n1, f1).action(n2, f2)...` of
   * string-form calls, stopping at the first error.
   */
  function RegisterAll(known: seq<string>, entries: seq<Entry>): Result<seq<string>, Error>
    decreases |entries|
  {
    if entries == [] then Ok(known)
    else
      var entry :- Registration(known, Named(entries[0].name), Some(entries[0].handleFn));
      RegisterAll(known + [entry.name], entries[1..])
  }

  /**
   * A fluent sequence of registrations succeeds exactly when no name repeats,
   * neither among the new names nor against those already known, and then
   * the function list is the old list followed by the new names in order.
   */
  lemma {:induction false} FluentRegistrationSucceedsIffDistinct(known: seq<string>, entries: seq<Entry>)
    requires NoDuplicates(known)
    ensures RegisterAll(known, entries).Ok? <==> NoDuplicates(known + EntryNames(entries))
    ensures RegisterAll(known, entries).Ok? ==> RegisterAll(known, entries).value == known + EntryNames(entries)
    decreases |entries|
  {
    if entries != [] {
      var name := entries[0].name;
      var all := known + EntryNames(entries);
      assert all[|known|] == name;
      if name in known {
        var i :| 0 <= i < |known| && known[i] == name;
        assert all[i] == all[|known|];
      } else {
        var known' := known + [name];
        assert NoDuplicates(known') by {
          forall i, j | 0 <= i < j < |known'| ensures known'[i] != known'[j] {
            if j == |known| { assert known'[i] == known[i]; }
          }
        }
        assert known' + EntryNames(entries[1..]) == all;
        FluentRegistrationSucceedsIffDistinct(known', entries[1..]);
      }
    }
  }

  // ---------------------------------------------------------------------------
  // The builder
  // ---------------------------------------------------------------------------

  class ActionsBuilder {
    /** `known_functions`, the array of registered names. */
    const functions: StringArray
    /** The chain under construction: each registered name's proxy. */
    var chain: map<string, HandlerProxy>

    /** Names are unique, and the chain holds one proxy, named after it, per registered name. */
    ghost predicate Valid()
      reads this, functions
    {
      && NoDuplicates(functions.items)
      && (forall n :: n in chain <==> n in functions.items)
      && (forall n :: n in chain ==> chain[n].functionName == n)
    }

    /** `Contract.builder()`: an empty builder. */
    constructor ()
      ensures Valid() && fresh(functions)
      ensures functions.items == [] && chain == map[]
    {
      functions := new StringArray();
      chain := map[];
    }

    /**
     * `.action(fn, handler)`: on success appends the name to the function
     * list, adds one proxy for it to the chain and returns this builder; on
     * failure changes nothing.
     */
    method Action(fn: ActionArgument, handler: Option<Callback>) returns (r: Result<ActionsBuilder, Error>)
      requires Valid()
      modifies this, functions
      ensures Valid()
      ensures match Registration(old(functions.items), fn, handler)
              case Ok(entry) =>
                && r == Ok(this)
                && functions.items == old(functions.items) + [entry.name]
                && chain == old(chain)[entry.name := NewHandlerProxy(entry.name, entry.handleFn)]
              case Err(e) =>
                && r == Err(e)
                && functions.items == old(functions.items)
                && chain == old(chain)
    {
      // A handler object comes back as a name and a wrapping callback; the
      // name rules then decide, duplicate check first.
      match Registration(functions.items, fn, handler) {
        case Err(e) =>
          return Err(e);
        case Ok(entry) =>
          functions.Push(entry.name);
          var wrappedHandler := NewHandlerProxy(entry.name, entry.handleFn);
          chain := chain[entry.name := wrappedHandler];
          return Ok(this);
      }
    }

    /**
     * `build()`: a dispatcher over the builder's own function array (not a
     * copy) and a snapshot of the chain as a name-to-proxy map.
     */
    method Build() returns (contract: CompiledContract)
      requires Valid()
      ensures fresh(contract) && fresh(contract.actions)
      ensures contract.functions == functions
      ensures contract.actions.entries == chain
      ensures contract.Routes()
    {
      var actions := new ChainMap(chain);
      contract := new CompiledContract(functions, actions);
    }
  }

  // ---------------------------------------------------------------------------
  // The dispatcher
  // ---------------------------------------------------------------------------

  /** The `{ functions, handle }` object that `build()` returns. */
  class CompiledContract {
    const functions: StringArray
    const actions: ChainMap

    constructor (functions: StringArray, actions: ChainMap)
      ensures this.functions == functions && this.actions == actions
    {
      this.functions := functions;
      this.actions := actions;
    }

    /** Every proxy in the chain is registered under its own function name. */
    predicate Routes() {
      forall n :: n in actions.entries ==> actions.entries[n].functionName == n
    }

    /**
     * `handle(context)`: no callback runs unless the context is well shaped
     * and names a known function; then only the callback registered under
     * that name runs, on the context with `contract` attached, and its
     * result is returned as is.
     */
    function Handle(context: Value): (r: Result<Context, Error>)
      reads functions
      requires Routes()
      ensures !WellShaped(context) ==> r.Err? && r.error == ValidateContextShape(context).error
      ensures WellShaped(context) && FunctionName(context) !in functions.items ==>
                r == Err(if functions.items == [] then NoFunctionsError else UnknownFunctionError(FunctionName(context)))
      ensures WellShaped(context) && FunctionName(context) in functions.items ==>
                var fn := FunctionName(context);
                r == if fn in actions.entries
                     then actions.entries[fn].handleFn(Context(context, Some(ContractManager(actions))))
                     else Err(UnknownFunctionError(fn))
    {
      var validContext :- ValidateContext(context, functions.items);
      var withContract := AddContractManager(ContractManager(actions), validContext);
      var fn := FunctionName(validContext);
      if fn in actions.entries then HandlerProxies.Handle(actions.entries[fn], withContract)
      else Err(UnknownFunctionError(fn))
    }
  }

  /** For any context, at most one proxy of a built chain opens its gate. */
  lemma AtMostOneActionOpens(contract: CompiledContract, ctx: Context, a: string, b: string)
    requires contract.Routes()
    requires a in contract.actions.entries && b in contract.actions.entries
    requires Opens(contract.actions.entries[a], ctx) && Opens(contract.actions.entries[b], ctx)
    ensures a == b
  {
  }

  /**
   * Delegation: a handler that sets `action.input.function` to a registered
   * name and calls that name's proxy from `context.contract.actions` gets
   * exactly what dispatching the retargeted context from the top would give.
   */
  lemma DelegationMatchesDirectDispatch(contract: CompiledContract, context: Value, target: string)
    requires contract.Routes()
    requires WellShaped(context) && target != ""
    requires target in contract.functions.items && target in contract.actions.entries
    ensures Delegate(Context(context, Some(ContractManager(contract.actions))), target)
            == Some(contract.Handle(Retarget(context, target)))
  {
  }

  /**
   * `build()` hands out the builder's own array: a name registered after
   * `build()` joins the dispatcher's function list but not its chain, so it
   * passes validation and then fails the chain lookup.
   */
  method RegisterAfterBuild(early: Callback, late: Callback, context: Value) returns (r: Result<Context, Error>)
    requires WellShaped(context) && FunctionName(context) == "late"
    ensures r == Err(UnknownFunctionError("late"))
  {
    var builder := new ActionsBuilder();
    var _ := builder.Action(Named("early"), Some(early));
    var contract := builder.Build();
    var _ := builder.Action(Named("late"), Some(late));
    assert contract.functions.items == ["early", "late"];
    r := contract.Handle(context);
  }

  /**
   * A contract built from one handler object dispatches a request for that
   * object's name to the object's `handle`, on the context with `contract`
   * attached, and returns its result as is.
   */
  method DispatchHandlerObject(name: string, handle: Callback, context: Value)
    returns (contract: CompiledContract, r: Result<Context, Error>)
    requires name != "" && WellShaped(context) && FunctionName(context) == name
    ensures r == handle(Context(context, Some(ContractManager(contract.actions))))
  {
    var builder := new ActionsBuilder();
    var _ := builder.Action(Described(HandlerObject(Some(Str(name)), Some(handle))), None);
    contract := builder.Build();
    r := contract.Handle(context);
  }

  /** `{ state, action: { input: { function, payload } } }`. */
  function Request(state: Value, fn: string, payload: Value): (context: Value)
    requires Truthy(state) && fn != ""
    ensures WellShaped(context) && FunctionName(context) == fn
  {
    var input := Obj(map["function" := Str(fn), "payload" := payload]);
    Obj(map["state" := state, "action" := Obj(map["input" := input])])
  }

  /**
   * `.action("add", f).action("subtract", g).action(new Multiply("multiply")).build()`:
   * both forms register, in call order.
   */
  method BuildMixedContract(add: Callback, subtract: Callback, multiply: Callback) returns (contract: CompiledContract)
    ensures contract.Routes()
    ensures contract.functions.items == ["add", "subtract", "multiply"]
  {
    var builder := new ActionsBuilder();
    var _ := builder.Action(Named("add"), Some(add));
    var _ := builder.Action(Named("subtract"), Some(subtract));
    assert builder.functions.items == ["add", "subtract"];
    var multiplyObject := HandlerObject(Some(Str("multiply")), Some(multiply));
    assert Registration(builder.functions.items, Described(multiplyObject), None)
           == Ok(Entry("multiply", Wrap(multiply)));
    var _ := builder.Action(Described(multiplyObject), None);
    contract := builder.Build();
  }

  /** That contract rejects a request for an unregistered function with the exact message. */
  method UnknownFunctionRejected(add: Callback, subtract: Callback, multiply: Callback) returns (r: Result<Context, Error>)
    ensures r.Err? && r.error.message == "Unknown function 'wwaaaat' provided"
  {
    var contract := BuildMixedContract(add, subtract, multiply);
    var context := Request(Obj(map["storage" := Obj(map[])]), "wwaaaat", Obj(map["item" := Str("sub")]));
    r := contract.Handle(context);
  }
}
