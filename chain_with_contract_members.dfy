/**
 * ChainWithContractMembers: the older builder. It keeps the same name rules
 * with a weaker check on handler objects, carries an initial state, and its
 * dispatcher hands a validated context to the first handler of the chain.
 */
module MemberChain {
  import opened Wrappers
  import opened JsValues
  import opened Contexts
  import opened Errors
  import opened HandlerProxies
  import opened ActionArguments

  // ---------------------------------------------------------------------------
  // Context validation
  // ---------------------------------------------------------------------------

  function ShapeMessage(check: ShapeCheck): string {
    match check
    case ContextPresent => "Unexpected missing `context` object"
    case ContextIsObject => "Argument 'context' should be an object"
    case StatePresent => "Field 'context.state' is required"
    case ActionIsObject => "Field 'context.action' should be an object"
    case InputIsObject => "Field 'context.action.input' should be an object"
    case FunctionIsString => "Field 'context.action.input.function' should be a string"
  }

  function ShapeError(check: ShapeCheck): Error {
    Error(InvalidShape(check), ShapeMessage(check))
  }

  /**
   * `validateContextShape`: the same ordered checks as the newer builder,
   * reported with this builder's shorter messages.
   */
  function ValidateContextShape(context: Value): (r: Result<Value, Error>)
    ensures r.Ok? <==> WellShaped(context)
    ensures r.Ok? ==> r.value == context
    ensures r.Err? ==> FirstViolation(ShapeChecks, context).Some?
                       && r.error == ShapeError(FirstViolation(ShapeChecks, context).value)
  {
    AllChecksPassIffWellShaped(context);
    ShapeChecksInOrder(context);
    if !Truthy(context) then Err(ShapeError(ContextPresent))
    else if !IsObjectType(context) then Err(ShapeError(ContextIsObject))
    else if !Truthy(Prop(context, "state")) then Err(ShapeError(StatePresent))
    else if !Truthy(Action(context)) || !IsObjectType(Action(context)) then Err(ShapeError(ActionIsObject))
    else if !Truthy(Input(context)) || !IsObjectType(Input(context)) then Err(ShapeError(InputIsObject))
    else if !Truthy(FunctionField(context)) || !FunctionField(context).Str? then Err(ShapeError(FunctionIsString))
    else Ok(context)
  }

  /**
   * `validateContext`: shape, then a non-empty function list, then a known
   * name; on success the original context is returned.
   */
  function ValidateContext(context: Value, functions: seq<string>): (r: Result<Value, Error>)
    ensures !WellShaped(context) ==> r.Err? && r.error == ValidateContextShape(context).error
    ensures WellShaped(context) && functions == [] ==> r == Err(NoFunctionsError)
    ensures WellShaped(context) && functions != [] && FunctionName(context) !in functions ==>
              r == Err(UnknownFunctionError(FunctionName(context)))
    ensures r.Ok? <==> WellShaped(context) && FunctionName(context) in functions
    ensures r.Ok? ==> r.value == context
  {
    var validatedContext :- ValidateContextShape(context);
    if |functions| == 0 then Err(NoFunctionsError)
    else
      var incomingFunction := FunctionName(validatedContext);
      if incomingFunction !in functions then Err(UnknownFunctionError(incomingFunction))
      else Ok(context)
  }

  // ---------------------------------------------------------------------------
  // Registration
  // ---------------------------------------------------------------------------

  /**
   * What this builder's `.action(fn, handler)` decides. A handler object only
   * needs `function_name` and `handle` to be present; its name is then passed
   * back in as the first argument. A string name, even an empty one, goes on
   * to the name rules; any other value makes the `in` test of the re-entered
   * call throw a TypeError.
   */
  function Registration(known: seq<string>, fn: ActionArgument, handler: Option<Callback>): (r: Result<Entry, Error>)
    ensures r.Ok? ==> r.value.name !in known
    decreases fn.Described?
  {
    match fn
    case Described(obj) =>
      if obj.functionName.None? then Err(MissingFunctionNameError)
      else if obj.handle.None? then Err(MissingHandleError)
      else if !obj.functionName.value.Str? then Err(TypeErrorThrown)
      else Registration(known, Named(obj.functionName.value.s), Some(Wrap(obj.handle.value)))
    case Named(name) =>
      if name in known then Err(DuplicateActionError(name))
      else if handler.None? then Err(MissingHandlerError)
      else Ok(Entry(name, handler.value))
  }

  /**
   * The weaker object check: any string `function_name`, the empty one
   * included, is accepted once `handle` is present, and registration then
   * follows the name rules, duplicate check first.
   */
  lemma HandlerObjectRegistration(known: seq<string>, obj: HandlerObject, handler: Option<Callback>)
    ensures obj.functionName.None? ==> Registration(known, Described(obj), handler) == Err(MissingFunctionNameError)
    ensures obj.functionName.Some? && obj.handle.None? ==>
              Registration(known, Described(obj), handler) == Err(MissingHandleError)
    ensures obj.functionName.Some? && obj.functionName.value.Str? && obj.handle.Some? ==>
              Registration(known, Described(obj), handler)
              == if obj.functionName.value.s in known then Err(DuplicateActionError(obj.functionName.value.s))
                 else Ok(Entry(obj.functionName.value.s, Wrap(obj.handle.value)))
  {
  }

  /** A known name is a duplicate whatever the callback; a new name needs a callback. */
  lemma NameRules(known: seq<string>, name: string, handler: Option<Callback>)
    ensures name in known ==> Registration(known, Named(name), handler) == Err(DuplicateActionError(name))
    ensures name !in known && handler.None? ==> Registration(known, Named(name), handler) == Err(MissingHandlerError)
    ensures name !in known && handler.Some? ==> Registration(known, Named(name), handler) == Ok(Entry(name, handler.value))
  {
  }

  // ---------------------------------------------------------------------------
  // The builder
  // ---------------------------------------------------------------------------

  class ChainWithContractMembers {
    /** `contract_state`: the initial state, `{}` when none is given. */
    const contractState: Value
    /** `#functions`, the array of registered names. */
    const functions: StringArray
    /** The chain builder's handlers, in registration order. */
    var handlers: seq<HandlerProxy>

    /** Names are unique and the i-th handler proxies the i-th name. */
    ghost predicate Valid()
      reads this, functions
    {
      && NoDuplicates(functions.items)
      && |handlers| == |functions.items|
      && (forall i :: 0 <= i < |handlers| ==> handlers[i].functionName == functions.items[i])
    }

    /** `new ChainWithContractMembers(state)`: stores `state || {}` and starts empty. */
    constructor (state: Value)
      ensures Valid() && fresh(functions)
      ensures contractState == if Truthy(state) then state else Obj(map[])
      ensures functions.items == [] && handlers == []
    {
      contractState := if Truthy(state) then state else Obj(map[]);
      functions := new StringArray();
      handlers := [];
    }

    /**
     * `initialState(s)`: a new, empty builder carrying `s`; this builder is
     * left as it was.
     */
    method InitialState(initialState: Value) returns (b: ChainWithContractMembers)
      ensures fresh(b) && fresh(b.functions) && b.Valid()
      ensures b.contractState == if Truthy(initialState) then initialState else Obj(map[])
      ensures b.functions.items == [] && b.handlers == []
    {
      b := new ChainWithContractMembers(initialState);
    }

    /**
     * `.action(fn, handler)`: on success appends the name, adds one proxy for
     * it at the end of the chain and returns this builder; on failure changes
     * nothing.
     */
    method Action(fn: ActionArgument, handler: Option<Callback>) returns (r: Result<ChainWithContractMembers, Error>)
      requires Valid()
      modifies this, functions
      ensures Valid()
      ensures match Registration(old(functions.items), fn, handler)
              case Ok(entry) =>
                && r == Ok(this)
                && functions.items == old(functions.items) + [entry.name]
                && handlers == old(handlers) + [NewHandlerProxy(entry.name, entry.handleFn)]
              case Err(e) =>
                && r == Err(e)
                && functions.items == old(functions.items)
                && handlers == old(handlers)
    {
      // A handler object with a string name comes back as that name and a
      // wrapping callback; the name rules then decide, duplicate check first.
      match Registration(functions.items, fn, handler) {
        case Err(e) =>
          return Err(e);
        case Ok(entry) =>
          functions.Push(entry.name);
          var wrappedHandler := NewHandlerProxy(entry.name, entry.handleFn);
          handlers := handlers + [wrappedHandler];
          return Ok(this);
      }
    }

    /**
     * `build()`: a dispatcher over the builder's own function array and the
     * chain's first handler, if there is one.
     */
    method Build() returns (contract: CompiledChain)
      requires Valid()
      ensures fresh(contract)
      ensures contract.functions == functions
      ensures contract.firstHandler == if handlers == [] then None else Some(handlers[0])
      ensures contract.firstHandler.Some? ==> contract.firstHandler.value.functionName == functions.items[0]
    {
      var firstHandler := if handlers == [] then None else Some(handlers[0]);
      contract := new CompiledChain(functions, firstHandler);
    }
  }

  // ---------------------------------------------------------------------------
  // The dispatcher
  // ---------------------------------------------------------------------------

  /** The `{ functions, handle }` object this builder's `build()` returns. */
  class CompiledChain {
    const functions: StringArray
    const firstHandler: Option<HandlerProxy>

    constructor (functions: StringArray, firstHandler: Option<HandlerProxy>)
      ensures this.functions == functions && this.firstHandler == firstHandler
    {
      this.functions := functions;
      this.firstHandler := firstHandler;
    }

    /**
     * `handle(context)`: validation runs to completion first, and a rejected
     * context reaches no handler. A valid one goes, without a `contract`
     * member, to the first handler, whose gate runs its callback only when
     * the context names the first registered function and otherwise returns
     * the context untouched.
     */
    function Handle(context: Value): (r: Result<Context, Error>)
      reads functions
      ensures !WellShaped(context) ==> r.Err? && r.error == ValidateContextShape(context).error
      ensures WellShaped(context) && FunctionName(context) !in functions.items ==>
                r == Err(if functions.items == [] then NoFunctionsError else UnknownFunctionError(FunctionName(context)))
      ensures WellShaped(context) && FunctionName(context) in functions.items ==>
                r == match firstHandler
                     case None => Err(TypeErrorThrown)
                     case Some(first) =>
                       if first.functionName == FunctionName(context) then first.handleFn(Context(context, None))
                       else Ok(Context(context, None))
    {
      var validated :- ValidateContext(context, functions.items);
      match firstHandler
      case None => Err(TypeErrorThrown)   // `firstHandler.handle` on a chain built empty
      case Some(first) => HandlerProxies.Handle(first, Context(context, None))
    }
  }
}
