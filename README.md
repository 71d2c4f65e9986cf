# Action registration, validation and dispatch

This project models the core of a small library for smart-contract-style state
transitions. An author registers named action handlers with a builder and
builds a dispatcher. The dispatcher takes a context `{ state, action: { input:
{ function, payload } } }`, validates it, and routes it to the handler
registered under `action.input.function`.

The model covers:

- `ActionsBuilder` (module `Actions`). `.action(name, callback)` and
  `.action(handlerObject)` enforce unique names and well-formed handlers.
  `build()` produces a dispatcher. Its `handle(context)` checks the context's
  shape, checks that the function is known, attaches a non-writable
  `contract` member whose `actions` is the dispatcher's own chain `Map`, and calls the proxy registered under the name.
- The older `ChainWithContractMembers` builder (module `MemberChain`). It has
  the same name rules, a weaker check on handler objects and an
  `initialState` that makes a new builder. Its dispatcher hands the validated
  context to the first handler of the chain.
- `HandlerProxy` (module `HandlerProxies`). It runs its wrapped callback only
  when the context names its own function. Otherwise it returns the context
  unchanged. This gate is the only routing mechanism, and delegation between
  handlers relies on it.
- `Interaction(action)` (module `Interactions`). It projects `input`,
  `function` and `payload` with optional chaining.

Supporting modules:

- `JsValues` holds the slice of JavaScript's value model that the validators
  test: truthiness, `typeof`, `in`, strict and optional-chained property reads,
  and a shared string array.
- `Contexts` holds the context shape, the ordered shape checks and
  retargeting for delegation.
- `Errors` holds the thrown errors and their exact messages.
- `ActionArguments` holds the two argument forms of `.action(...)`.

How the JavaScript maps to Dafny:

- Thrown errors become `Err` results.
- Each promise `.then` step becomes one sequential step.
- User handler code is an opaque total function `Context -> Result<Context,
  Error>`.
- The builders are classes whose methods update their fields. The function
  list is a `StringArray` object, because `build()` hands the dispatcher the
  builder's own array.
- The name-to-proxy `Map` is a `ChainMap` object, snapshotted at `build()`.

## Model

| member | source | states |
|---|---|---|
| `Contexts.FirstViolationIsFirst` | src/chains/ActionsBuilder.ts:237-303 | the reported check is one the context fails, and every check before it in the list passes; no check is reported exactly when all pass |
| `Contexts.ShapeChecksInOrder` | src/chains/ActionsBuilder.ts:238-300 | the first failing check follows the validator's order: context, object, state, action, input, function |
| `Contexts.AllChecksPassIffWellShaped` | src/types/Context.ts:1-10 | a context passes every shape check iff it is an object with truthy `state`, object `action` and `action.input`, and a non-empty string `action.input.function` |
| `Contexts.Retarget` | src/handlers/HandlerProxy.ts:23-27 | setting `action.input.function`, the field a proxy's gate reads, to a non-empty name keeps the context well shaped, names that function, and leaves every other field of the context, of `action` (such as `caller`) and of `input` as it was |
| `Errors.UnknownFunctionMessageNamesFunction` | src/chains/ActionsBuilder.ts:225-227 | the unknown-function message has the offending name at a fixed place, so the name can be read back |
| `Errors.DuplicateActionMessageNamesAction` | src/chains/ActionsBuilder.ts:69-73 | the duplicate-name message has the offending name at a fixed place |
| `HandlerProxies.NewHandlerProxy` | src/handlers/HandlerProxy.ts:11-17 | the proxy stores the function name and callback, and its metadata name is `__HandlerProxy__` followed by the function name |
| `HandlerProxies.MetadataNameDeterminesFunction` | src/handlers/HandlerProxy.ts:14-16 | two proxies with the same metadata name handle the same function |
| `HandlerProxies.IncomingFunction` | src/handlers/HandlerProxy.ts:23 | reading `context.action.input.function` throws exactly when the context, `action` or `input` is nullish; for a well-shaped context it gives the requested name |
| `HandlerProxies.Handle` | src/handlers/HandlerProxy.ts:19-31 | the callback's result is returned as is when the context names this proxy's function; any other readable context is returned untouched, without running the callback |
| `HandlerProxies.AtMostOneProxyOpens` | src/handlers/HandlerProxy.ts:25-27 | among proxies with distinct names, at most one gate opens for a given context |
| `HandlerProxies.Delegate` | src/chains/ActionsBuilder.ts:151-158 | delegation as the comment there describes it, with the context retargeted first: with no contract attached it throws; an unregistered target gives `undefined`; a registered one runs exactly that proxy's callback on the retargeted context |
| `HandlerProxies.DelegateAsIs` | src/chains/ActionsBuilder.ts:160-166 | the delegation example as written, passing the context on unchanged: with no contract attached it throws, and an unregistered target gives `undefined` |
| `HandlerProxies.DelegationAsIsSkipsTarget` | src/chains/ActionsBuilder.ts:163-166 | in that example, a step handler registered under a name other than the requested function hands the context straight back, and its callback never runs |
| `Actions.ValidateContextShape` | src/chains/ActionsBuilder.ts:237-303 | succeeds iff the context is well shaped, returning it unchanged; otherwise fails with the first violated check's exact message |
| `Actions.ValidateContext` | src/chains/ActionsBuilder.ts:211-231 | shape errors come first, then `Contract does not have functions defined` for an empty list, then `Unknown function '<fn>' provided`; succeeds iff well shaped and known |
| `Actions.AddContractManager` | src/chains/ActionsBuilder.ts:190-203 | the context gets the given `contract` members, and its value is not otherwise changed |
| `Actions.Registration` | src/chains/ActionsBuilder.ts:43-91 | a successful registration always has a name not yet in the list |
| `Actions.DuplicateReportedBeforeMissingCallback` | src/chains/ActionsBuilder.ts:69-82 | a known name fails with the duplicate error whatever the callback, including none |
| `Actions.MissingCallbackRejected` | src/chains/ActionsBuilder.ts:78-82 | a new name with no callback fails with `Cannot create an interaction handler without a handler function` |
| `Actions.NewNameRegistered` | src/chains/ActionsBuilder.ts:84-90 | a string name with a callback registers exactly that name and callback iff the name is new |
| `Actions.HandlerObjectRegistration` | src/chains/ActionsBuilder.ts:49-67 | a missing, falsy or non-string `function_name` fails, then a missing `handle` fails; otherwise the object registers as its name with a forwarding callback, so duplicates are caught across both forms |
| `Actions.HandlerObjectForwardsToHandle` | src/chains/ActionsBuilder.ts:49-66 | a handler object registers only with a string `function_name` and a `handle`, under that name, and the registered callback gives for every context exactly what the object's `handle` gives |
| `Actions.FluentRegistrationSucceedsIffDistinct` | src/chains/ActionsBuilder.ts:69-90 | a chain of string-form `.action` calls succeeds iff no name repeats, and the function list is then the old list followed by the new names in call order |
| `Actions.ActionsBuilder.constructor` | src/mod.ts:19-21 | `Contract.builder()` starts with an empty function list and an empty chain |
| `Actions.ActionsBuilder.Action` | src/chains/ActionsBuilder.ts:43-91 | success appends exactly the name, adds one proxy for it and returns the same builder; failure changes nothing; names stay unique and each maps to its own proxy |
| `Actions.ActionsBuilder.Build` | src/chains/ActionsBuilder.ts:117-149 | the dispatcher shares the builder's own function array, not a copy, and its chain maps each registered name to that name's proxy |
| `Actions.CompiledContract.Handle` | src/chains/ActionsBuilder.ts:122-146 | no callback runs unless both validations pass; then only the callback under the requested name runs, on the context with `contract` attached, and its result is returned as is |
| `Actions.AtMostOneActionOpens` | src/chains/ActionsBuilder.ts:136-140 | in a built chain, at most one proxy's gate opens for any context |
| `Actions.DelegationMatchesDirectDispatch` | src/chains/ActionsBuilder.ts:151-189 | retargeting to a registered name and calling its proxy through `contract.actions` gives the same result as dispatching the retargeted context from the top |
| `Actions.RegisterAfterBuild` | src/chains/ActionsBuilder.ts:117-142 | if the external chain is a snapshot, a name registered after `build()` reaches the dispatcher's function list but not its chain, so dispatching it fails at the chain lookup with the unknown-function error |
| `Actions.DispatchHandlerObject` | src/chains/ActionsBuilder.ts:122-146 | a contract built from one handler object sends a request for that object's name to the object's `handle`, on the context with `contract` attached, and returns its result as is |
| `Actions.BuildMixedContract` | tests/mod.unit.test.functions.ts:22-35 | two string-form actions and one handler object register in call order |
| `Actions.UnknownFunctionRejected` | tests/mod.unit.test.functions.ts:86-104 | dispatching an unregistered function fails with exactly `Unknown function 'wwaaaat' provided` |
| `MemberChain.ValidateContextShape` | src/chains/ChainWithContractMembers.ts:158-209 | same ordered checks as the newer builder, with this builder's shorter messages |
| `MemberChain.ValidateContext` | src/chains/ChainWithContractMembers.ts:135-152 | shape errors first, then empty list, then unknown function; on success returns the original context |
| `MemberChain.Registration` | src/chains/ChainWithContractMembers.ts:50-91 | a successful registration always has a name not yet in the list |
| `MemberChain.HandlerObjectRegistration` | src/chains/ChainWithContractMembers.ts:56-68 | only the presence of `function_name` and `handle` is checked, so any string name (the empty one too) registers by the name rules |
| `MemberChain.NameRules` | src/chains/ChainWithContractMembers.ts:70-90 | a known name is a duplicate whatever the callback; a new name fails without a callback and registers exactly with one |
| `MemberChain.ChainWithContractMembers.constructor` | src/chains/ChainWithContractMembers.ts:18-28 | stores `state \|\| {}` and starts with no functions and no handlers |
| `MemberChain.ChainWithContractMembers.InitialState` | src/chains/ChainWithContractMembers.ts:35-40 | returns a new, empty builder carrying the given state, and the receiver is unchanged |
| `MemberChain.ChainWithContractMembers.Action` | src/chains/ChainWithContractMembers.ts:50-91 | success appends the name and one proxy at the end of the chain and returns the same builder; failure changes nothing; names stay unique |
| `MemberChain.ChainWithContractMembers.Build` | src/chains/ChainWithContractMembers.ts:117-120 | the dispatcher shares the builder's function array and holds the chain's first handler, which proxies the first registered name |
| `MemberChain.CompiledChain.Handle` | src/chains/ChainWithContractMembers.ts:121-131 | validation completes first and a rejected context reaches no handler; a valid one goes to the first handler, without a `contract` member |
| `Interactions.InteractionOf` | src/decorators/Interaction.ts:3-11 | `input` is `action.input`, and `function` and `payload` are read from `action.input`, whenever those exist; anything but an object `action` holding `input` gives `undefined` for all three fields; a non-object `input`, or one missing `function` or `payload`, gives `undefined` for those; nothing throws |
| `Interactions.InteractionAgreesWithStrictRead` | src/decorators/Interaction.ts:8 | wherever the proxy's strict read of the function name succeeds, the projection gives the same value |
| `Interactions.InteractionOfWellShapedContext` | src/decorators/Interaction.ts:7-8 | for a well-shaped context the projection gives the requested function name and the context's `input` |

Behaviours of the source that the model keeps:

- `build()` shares the builder's own array (src/chains/ActionsBuilder.ts:118).
  The chain comes from the external chain builder, whose code is not part of
  this model; the model takes it to be a snapshot (see "## Left out"). If it
  is one, the lookup failure at src/chains/ActionsBuilder.ts:142 can happen,
  as `Actions.RegisterAfterBuild` shows. If it were live, that line could not
  be reached.
- The string form of `.action(...)` does not check for an empty name. A name
  registered as `""` can never be dispatched, because the shape check rejects
  an empty function.
- The older dispatcher calls only the first handler of the chain
  (src/chains/ChainWithContractMembers.ts:119, 128). Under the same
  assumption about the external chain, and with the visible proxy, a request
  for any other registered function comes back unchanged.

## Findings

| source | as written | input that shows it | evidently intended | confidence | as-written member | corrected member |
|---|---|---|---|---|---|---|
| src/chains/ActionsBuilder.ts:160-166 | the delegation example calls `contract.actions.get("step_1_handler")?.handle(context)` with the context unchanged, so `action.input.function` still names the delegating handler's own function | a context requesting `build_car` whose handler delegates to `step_1_handler`: that proxy's gate (src/handlers/HandlerProxy.ts:25-27) stays shut and the context comes straight back | each step handler runs, which needs `action.input.function` set to the step's name before the call | high, not executed | `HandlerProxies.DelegationAsIsSkipsTarget` | `Actions.DelegationMatchesDirectDispatch` |

## Left out

- Asynchrony: promises, `await` and the microtask order are not modelled. Each `.then` step is one sequential step, and a rejection is an `Err` result.
- In-place mutation by handlers: the model has no object identity for contexts or state. A handler returns its resulting context as a value. Aliasing of `state` between calls and the race between concurrent calls are not represented.
- Actions.AddContractManager: the property descriptor (non-writable, non-configurable) is modelled as a field set once at dispatch. A TypeError is not modelled. The source throws one when the very same context object is dispatched again, because each call defines `contract` again with a fresh `{ actions }` object.
- The external `IsolatedHandlerChain`, `AnonymousFnHandler` and `HandlerWithFunctionName` classes are not part of this model. The chain's `build()` is taken as a snapshot, a name-to-proxy map for `ActionsBuilder` and the first registered proxy for `ChainWithContractMembers`. `super.handle` is taken as "invoke the callback". Any forwarding of the context from one handler to the next inside that external chain is not represented.
- HandlerProxies.ChainMap: its entries are fixed once built. In the source, `contract` is non-writable, but its value `{ actions: chain }` is a plain object made again on each call (src/chains/ActionsBuilder.ts:129-134). Its `actions` is the dispatcher's one mutable `Map`. A handler that reassigns `contract.actions`, or that calls `set` or `delete` on the shared `Map` and so changes the lookup at src/chains/ActionsBuilder.ts:138 for every later dispatch, is not modelled.
- Actions.CompiledContract.Handle: the chain lookup reads the map fixed at `build()`; changes a handler makes to the shared `Map` are not represented (see the line above).
- MemberChain.CompiledChain.Handle: on a chain built with no handlers, the model reports a TypeError when `handle` is called. What the external `super.build()` does with an empty chain is not visible, so this case follows from the snapshot assumption above and not from the source.
- MemberChain.Registration: a handler object whose `function_name` is an object or a function is reported as a TypeError. In the source, the re-entered call goes on to inspect that object as a handler object in turn. For the primitive values `undefined`, `null`, numbers and booleans, the model's TypeError is what the source's `in` test throws.
- A handler object whose `handle` property exists but is not callable is not modelled. The source would fail with a TypeError at dispatch time.
- JavaScript values: numbers are integers (no NaN, no -0), and arrays are not distinguished from plain objects. Inherited properties reached through `in` or a property read are ignored. None of the names the validators test (`state`, `action`, `input`, `function`) is inherited by a plain object.
- The wording of engine TypeErrors is not modelled (the message is the fixed text `TypeError`).
- The `ContractError` translation, the CLI bundler, the example applications, the deployer and the unstable state store are outside this core.
- `InitialStateBuilder` and the tests' `.initialState(...)` call on an `ActionsBuilder` are not modelled, since `ActionsBuilder` has no such method. `Contract.Handler` is only a type marker.
