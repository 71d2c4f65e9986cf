/**
 * HandlerProxy: the wrapper that gates one registered callback on the
 * requested function name, and the context value that flows through it.
 */
module HandlerProxies {
  import opened Wrappers
  import opened JsValues
  import opened Contexts
  import opened Errors

  /**
   * The context object as a handler receives it: the caller's value, and the
   * non-writable `contract` member that the dispatcher attaches before routing.
   * Handlers transform it into the context they return.
   */
  datatype Context = Context(value: Value, contract: Option<ContractManager>)

  /** The `{ actions: chain }` object attached as `context.contract`. */
  datatype ContractManager = ContractManager(actions: ChainMap)

  /**
   * The Map from function name to proxy that the chain builder produces; an
   * object, shared by reference. Its entries are fixed here, although the
   * source's Map is mutable.
   */
  class ChainMap {
    const entries: map<string, HandlerProxy>

    constructor (entries: map<string, HandlerProxy>)
      ensures this.entries == entries
    {
      this.entries := entries;
    }
  }

  /** A handler's code: it returns the resulting context or throws. */
  type Callback = Context -> Result<Context, Error>

  datatype Metadata = Metadata(name: string)

  datatype HandlerProxy = HandlerProxy(functionName: string, metadata: Metadata, handleFn: Callback)

  const MetadataPrefix := "__HandlerProxy__"

  /** `new HandlerProxy(fn, handleFn)`. */
  function NewHandlerProxy(fn: string, handleFn: Callback): (p: HandlerProxy)
    ensures p.functionName == fn && p.handleFn == handleFn
    ensures |p.metadata.name| == |MetadataPrefix| + |fn|
    ensures p.metadata.name[..|MetadataPrefix|] == MetadataPrefix
    ensures p.metadata.name[|MetadataPrefix|..] == fn
  {
    HandlerProxy(fn, Metadata(MetadataPrefix + fn), handleFn)
  }

  /** Two proxies whose metadata names agree handle the same function. */
  lemma MetadataNameDeterminesFunction(fn: string, fn': string, f: Callback, g: Callback)
    requires NewHandlerProxy(fn, f).metadata == NewHandlerProxy(fn', g).metadata
    ensures fn == fn'
  {
    var p, q := NewHandlerProxy(fn, f), NewHandlerProxy(fn', g);
    assert p.metadata.name[|MetadataPrefix|..] == fn;
  }

  /** The strict read `v.k`, a TypeError when `v` is `undefined` or `null`. */
  function Read(v: Value, k: string): (r: Result<Value, Error>)
    ensures r.Err? <==> IsNullish(v)
    ensures r.Err? ==> r.error == TypeErrorThrown
    ensures r.Ok? ==> r.value == Prop(v, k)
  {
    match Get(v, k)
    case Ok(x) => Ok(x)
    case Err(_) => Err(TypeErrorThrown)
  }

  /** `context.action.input.function`, read when the proxy is called. */
  function IncomingFunction(ctx: Context): (r: Result<Value, Error>)
    ensures r.Ok? ==> r.value == FunctionField(ctx.value)
    ensures r.Err? <==> IsNullish(ctx.value) || IsNullish(Action(ctx.value)) || IsNullish(Input(ctx.value))
    ensures WellShaped(ctx.value) ==> r == Ok(Str(FunctionName(ctx.value)))
  {
    var action :- Read(ctx.value, "action");
    var input :- Read(action, "input");
    Read(input, "function")
  }

  /** The proxy's gate is open: the context names exactly this proxy's function. */
  predicate Opens(p: HandlerProxy, ctx: Context) {
    IncomingFunction(ctx) == Ok(Str(p.functionName))
  }

  /**
   * `HandlerProxy.handle`: the wrapped callback runs, once, only when the
   * context names this proxy's function, and its result is returned as is;
   * any other readable context is handed back untouched.
   */
  function Handle(p: HandlerProxy, ctx: Context): (r: Result<Context, Error>)
    ensures Opens(p, ctx) ==> r == p.handleFn(ctx)
    ensures IncomingFunction(ctx).Ok? && !Opens(p, ctx) ==> r == Ok(ctx)
    ensures IncomingFunction(ctx).Err? ==> r == Err(TypeErrorThrown)
  {
    var incoming :- IncomingFunction(ctx);
    if incoming != Str(p.functionName) then Ok(ctx) else p.handleFn(ctx)
  }

  function Names(proxies: seq<HandlerProxy>): (names: seq<string>)
    ensures |names| == |proxies|
    ensures forall i :: 0 <= i < |proxies| ==> names[i] == proxies[i].functionName
  {
    seq(|proxies|, i requires 0 <= i < |proxies| => proxies[i].functionName)
  }

  /** Among proxies with distinct names, at most one gate opens for a context. */
  lemma AtMostOneProxyOpens(proxies: seq<HandlerProxy>, ctx: Context)
    requires NoDuplicates(Names(proxies))
    ensures forall i, j ::
              0 <= i < |proxies| && 0 <= j < |proxies| && Opens(proxies[i], ctx) && Opens(proxies[j], ctx) ==> i == j
  {
    forall i, j | 0 <= i < j < |proxies|
      ensures !(Opens(proxies[i], ctx) && Opens(proxies[j], ctx))
    {
      assert Names(proxies)[i] != Names(proxies)[j];
    }
  }

  /**
   * What a delegating handler does: set `action.input.function` to `target`,
   * then `context.contract.actions.get(target)?.handle(context)`. `None` is the
   * `undefined` that `?.` yields when nothing is registered under `target`.
   */
  function Delegate(ctx: Context, target: string): (r: Option<Result<Context, Error>>)
    requires ctx.value.Obj? && Action(ctx.value).Obj? && Input(ctx.value).Obj?
    ensures ctx.contract.None? ==> r == Some(Err(TypeErrorThrown))
    ensures ctx.contract.Some? && target in ctx.contract.value.actions.entries
              && ctx.contract.value.actions.entries[target].functionName == target ==>
              r == Some(ctx.contract.value.actions.entries[target].handleFn(Context(Retarget(ctx.value, target), ctx.contract)))
    ensures ctx.contract.Some? && target !in ctx.contract.value.actions.entries ==> r.None?
  {
    match ctx.contract
    case None => Some(Err(TypeErrorThrown))
    case Some(m) =>
      if target in m.actions.entries
      then Some(Handle(m.actions.entries[target], Context(Retarget(ctx.value, target), ctx.contract)))
      else None
  }

  /**
   * Delegation with the context passed on as it is:
   * `context.contract.actions.get(target)?.handle(context)`, with no change
   * to `action.input.function` beforehand.
   */
  function DelegateAsIs(ctx: Context, target: string): (r: Option<Result<Context, Error>>)
    ensures ctx.contract.None? ==> r == Some(Err(TypeErrorThrown))
    ensures ctx.contract.Some? && target !in ctx.contract.value.actions.entries ==> r.None?
  {
    match ctx.contract
    case None => Some(Err(TypeErrorThrown))
    case Some(m) =>
      if target in m.actions.entries then Some(Handle(m.actions.entries[target], ctx)) else None
  }

  /**
   * Passed on as it is, a context that requests one function reaches the
   * proxy registered under another name and comes straight back: the
   * target's callback never runs.
   */
  lemma DelegationAsIsSkipsTarget(ctx: Context, target: string)
    requires WellShaped(ctx.value) && ctx.contract.Some?
    requires target in ctx.contract.value.actions.entries
    requires ctx.contract.value.actions.entries[target].functionName == target
    requires FunctionName(ctx.value) != target
    ensures DelegateAsIs(ctx, target) == Some(Ok(ctx))
  {
  }
}
