/** The arguments both builders' `.action(...)` accept. */
module ActionArguments {
  import opened Wrappers
  import opened JsValues
  import opened HandlerProxies

  /**
   * A self-describing handler object: its `function_name` property, if the
   * object has one (any value), and its `handle` method, if it has one.
   */
  datatype HandlerObject = HandlerObject(functionName: Option<Value>, handle: Option<Callback>)

  /** The first argument of `.action(...)`: a string name or a handler object. */
  datatype ActionArgument = Named(name: string) | Described(handler: HandlerObject)

  /** What a successful `.action(...)` registers: a name and its callback. */
  datatype Entry = Entry(name: string, handleFn: Callback)

  /** `function (context) { return fn.handle(context); }`: the callback built for a handler object. */
  function Wrap(handle: Callback): Callback {
    ctx => handle(ctx)
  }

  /** The names of a fluent sequence of string-form registrations, in order. */
  function EntryNames(entries: seq<Entry>): (names: seq<string>)
    ensures |names| == |entries|
    ensures forall i :: 0 <= i < |entries| ==> names[i] == entries[i].name
  {
    seq(|entries|, i requires 0 <= i < |entries| => entries[i].name)
  }
}
