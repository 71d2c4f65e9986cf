/**
 * The errors the builders and dispatchers throw. Each carries the exact
 * message the source throws; the shape-check messages differ between the two
 * builders and are defined beside each of them.
 */
module Errors {
  import opened Contexts

  datatype ErrorKind =
    | InvalidShape(check: ShapeCheck)     // the context failed a shape check
    | NoFunctionsDefined
    | UnknownFunction(name: string)
    | DuplicateActionName(name: string)
    | MissingHandlerFunction
    | MissingFunctionName
    | MissingHandleMethod
    | RuntimeTypeError                    // thrown by the JavaScript engine itself

  datatype Error = Error(kind: ErrorKind, message: string)

  const NoFunctionsError := Error(NoFunctionsDefined, "Contract does not have functions defined")

  function UnknownFunctionError(name: string): Error {
    Error(UnknownFunction(name), "Unknown function '" + name + "' provided")
  }

  function DuplicateActionError(name: string): Error {
    Error(DuplicateActionName(name), "Duplicate action name \"" + name + "\" provided in `.action(...)` call")
  }

  const MissingHandlerError :=
    Error(MissingHandlerFunction, "Cannot create an interaction handler without a handler function")

  const MissingFunctionNameError := Error(MissingFunctionName, "Handler is missing 'function_name' property")

  const MissingHandleError := Error(MissingHandleMethod, "Handler is missing 'handle()' method")

  /** The engine's wording of a TypeError is not modelled. */
  const TypeErrorThrown := Error(RuntimeTypeError, "TypeError")

  /** The offending name can be read back from an unknown-function message. */
  lemma UnknownFunctionMessageNamesFunction(name: string)
    ensures var m := UnknownFunctionError(name).message;
            |m| == |name| + 28 && m[18..|m| - 10] == name
  {
  }

  /** The offending name can be read back from a duplicate-action message. */
  lemma DuplicateActionMessageNamesAction(name: string)
    ensures var m := DuplicateActionError(name).message;
            |m| == |name| + 56 && m[23..|m| - 33] == name
  {
  }
}
