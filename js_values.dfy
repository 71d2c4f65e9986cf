/**
 * The slice of JavaScript's value model that the validators and the handler
 * proxy observe: truthiness (`!x`), `typeof x`, the `in` operator, strict
 * property reads (`x.k`) and optional-chained reads (`x?.k`).
 */
module JsValues {
  import opened Wrappers

  /**
   * A JavaScript value. `Obj` is a plain object with own properties; `Fn` is
   * a callable whose code is not visible (its `typeof` is "function").
   * Numbers are integers: NaN and -0 are not represented.
   */
  datatype Value =
    | Undefined
    | Null
    | Bool(b: bool)
    | Num(n: int)
    | Str(s: string)
    | Obj(fields: map<string, Value>)
    | Fn(id: nat)

  /** `!!v`. */
  predicate Truthy(v: Value) {
    match v
    case Undefined => false
    case Null => false
    case Bool(b) => b
    case Num(n) => n != 0
    case Str(s) => s != ""
    case Obj(_) => true
    case Fn(_) => true
  }

  /** `typeof v === "object"`, which holds of `null` as well. */
  predicate IsObjectType(v: Value) {
    v.Null? || v.Obj?
  }

  /** `v == null`, the values whose property reads throw. */
  predicate IsNullish(v: Value) {
    v.Undefined? || v.Null?
  }

  /** `v[k]` for a value that is not nullish: an own property, else `undefined`. */
  function Prop(v: Value, k: string): (r: Value)
    ensures !(v.Obj? && k in v.fields) ==> r == Undefined
  {
    if v.Obj? && k in v.fields then v.fields[k] else Undefined
  }

  /** The TypeError a JavaScript engine throws; its wording is engine specific. */
  datatype TypeError = TypeError

  /** The strict read `v.k`: reading a property of `undefined` or `null` throws. */
  function Get(v: Value, k: string): (r: Result<Value, TypeError>)
    ensures r.Err? <==> IsNullish(v)
    ensures r.Ok? ==> r.value == Prop(v, k)
  {
    if IsNullish(v) then Err(TypeError) else Ok(Prop(v, k))
  }

  /** The optional-chained read `v?.k`: `undefined` for a nullish `v`, never a throw. */
  function OptGet(v: Value, k: string): (r: Value)
    ensures Get(v, k).Ok? ==> r == Get(v, k).value
    ensures IsNullish(v) ==> r == Undefined
  {
    if IsNullish(v) then Undefined else Prop(v, k)
  }

  /**
   * A JavaScript array of strings. It is an object: two holders of the same
   * array see each other's `push`.
   */
  class StringArray {
    var items: seq<string>

    constructor ()
      ensures items == []
    {
      items := [];
    }

    /** `Array.prototype.push` of one element. */
    method Push(s: string)
      modifies this
      ensures items == old(items) + [s]
    {
      items := items + [s];
    }
  }

  /** No name occurs twice. */
  predicate NoDuplicates(s: seq<string>) {
    forall i, j :: 0 <= i < j < |s| ==> s[i] != s[j]
  }
}
