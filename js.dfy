/** The slice of JavaScript semantics the payment handlers rely on: JSON values as
    Express's JSON parser delivers them (plus `undefined` for an absent property),
    truthiness, the `||` operator, thrown errors and the normal/throw completion of
    an expression. */
module Js {

  datatype Option<+T> = None | Some(value: T)

  /** A property value read from a parsed JSON request or a processor response.
      JSON never produces NaN, so `Num` does not hold it. An array or object is kept
      only as its JSON text, plus one fact about its shape, `toPrimitiveThrows`:
      it is a plain object with an own `toString` property, or an array with such
      an object among its elements at any depth of nested arrays. JSON can only
      make that property a non-function, so converting the value to a primitive
      throws. The handlers never look inside an array or object that they do not
      model as a record of its own. */
  datatype JsValue =
    | Undefined
    | Null
    | Bool(b: bool)
    | Num(n: real)
    | Str(s: string)
    | Composite(json: string, toPrimitiveThrows: bool)

  /** JavaScript's ToBoolean: `undefined`, `null`, `false`, `0` and `""` are falsy. */
  predicate Truthy(v: JsValue) {
    match v
    case Undefined => false
    case Null => false
    case Bool(b) => b
    case Num(n) => n != 0.0
    case Str(s) => s != ""
    case Composite(_, _) => true
  }

  /** `a || b`: the left operand when it is truthy, otherwise the right one. */
  function Or(a: JsValue, b: JsValue): (r: JsValue)
    ensures Truthy(a) ==> r == a
    ensures !Truthy(a) ==> r == b
    ensures Truthy(r) <==> Truthy(a) || Truthy(b)
  {
    if Truthy(a) then a else b
  }

  /** An integer as a JavaScript number, e.g. an HTTP status code. */
  function Code(n: int): (r: JsValue) {
    Num(n as real)
  }

  /** One element of the processor's `cause` list; only `description` is read. */
  datatype CauseEntry = CauseEntry(description: JsValue)

  /** A thrown value as the `catch` blocks see it: the processor client's error, with
      an optional `cause` list, a `message` and an optional HTTP `status`, or a
      TypeError raised by the engine (no cause, no status, a non-empty message). */
  datatype JsError = JsError(cause: Option<seq<CauseEntry>>, message: JsValue, status: JsValue)

  /** The outcome of evaluating an expression: a value, or an exception. */
  datatype Completion<+T> = Normal(value: T) | Throw(error: JsError)

  /** The value of `Number(arg)`, left uninterpreted (JavaScript's numeric
      coercion and its NaN results are not modelled). */
  datatype Coerced = NumberOf(arg: JsValue)

  /** The TypeError raised when an object can be converted to no primitive value. */
  const ConversionError := JsError(None, Str("Cannot convert object to primitive value"), Undefined)

  /** `Number(v)`. For an object, ToPrimitive tries `valueOf` and `toString`. The
      inherited `valueOf` returns the object itself and an own one (never a
      function in JSON) is skipped, so the result comes from `toString`: an own
      `toString` property makes it throw a TypeError, the inherited one gives
      `"[object Object]"`. An array's `toString` is `join`, which converts each
      element that is neither `undefined` nor `null` to a string; an object
      element with an own `toString` throws there too, so an array throws exactly
      when one of its elements, at any depth, is such an object. Every other JSON
      value converts. */
  function ToNumber(v: JsValue): (r: Completion<Coerced>)
    ensures r.Throw? <==> v.Composite? && v.toPrimitiveThrows
    ensures r.Normal? ==> r.value == NumberOf(v)
    ensures r.Throw? ==> r.error.cause.None? && Truthy(r.error.message) && !Truthy(r.error.status)
  {
    if v.Composite? && v.toPrimitiveThrows then Throw(ConversionError) else Normal(NumberOf(v))
  }

  /** The TypeError raised on reading `property` of `undefined` or `null`. The
      engine's exact wording is approximated; only its being non-empty matters. */
  function TypeErrorReading(property: string): (e: JsError)
    ensures e.cause.None? && Truthy(e.message) && !Truthy(e.status)
  {
    JsError(None, Str("Cannot read properties of undefined (reading '" + property + "')"), Undefined)
  }

  /** The TypeError raised on calling `callee` when it is not a function. */
  function TypeErrorNotFunction(callee: string): (e: JsError)
    ensures e.cause.None? && Truthy(e.message) && !Truthy(e.status)
  {
    JsError(None, Str(callee + " is not a function"), Undefined)
  }
}
