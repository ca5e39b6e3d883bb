/** The little of JavaScript's value semantics that the transport's decisions
    depend on: `typeof`, truthiness, and the errors the runtime throws. */
module Js {
  import opened Wrappers

  /** A JavaScript value as far as `typeof` and truthiness tell values apart.
      The payloads of functions and objects are opaque tokens. */
  datatype Value =
    | Undefined
    | Null
    | Bool(b: bool)
    | Number(n: int)
    | NaN
    | Str(s: string)
    | Function(result: nat)    // a zero-argument factory; `result` names the handle it returns
    | Object(params: nat)      // a plain object or array; `params` names its contents

  /** `typeof v` */
  function TypeOf(v: Value): string
  {
    match v
    case Undefined => "undefined"
    case Null => "object"
    case Bool(_) => "boolean"
    case Number(_) => "number"
    case NaN => "number"
    case Str(_) => "string"
    case Function(_) => "function"
    case Object(_) => "object"
  }

  /** `typeof v === 'function'` holds exactly of functions. */
  lemma TypeOfFunction(v: Value)
    ensures TypeOf(v) == "function" <==> v.Function?
  {
  }

  /** `!!v` */
  predicate Truthy(v: Value)
  {
    match v
    case Undefined => false
    case Null => false
    case Bool(b) => b
    case Number(n) => n != 0
    case NaN => false
    case Str(s) => s != ""
    case Function(_) => true
    case Object(_) => true
  }

  /** An option that is either absent or a string, as a JavaScript value. */
  function OfString(o: Option<string>): Value
  {
    if o.Some? then Str(o.value) else Undefined
  }

  /** Whether an optional string option is truthy. */
  predicate Present(o: Option<string>)
  {
    Truthy(OfString(o))
  }

  /** `o || fallback` for an optional string option. */
  function Or(o: Option<string>, fallback: string): (r: string)
    requires fallback != ""
    ensures r != ""
    ensures o.Some? && o.value != "" ==> r == o.value
    ensures o.None? || o.value == "" ==> r == fallback
  {
    if Present(o) then o.value else fallback
  }

  /** Exceptions the JavaScript runtime raises in the transport's code paths. */
  datatype JsError =
    | TypeError        // a property read or call on `undefined` or `null`
    | ReferenceError   // an undeclared identifier is evaluated
}
