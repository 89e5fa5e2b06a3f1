/** JavaScript values as they arrive in a parsed JSON request body, with the few
    language rules the handlers rely on: truthiness, property access and
    destructuring defaults. */
module Json {
  import opened Wrappers


  /** A JavaScript value. Numbers are modelled as integers; `Undefined` is what
      reading an absent property yields. */
  datatype JsValue =
    | Undefined
    | Null
    | Bool(b: bool)
    | Num(n: int)
    | Str(s: string)
    | Arr(items: seq<JsValue>)
    | Obj(props: map<string, JsValue>)

  /** JavaScript truthiness: `if (!v)` takes its branch exactly when this is false. */
  predicate Truthy(v: JsValue) {
    match v
    case Undefined => false
    case Null => false
    case Bool(b) => b
    case Num(n) => n != 0
    case Str(s) => s != ""
    case Arr(_) => true
    case Obj(_) => true
  }

  /** Reading property `key` of an object: an absent property reads as undefined. */
  function Prop(props: map<string, JsValue>, key: string): JsValue {
    if key in props then props[key] else Undefined
  }

  /** The default of a destructuring pattern `{ x = d } = o`: it replaces
      undefined, and nothing else (not null, not "", not 0). */
  function OrDefault(v: JsValue, d: JsValue): JsValue {
    if v.Undefined? then d else v
  }

  /** The message of the TypeError raised when a destructuring pattern reads a
      property of undefined or null. */
  function DestructureError(key: string): string {
    "Cannot destructure property '" + key + "' of undefined or null"
  }

  /** Reading property `key` of `v` in a destructuring pattern: undefined and
      null have no properties and raise a TypeError; an object yields its own
      property; arrays, strings, numbers and booleans have none of the names
      the core reads, so they yield undefined. */
  function Get(v: JsValue, key: string): (r: Result<JsValue, string>)
    ensures r.Err? <==> v.Undefined? || v.Null?
    ensures r.Err? ==> r.error == DestructureError(key)
    ensures v.Obj? ==> r == Ok(Prop(v.props, key))
  {
    match v
    case Undefined => Err(DestructureError(key))
    case Null => Err(DestructureError(key))
    case Obj(props) => Ok(Prop(props, key))
    case _ => Ok(Undefined)
  }

  /** The text that `JSON.stringify` produces, kept abstract: the model only
      relies on it being a function of the value that loses nothing. */
  datatype Serialized = Stringified(value: JsValue)

  function Stringify(v: JsValue): Serialized { Stringified(v) }
}
