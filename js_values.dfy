/** JavaScript values as they arrive in a parsed JSON request body, and the
    JavaScript tests that the bookmark handlers apply to them. */
module JsValues {

  datatype Option<+T> = None | Some(value: T)

  /** A JavaScript value read out of a request body. `Undefined` is what a
      missing property reads as. `NonInteger` stands for every number that is
      not an integer (a fraction, or an infinity from an out-of-range literal);
      its value is never inspected by the handlers, so only the flag is kept. */
  datatype Value =
    | Undefined
    | Null
    | Bool(b: bool)
    | Str(s: string)
    | Int(n: int)
    | NonInteger
    | Arr(items: seq<Value>)
    | Obj(props: map<string, Value>)

  /** A parsed JSON request body: its properties by name. */
  type Body = map<string, Value>

  /** `body[name]`: a property that is not there reads as `undefined`. */
  function Field(body: Body, name: string): Value
  {
    if name in body then body[name] else Undefined
  }

  /** JavaScript truthiness: `!v` is false. Arrays and objects are truthy
      even when empty; an integer is truthy unless it is 0 (or -0, which JSON
      parses to the same value here). */
  predicate Truthy(v: Value)
    ensures v.Arr? || v.Obj? || v.NonInteger? ==> Truthy(v)
    ensures v.Str? ==> (Truthy(v) <==> |v.s| > 0)
    ensures v.Int? ==> (Truthy(v) <==> v.n != 0)
  {
    match v
    case Undefined => false
    case Null => false
    case Bool(b) => b
    case Str(s) => s != ""
    case Int(n) => n != 0
    case NonInteger => true
    case Arr(_) => true
    case Obj(_) => true
  }

  /** `Number.isInteger(v)`: true exactly of integral numbers, never of a
      string or a boolean. */
  predicate IsInteger(v: Value)
    ensures v.Str? || v.Bool? || v.NonInteger? || v == Null || v == Undefined ==> !IsInteger(v)
  {
    v.Int?
  }

  /** The falsy values are exactly undefined, null, false, "" and 0. */
  lemma FalsyValues(v: Value)
    ensures !Truthy(v) <==> v == Undefined || v == Null || v == Bool(false) || v == Str("") || v == Int(0)
  {
  }
}
