/** The JavaScript values the schema compiler handles: raw input data,
    field declarations, configuration options and converted results. */
module Values {

  datatype Option<T> = None | Some(value: T)

  /** A value, or the exception that a conversion or an accessor raised. */
  datatype Result<T> = Ok(value: T) | Err(error: Error)

  /** The outcome of a call that returns nothing: it returns, or it throws. */
  datatype Outcome = Pass | Fail(error: Error)

  /** A function value. Three are created by the library itself; every other
      function is supplied by the caller and identified by a number. */
  datatype FnRef =
    | Identity           // `indentity`, the default arrayConstructor
    | StringConverter    // the converter built for the type tag "string"
    | NumberConverter    // the converter built for the type tag "number"
    | Callback(id: nat)  // a caller-supplied converter or arrayConstructor

  datatype Value =
    | Undef
    | Null
    | Bool(b: bool)
    | Num(x: real)
    | Str(s: string)
    | Arr(items: seq<Value>)
    | Obj(props: map<string, Value>)
    | Fn(f: FnRef)

  /** The exceptions that can escape an instantiation, a getter or a setter. */
  datatype Error =
    | NotAString(value: Value)    // thrown by the "string" converter
    | NotANumber(value: Value)    // thrown by the "number" converter
    | NotAFunction(value: Value)  // a TypeError: calling something that is not a function
    | NoDescriptor                // a TypeError: reading `isArray` of an undefined descriptor
    | NotAnArray(value: Value)    // a TypeError: the raw value of an array field has no `map`
    | NoDataView                  // a TypeError: a getter reads through a missing `_data`
    | NoChannel                   // a TypeError: a setter dispatches through a missing `onChange`
    | Thrown(payload: Value)      // whatever a caller-supplied function threw

  /** JavaScript truthiness (NaN is not a `real`, so it is not covered). */
  predicate Truthy(v: Value) {
    match v
    case Undef => false
    case Null => false
    case Bool(b) => b
    case Num(x) => x != 0.0
    case Str(s) => s != ""
    case _ => true
  }

  /** Property read on a plain object: a missing key reads as `undefined`. */
  function Lookup(m: map<string, Value>, key: string): Value {
    if key in m then m[key] else Undef
  }

  /** Element read on an array: an index past the end reads as `undefined`. */
  function Index(items: seq<Value>, i: nat): Value {
    if i < |items| then items[i] else Undef
  }
}
