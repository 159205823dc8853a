/** Python-level vocabulary shared by the model of the GCM client:
    JSON-like values with Python truthiness, optional values, the
    exceptions the client raises, and a value-or-exception outcome. */
module Values {

  /** `None` or a present value. */
  datatype Option<+T> = None | Some(value: T)

  /** The values that appear as notification/option fields, payload
      entries and decoded response fields. Floats are not modelled. */
  datatype Value =
    | Null
    | Bool(b: bool)
    | Int(i: int)
    | Str(s: string)
    | List(items: seq<Value>)
    | Object(fields: map<string, Value>)

  /** Python truthiness: `None`, `False`, `0`, `''`, `[]` and `{}` are false. */
  predicate Truthy(v: Value) {
    match v
    case Null => false
    case Bool(b) => b
    case Int(i) => i != 0
    case Str(s) => s != ""
    case List(items) => items != []
    case Object(fields) => fields != map[]
  }

  /** The exceptions raised by the client. */
  datatype Error =
    | ValueError(msg: string)
    | TypeError(owner: string)        // unexpected keyword argument to `owner`'s constructor
    | GcmException(msg: string)
    | NameError(name: string)
    | UnboundLocalError(name: string)

  /** A Python call either returns a value or raises an exception. */
  datatype Outcome<+T> = Ok(value: T) | Raised(error: Error)
}
