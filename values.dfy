/** Python values as the request layer sees them, Python's truthiness, and the
    two exception classes the layer raises. */
module Values {

  datatype Option<+T> = None | Some(value: T)

  /** A JSON-serialisable Python value: the payloads, dicts and tokens that
      callers hand to the facades. `JNull` is Python's `None`. */
  datatype Json =
    | JNull
    | JBool(b: bool)
    | JInt(i: int)
    | JStr(s: string)
    | JList(items: seq<Json>)
    | JDict(fields: map<string, Json>)

  /** Python's truth test (`bool(v)`) on these values. */
  predicate Truthy(v: Json) {
    match v
    case JNull => false
    case JBool(b) => b
    case JInt(i) => i != 0
    case JStr(s) => s != ""
    case JList(items) => items != []
    case JDict(fields) => fields != map[]
  }

  /** `d.get(key)`: the value under `key`, or `None` when it is absent. */
  function DictGet(d: map<string, Json>, key: string): (v: Json)
    ensures key in d ==> v == d[key]
    ensures key !in d ==> v == JNull && !Truthy(v)
  {
    if key in d then d[key] else JNull
  }

  /** The exceptions raised before any request is sent. */
  datatype Error =
    | ValueError(message: string)
    | TypeError(message: string)

  /** Either the value an operation produced or the exception it raised. */
  datatype Result<+T> = Ok(value: T) | Err(error: Error) {
    predicate IsFailure() {
      Err?
    }

    function PropagateFailure<U>(): Result<U>
      requires Err?
    {
      Err(error)
    }

    function Extract(): T
      requires Ok?
    {
      value
    }
  }
}
