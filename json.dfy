/** Failure-compatible wrappers used throughout the model. */
module Wrappers {

  datatype Option<+T> = None | Some(value: T)

  /** The exceptions the backend can raise while building a model. */
  datatype Error =
    | NotAMapping(what: string)      // `.get` or `**` applied to something that is not a dict
    | NotIterable(what: string)      // a `for` over something that cannot be iterated
    | MissingField(field: string)    // pydantic: a required field is absent
    | WrongType(field: string)       // pydantic or arithmetic: a value of the wrong type
    | NotANumber(text: string)       // `float()` of a malformed literal

  datatype Result<+T> = Ok(value: T) | Err(error: Error)
}

/** Python's dynamically typed values, as they come out of `json.loads` or are built as dict literals. */
module JsonValue {
  import opened Wrappers

  /** Python `int` and `float` are both `JNum`, held exactly as a rational. */
  datatype Json =
    | JNull
    | JBool(b: bool)
    | JNum(n: real)
    | JStr(s: string)
    | JArr(items: seq<Json>)
    | JObj(fields: map<string, Json>)

  /** `d.get(key, default)` on a dict. */
  function Get(d: map<string, Json>, key: string, default: Json): (r: Json)
    ensures key in d ==> r == d[key]
    ensures key !in d ==> r == default
  {
    if key in d then d[key] else default
  }

  /** A number that has no fractional part (what an `int` field accepts). */
  predicate IsIntegral(x: real) {
    x == x.Floor as real
  }

  /** Python `int(x)` on a float: truncation toward zero. */
  function Truncate(x: real): (r: int)
    ensures 0.0 <= x ==> r as real <= x < r as real + 1.0
    ensures x < 0.0 ==> r as real - 1.0 < x <= r as real
  {
    if x >= 0.0 then x.Floor else -((-x).Floor)
  }
}
