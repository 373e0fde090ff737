// JSON values as Python's json module hands them to the agent, together with
// the two Python idioms the agent applies to them: truthiness (`if not x`) and
// dict.get (an absent key reads as None).
module Values {

  datatype Option<+T> = None | Some(value: T)

  /** A decoded JSON value. JNull is Python's None, which is also what
      json.loads("null") returns; numbers are kept as reals because Python's
      int and float are both falsy exactly at zero. */
  datatype Json =
    | JNull
    | JBool(b: bool)
    | JNum(n: real)
    | JStr(s: string)
    | JArr(items: seq<Json>)
    | JObj(fields: map<string, Json>)

  /** Python's truth value of a decoded JSON value. */
  predicate Truthy(v: Json) {
    match v
    case JNull => false
    case JBool(b) => b
    case JNum(n) => n != 0.0
    case JStr(s) => s != []
    case JArr(items) => items != []
    case JObj(fields) => fields != map[]
  }

  /** dict.get(key) with no default. */
  function Get(fields: map<string, Json>, key: string): Json {
    if key in fields then fields[key] else JNull
  }
}
