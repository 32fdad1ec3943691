/** The decoded JSON values a response payload is made of, and Python's
    truthiness on them. */
module Json {

  /** One decoded JSON value. Numbers with a fractional part are kept as exact
      reals; objects are finite maps from keys to values. */
  datatype Json =
    | JNull
    | JBool(b: bool)
    | JInt(i: int)
    | JReal(x: real)
    | JStr(s: string)
    | JList(items: seq<Json>)
    | JObject(fields: map<string, Json>)

  /** A response payload: the top-level JSON object the transport decodes. */
  type Payload = map<string, Json>

  /** Python's `bool(v)`: `None`, `False`, zero, the empty string and the empty
      list or dict are false, everything else is true. */
  predicate Truthy(v: Json) {
    match v
    case JNull => false
    case JBool(b) => b
    case JInt(i) => i != 0
    case JReal(x) => x != 0.0
    case JStr(s) => s != []
    case JList(items) => items != []
    case JObject(fields) => fields != map[]
  }

  /** The falsy values are exactly these seven; every other value is truthy. */
  lemma FalsyValues(v: Json)
    ensures !Truthy(v) <==>
              v in {JNull, JBool(false), JInt(0), JReal(0.0), JStr([]), JList([]), JObject(map[])}
  {
  }
}
