/**
 * JavaScript values as they travel through the client: JSON documents plus the
 * language's truthiness and strict-equality rules that the code relies on.
 * `undefined` and `null` are both represented by JNull.
 */
module Json {

  datatype Json =
    | JNull
    | JBool(b: bool)
    | JNum(n: int)
    | JStr(s: string)
    | JArr(items: seq<Json>)
    | JObj(fields: map<string, Json>)

  /** The empty object literal `{}`. */
  const EmptyObject: Json := JObj(map[])

  /** JavaScript truthiness: null, false, 0 and "" are falsy; every array and object is truthy. */
  predicate Truthy(j: Json) {
    match j
    case JNull => false
    case JBool(b) => b
    case JNum(n) => n != 0
    case JStr(s) => s != ""
    case JArr(_) => true
    case JObj(_) => true
  }

  /**
   * `a === b`. Primitives compare by value; two arrays or objects obtained from
   * separate parses are distinct references, so they are never strictly equal.
   */
  predicate StrictEq(a: Json, b: Json) {
    match (a, b)
    case (JNull, JNull) => true
    case (JBool(x), JBool(y)) => x == y
    case (JNum(x), JNum(y)) => x == y
    case (JStr(x), JStr(y)) => x == y
    case _ => false
  }

  /** `a || b`. */
  function OrElse(a: Json, b: Json): Json {
    if Truthy(a) then a else b
  }

  /** `j?.key`: the member of an object, and undefined for every other value or a missing key. */
  function Field(j: Json, key: string): Json {
    if j.JObj? && key in j.fields then j.fields[key] else JNull
  }

  /** `===` is value equality on primitives and never holds for an array or an object. */
  lemma StrictEqIsEqualityOnPrimitives(a: Json, b: Json)
    ensures StrictEq(a, b) <==> !a.JArr? && !a.JObj? && a == b
  {
  }
}
