/** JSON values as `JSON.parse` produces them, the JavaScript `undefined`
    that a missing property or index yields, and JavaScript truthiness. */
module JsonValues {

  datatype Option<+T> = None | Some(value: T)

  /** A parsed JSON document. Numbers are taken as opaque reals once parsed;
      object member order plays no part here. */
  datatype Json =
    | JNull
    | JBool(b: bool)
    | JNumber(n: real)
    | JString(s: string)
    | JArray(elems: seq<Json>)
    | JObject(members: map<string, Json>)

  /** A JavaScript value seen by the adapter: `undefined` or a JSON value. */
  datatype JsValue = Undefined | Defined(json: Json)

  /** The JavaScript `null` that the component's state starts from. */
  const Null: JsValue := Defined(JNull)

  /** JavaScript truthiness: `undefined`, `null`, `false`, `0`, `-0` and `""`
      are falsy; every array and every object, even an empty one, is truthy. */
  predicate Truthy(v: JsValue)
    ensures Truthy(v) <==>
              v != Undefined && v != Null && v != Defined(JBool(false)) &&
              v != Defined(JNumber(0.0)) && v != Defined(JString(""))
  {
    match v
    case Undefined => false
    case Defined(j) =>
      match j
      case JNull => false
      case JBool(b) => b
      case JNumber(n) => n != 0.0
      case JString(s) => s != []
      case JArray(_) => true
      case JObject(_) => true
  }
}
