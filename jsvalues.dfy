/**
  JavaScript values as the Firestore SDK hands them to a Cloud Function, and the
  two pieces of JavaScript semantics the notification handler relies on: truthiness
  (the tests `!settings`, `!settings.pushNotifications`, `!fcmToken`) and the
  value-returning `||` operator used for the message defaults.
 */
module JsValues {

  /** A field value read from a Firestore document, or `undefined` for a field that
      is not there. Firestore maps, timestamps, geo points, references and byte
      strings all arrive as JavaScript objects, so they are all `Obj` here. */
  datatype JsValue =
    | Undefined
    | Null
    | Bool(b: bool)
    | Num(x: real)
    | NaN
    | Str(s: string)
    | Arr(elems: seq<JsValue>)
    | Obj(fields: map<string, JsValue>)

  /** The data of a document: its top-level fields. */
  type Fields = map<string, JsValue>

  /** A document snapshot: `data()` is `undefined` when the document does not exist. */
  datatype Snapshot = Missing | Exists(data: Fields)

  /** JavaScript's ToBoolean: `undefined`, `null`, `false`, `0`, `-0`, `NaN` and the
      empty string are falsy; every other value, including empty arrays and objects,
      is truthy. */
  predicate Truthy(v: JsValue)
    ensures !Truthy(v) <==> v in {Undefined, Null, Bool(false), Num(0.0), NaN, Str("")}
  {
    match v
    case Undefined => false
    case Null => false
    case Bool(b) => b
    case Num(x) => x != 0.0
    case NaN => false
    case Str(s) => s != ""
    case Arr(_) => true
    case Obj(_) => true
  }

  /** Property access `obj.key` on a document's data: a missing field reads as `undefined`. */
  function Get(fields: Fields, key: string): (v: JsValue)
    ensures key in fields ==> v == fields[key]
    ensures key !in fields ==> v == Undefined && !Truthy(v)
  {
    if key in fields then fields[key] else Undefined
  }

  /** JavaScript's `a || b`: the left operand when it is truthy, otherwise the right one. */
  function Or(a: JsValue, b: JsValue): (r: JsValue)
    ensures r == a || r == b
    ensures Truthy(r) <==> Truthy(a) || Truthy(b)
    ensures Truthy(a) ==> r == a
    ensures !Truthy(a) ==> r == b
  {
    if Truthy(a) then a else b
  }
}
