/** Values exchanged with the game's WebSocket peer: parsed JSON documents,
    JavaScript property access and truthiness on them, and small sequence helpers. */
module Values {

  datatype Option<+T> = None | Some(value: T)

  /** A parsed JSON document. Numbers are integers in this model. */
  datatype Json =
    | JNull
    | JBool(b: bool)
    | JNum(n: int)
    | JStr(s: string)
    | JArr(items: seq<Json>)
    | JObj(fields: map<string, Json>)

  /** `v[key]` in JavaScript for a non-null value: an own field of an object,
      otherwise `undefined` (None). Access on `null` throws and is handled by callers. */
  function Prop(v: Json, key: string): Option<Json>
  {
    if v.JObj? && key in v.fields then Some(v.fields[key]) else None
  }

  /** JavaScript truthiness of a possibly `undefined` value. */
  predicate Truthy(v: Option<Json>)
  {
    match v
    case None => false
    case Some(JNull) => false
    case Some(JBool(b)) => b
    case Some(JNum(n)) => n != 0
    case Some(JStr(s)) => s != ""
    case Some(JArr(_)) => true
    case Some(JObj(_)) => true
  }

  /** The property access `v.key` throws exactly when `v` is `undefined` or `null`. */
  predicate Nullish(v: Option<Json>)
  {
    v.None? || v.value.JNull?
  }

  function Elems<T>(s: seq<T>): set<T>
  {
    set x | x in s
  }

  predicate Distinct<T(==)>(s: seq<T>)
  {
    forall i, j :: 0 <= i < j < |s| ==> s[i] != s[j]
  }
}
