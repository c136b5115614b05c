/** JSON values as they travel in request bodies, store rows and response payloads.
    Numbers are JavaScript numbers, taken here as exact reals. */
module Json {
  import opened Wrappers

  datatype Json =
    | JNull
    | JBool(b: bool)
    | JNum(n: real)
    | JStr(s: string)
    | JArr(items: seq<Json>)
    | JObj(fields: map<string, Json>)

  /** A record: a JSON object's fields. A key that is absent is `undefined` in JavaScript. */
  type Record = map<string, Json>

  /** `Number.isInteger(n)`. */
  predicate IsInteger(n: real) {
    n.Floor as real == n
  }

  /** A JSON number that holds the integer `k`. */
  function Int(k: int): (v: Json)
    ensures v.JNum? && IsInteger(v.n) && v.n.Floor == k
  {
    JNum(k as real)
  }

  /** `obj?.[key] ?? fallback`: the field when it is present and not null. */
  function Coalesce(obj: Record, key: string, fallback: Json): (v: Json)
    ensures key in obj && obj[key] != JNull ==> v == obj[key]
    ensures (key !in obj || obj[key] == JNull) ==> v == fallback
  {
    if key in obj && obj[key] != JNull then obj[key] else fallback
  }

  /** `obj.key`: the field, or `None` for `undefined`. */
  function Get(obj: Record, key: string): (v: Option<Json>)
    ensures v.Some? <==> key in obj
  {
    if key in obj then Some(obj[key]) else None
  }

  /** `obj.outer?.inner`: `undefined` unless `outer` holds an object with an `inner` field. */
  function GetPath(obj: Record, outer: string, inner: string): (v: Option<Json>)
    ensures v.Some? <==> outer in obj && obj[outer].JObj? && inner in obj[outer].fields
  {
    if outer in obj && obj[outer].JObj? then Get(obj[outer].fields, inner) else None
  }

  /** `!!v`: JavaScript truthiness. `undefined`, `null`, `false`, `0` and `""` are falsy. */
  predicate Truthy(v: Option<Json>) {
    match v
    case None => false
    case Some(j) =>
      match j
      case JNull => false
      case JBool(b) => b
      case JNum(n) => n != 0.0
      case JStr(s) => s != ""
      case JArr(_) => true
      case JObj(_) => true
  }

  /** An object literal field `key: v`: an `undefined` value does not reach the wire. */
  function Put(obj: Record, key: string, v: Option<Json>): (r: Record)
    ensures v.Some? ==> r == obj[key := v.value]
    ensures v.None? ==> r == obj
  {
    if v.Some? then obj[key := v.value] else obj
  }
}
