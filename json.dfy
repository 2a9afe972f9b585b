/** Decoded JSON values, as `resp.json()` hands them to the service, with the
    Python operations the service applies to them: truthiness, `len`,
    `dict.get` and plain key access. */
module JsonValues {
  import opened Wrappers

  /** Numbers are integers here: the service never does arithmetic on them. */
  datatype Json =
    | JNull
    | JBool(b: bool)
    | JNum(n: int)
    | JStr(s: string)
    | JArr(items: seq<Json>)
    | JObj(fields: map<string, Json>)

  /** Python truthiness (`if x:`) of a decoded value. */
  predicate Truthy(j: Json)
  {
    match j
    case JNull => false
    case JBool(b) => b
    case JNum(n) => n != 0
    case JStr(s) => s != ""
    case JArr(xs) => xs != []
    case JObj(m) => m != map[]
  }

  /** Python's `len(x)`; `None` where `len` raises `TypeError`. */
  function Len(j: Json): Option<nat>
  {
    match j
    case JStr(s) => Some(|s|)
    case JArr(xs) => Some(|xs|)
    case JObj(m) => Some(|m|)
    case _ => None
  }

  /** `d.get(key)` on a dict: Python's `None` (here `JNull`) when absent. */
  function GetOr(fields: map<string, Json>, key: string): (v: Json)
    ensures key in fields ==> v == fields[key]
    ensures key !in fields ==> v == JNull
  {
    if key in fields then fields[key] else JNull
  }

  /** `j[key]` on a decoded body, `None` where that raises: the value is not
      an object or has no such key. */
  function Field(j: Json, key: string): (r: Option<Json>)
    ensures r.Some? <==> j.JObj? && key in j.fields
    ensures r.Some? ==> r.value == j.fields[key]
  {
    if j.JObj? && key in j.fields then Some(j.fields[key]) else None
  }

  /** Python's `x is not None` after a `.get` lookup: JSON `null` and a
      missing key both read as `None`. */
  predicate Present(r: Option<Json>)
  {
    r.Some? && r.value != JNull
  }
}
