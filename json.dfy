/** JavaScript values as they cross the HTTP and provider boundaries, with the
    two JavaScript operations the handlers apply to them: truthiness and the
    `"key" in value` / `value[key]` member tests. Numbers are integers here. */
module Json {

  datatype Json =
    | JNull
    | JBool(b: bool)
    | JNum(n: int)
    | JStr(s: string)
    | JArr(items: seq<Json>)
    | JObj(fields: map<string, Json>)

  /** A computation that either yields a value or throws a JavaScript exception. */
  datatype Outcome<+T> = Done(value: T) | Threw

  /** JavaScript falsiness of a value that is present: `null`, `false`, `0` and `""`.
      An absent value (`undefined`) is falsy too; callers model it as `None`. */
  predicate Falsy(j: Json)
  {
    j == JNull || j == JBool(false) || j == JNum(0) || j == JStr("")
  }

  /** `!v` for a value that may be absent. */
  predicate Missing(v: Option<Json>)
  {
    v.None? || Falsy(v.value)
  }

  datatype Option<+T> = None | Some(value: T)

  /** `key in j`: true only for an object that holds the key; an array holds
      no string key; `in` on null or any primitive throws a TypeError. */
  function HasKey(j: Json, key: string): (r: Outcome<bool>)
    ensures r.Threw? <==> !(j.JObj? || j.JArr?)
    ensures r == Done(true) <==> j.JObj? && key in j.fields
  {
    match j
    case JObj(fields) => Done(key in fields)
    case JArr(_) => Done(false)
    case _ => Threw
  }

  /** `j[key]` (or `j.key`): `None` is `undefined`; reading a member of
      `null` throws, reading a member of any other primitive gives `undefined`. */
  function Member(j: Json, key: string): (r: Outcome<Option<Json>>)
    ensures r.Threw? <==> j.JNull?
    ensures r.Done? && r.value.Some? ==> j.JObj? && key in j.fields && r.value.value == j.fields[key]
  {
    match j
    case JNull => Threw
    case JObj(fields) => Done(if key in fields then Some(fields[key]) else None)
    case _ => Done(None)
  }

  /** `o?.key`: like `Member`, but an absent or null `o` gives `undefined`. */
  function OptionalMember(o: Option<Json>, key: string): (r: Option<Json>)
    ensures r.Some? ==> o.Some? && o.value.JObj? && key in o.value.fields
  {
    if o.None? || o.value.JNull? then None
    else match Member(o.value, key)
      case Done(v) => v
      case Threw => None
  }
}
