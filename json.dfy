/** JavaScript values as they appear in VS Code debug configurations and in `.mcdev.json`.
    `undefined` is not a value here: a missing property is a key absent from its object, and
    reading one gives `None`. JSON numbers are modelled as integers. */
module JsonValues {
  import opened Wrappers

  datatype Json =
    | JNull
    | JBool(b: bool)
    | JNum(n: int)
    | JStr(s: string)
    | JArr(items: seq<Json>)
    | JObj(fields: map<string, Json>)

  /** A plain JavaScript object: a debug configuration, a settings file, a nested option group. */
  type Object = map<string, Json>

  /** `o[key]`: the value, or `undefined` (None) when the key is absent. */
  function Get(o: Object, key: string): (r: Option<Json>)
    ensures r.Some? <==> key in o
    ensures r.Some? ==> r.value == o[key]
  {
    if key in o then Some(o[key]) else None
  }

  /** Optional chaining `v?.[key]`: a property of an object; `undefined` for `undefined`, `null`,
      and for values that carry no such named property. */
  function Prop(v: Option<Json>, key: string): (r: Option<Json>)
    ensures r.Some? ==> v.Some? && v.value.JObj? && key in v.value.fields
  {
    match v
    case Some(JObj(m)) => Get(m, key)
    case _ => None
  }

  /** JavaScript truthiness (`!!v`): `undefined`, `null`, `false`, `0` and `''` are falsy. */
  predicate Truthy(v: Option<Json>) {
    match v
    case None => false
    case Some(JNull) => false
    case Some(JBool(b)) => b
    case Some(JNum(n)) => n != 0
    case Some(JStr(s)) => s != ""
    case Some(_) => true
  }

  /** Nullish coalescing `v ?? d`: `d` exactly when `v` is `undefined` or `null`. */
  function Coalesce(v: Option<Json>, d: Json): (r: Json)
    ensures (v.None? || v == Some(JNull)) ==> r == d
    ensures v.Some? && v != Some(JNull) ==> r == v.value
  {
    if v.None? || v == Some(JNull) then d else v.value
  }

  /** Spread `{...v}`: the fields of an object, and no fields for `undefined`, `null` or
      anything that is not an object. */
  function Spread(v: Option<Json>): (r: Object)
    ensures v.Some? && v.value.JObj? ==> r == v.value.fields
    ensures !(v.Some? && v.value.JObj?) ==> r == map[]
  {
    match v
    case Some(JObj(m)) => m
    case _ => map[]
  }

  /** A value read with its TypeScript type: the boolean, or None when the value is absent,
      `null` or not a boolean. */
  function AsBool(v: Option<Json>): (r: Option<bool>)
    ensures r.Some? <==> v.Some? && v.value.JBool?
  {
    match v
    case Some(JBool(b)) => Some(b)
    case _ => None
  }

  function AsString(v: Option<Json>): (r: Option<string>)
    ensures r.Some? <==> v.Some? && v.value.JStr?
  {
    match v
    case Some(JStr(s)) => Some(s)
    case _ => None
  }

  function AsInt(v: Option<Json>): (r: Option<int>)
    ensures r.Some? <==> v.Some? && v.value.JNum?
  {
    match v
    case Some(JNum(n)) => Some(n)
    case _ => None
  }
}
