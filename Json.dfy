/** Parsed JSON values (the value kinds of section 3 of RFC 8259) and the member
    access and `typeof` tests the validators are written with. */
module Json {

  datatype Option<T> = None | Some(value: T)

  datatype Json =
    | Null
    | Bool(b: bool)
    | Number(n: real)
    | Str(s: string)
    | Array(items: seq<Json>)
    | Object(fields: map<string, Json>)

  /** `typeof v === "object" && v !== null`: objects and arrays. */
  predicate IsObject(v: Json)
  {
    v.Object? || v.Array?
  }

  /** `v.key` on an object or array: `None` stands for `undefined` (an absent key),
      which is distinct from a present `null`. Parsed arrays carry no named members. */
  function Member(v: Json, key: string): (r: Option<Json>)
    ensures r.Some? <==> v.Object? && key in v.fields
    ensures r.Some? ==> r.value == v.fields[key]
  {
    match v
    case Object(fields) => if key in fields then Some(fields[key]) else None
    case _ => None
  }

  /** `typeof m === "string"`, `"number"`, `"boolean"` on a member that may be absent. */
  predicate IsString(m: Option<Json>)
  {
    m.Some? && m.value.Str?
  }

  predicate IsNumber(m: Option<Json>)
  {
    m.Some? && m.value.Number?
  }

  predicate IsBoolean(m: Option<Json>)
  {
    m.Some? && m.value.Bool?
  }

  /** `m === null || typeof m === "string"`; an absent member is neither. */
  predicate IsNullOrString(m: Option<Json>)
  {
    m == Some(Null) || IsString(m)
  }

  /** The JSON form of a `string | null` field. */
  function NullableString(s: Option<string>): (v: Json)
    ensures IsNullOrString(Some(v))
    ensures s.Some? <==> v.Str?
    ensures s.Some? ==> v.s == s.value
  {
    match s
    case None => Null
    case Some(t) => Str(t)
  }

  /** The `string | null` a member holds, when it holds one. */
  function ReadNullableString(m: Option<Json>): (s: Option<string>)
    requires IsNullOrString(m)
    ensures Some(NullableString(s)) == m
  {
    if m.value.Str? then Some(m.value.s) else None
  }
}
