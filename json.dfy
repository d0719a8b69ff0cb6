/** The JSON-like value that the template engine hands to a filter. */
module Json {
  import opened Wrappers

  datatype Value =
    | Null
    | Bool(b: bool)
    | Number(n: int)
    | String(s: string)
    | Array(items: seq<Value>)
    | Object(fields: map<string, Value>)

  /** `value[key]`: the field of an object, and `Null` for a missing key or
      for a value that is not an object. */
  function Index(v: Value, key: string): (r: Value)
    ensures r != Null ==> v.Object? && key in v.fields && r == v.fields[key]
    ensures v.Object? && key in v.fields ==> r == v.fields[key]
  {
    if v.Object? && key in v.fields then v.fields[key] else Null
  }

  /** `value.as_bool()`: `Some` exactly for booleans. */
  function AsBool(v: Value): (r: Option<bool>)
    ensures r.Some? <==> v.Bool?
    ensures r.Some? ==> v == Bool(r.value)
  {
    if v.Bool? then Some(v.b) else None
  }

  /** `value == "literal"`: true only for a string with that text. */
  predicate EqStr(v: Value, text: string)
  {
    v.String? && v.s == text
  }
}
