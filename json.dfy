/** An abstract JSON value, standing for nlohmann::json, with the three
    operations of that library the client relies on: `contains`, the
    non-const `operator[]` with a string key, and conversion to a string.
    Serialisation (`dump`) and parsing (`parse`) are not modelled. */
module Json {
  import opened Wrappers

  datatype Json =
    | JNull
    | JBool(b: bool)
    | JInt(i: int)
    | JReal(r: real)
    | JString(s: string)
    | JArray(items: seq<Json>)
    | JObject(fields: map<string, Json>)

  /** `j.contains(key)`: true only for an object that holds `key`. */
  predicate Contains(j: Json, key: string)
  {
    j.JObject? && key in j.fields
  }

  /** The non-const `j[key]`: an object yields the stored value, or null when
      the key is absent (the library inserts it); a null value is first turned
      into an empty object and so also yields null; on any other value the
      library throws a type error, which is `None` here. */
  function Member(j: Json, key: string): (r: Option<Json>)
    ensures r.Some? <==> j.JObject? || j.JNull?
    ensures Contains(j, key) ==> r == Some(j.fields[key])
    ensures r.Some? && !Contains(j, key) ==> r == Some(JNull)
  {
    match j
    case JObject(fields) => Some(if key in fields then fields[key] else JNull)
    case JNull => Some(JNull)
    case _ => None
  }

  /** Conversion of a value to `std::string`: defined only for a JSON string;
      anything else throws a type error (`None`). */
  function AsString(j: Json): (r: Option<string>)
    ensures r.Some? <==> j.JString?
    ensures r.Some? ==> j == JString(r.value)
  {
    if j.JString? then Some(j.s) else None
  }
}
