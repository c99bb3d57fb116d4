/** JSON values as the grammar of section 3 of RFC 8259 lists them (object,
    array, number, string, and the literal names false, null and true), with
    the Gson accessors the plugin calls on them. An object is a map from member
    name to value: Gson keeps the last of duplicate names. */
module Json {
  import opened Base

  datatype Json =
    | JNull
    | JBool(b: bool)
    | JNumber(text: string)
    | JString(s: string)
    | JArray(elems: seq<Json>)
    | JObject(members: map<string, Json>)
  {
    /** JsonElement.isJsonPrimitive: booleans, numbers and strings; not null. */
    predicate IsPrimitive() {
      JBool? || JNumber? || JString?
    }

    /** JsonObject.has(name). */
    predicate Has(name: string) {
      JObject? && name in members
    }
  }

  /** JsonElement.getAsString: the text of a primitive, the single element of a
      one-element array, and an exception (None) for null, objects and other arrays. */
  function AsString(j: Json): (r: Option<string>)
    ensures j.IsPrimitive() ==> r.Some?
    ensures j.JString? ==> r == Some(j.s)
    ensures j.JNull? || j.JObject? ==> r == None
    ensures j.JArray? && |j.elems| != 1 ==> r == None
  {
    match j
    case JNull => None
    case JBool(b) => Some(if b then "true" else "false")
    case JNumber(t) => Some(t)
    case JString(s) => Some(s)
    case JArray(es) => if |es| == 1 then AsString(es[0]) else None
    case JObject(_) => None
  }
}
