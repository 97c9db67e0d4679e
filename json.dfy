/** JSON values as `JSON.parse` produces them, and the JavaScript `in` operator on them. */
module Json {
  import opened Wrappers
  import Text

  datatype Json =
    | JNull
    | JBool(b: bool)
    | JNumber(n: int)
    | JString(s: string)
    | JArray(items: seq<Json>)
    | JObject(fields: map<string, Json>)

  /** One inbound chunk of socket data after `JSON.parse`: `None` when parsing throws.
      The text itself and the parser are not modelled. */
  type Chunk = Option<Json>

  /** Own property names of an array: its indices written in decimal, and `length`. */
  predicate IsArrayKey(items: seq<Json>, key: string) {
    key == "length" || exists i :: 0 <= i < |items| && key == Text.Decimal(i)
  }

  /** `key in v` over the value's own keys: a boolean for objects and arrays;
      for any other value the operator throws a `TypeError`, shown here as
      `None`. Keys inherited from a prototype are not modelled. */
  function HasProperty(v: Json, key: string): (r: Option<bool>)
    ensures r.Some? <==> v.JObject? || v.JArray?
    ensures v.JObject? ==> r == Some(key in v.fields)
  {
    match v
    case JObject(fields) => Some(key in fields)
    case JArray(items) => Some(IsArrayKey(items, key))
    case _ => None
  }

  /** The keys the application tests with `in`, `QMP` and `return`, are
      never keys of an array. */
  lemma ArraysLackNamedKeys(items: seq<Json>, key: string)
    requires key in {"QMP", "return"}
    ensures HasProperty(JArray(items), key) == Some(false)
  {
  }
}
