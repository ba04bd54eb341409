/**
 * Decoded documents: what `response.json()` and `yaml.safe_load` hand to the
 * rest of the program. Numbers are exact reals (floating point is not modelled);
 * the key order of objects is not kept.
 */
module JsonValues {

  datatype Json =
    | JNull
    | JBool(b: bool)
    | JNum(n: real)
    | JStr(s: string)
    | JArray(items: seq<Json>)
    | JObject(fields: map<string, Json>)

  /** `d.get(key, default)` on a mapping. */
  function Get(fields: map<string, Json>, key: string, default: Json): Json
  {
    if key in fields then fields[key] else default
  }

  /** Python truthiness of a decoded value (`if v:` / `v or w`). */
  predicate Truthy(v: Json)
  {
    match v
    case JNull => false
    case JBool(b) => b
    case JNum(n) => n != 0.0
    case JStr(s) => s != ""
    case JArray(items) => items != []
    case JObject(fields) => fields != map[]
  }

  /** `v and isinstance(v, str)`: a string that is not empty. */
  predicate NonEmptyString(v: Json)
  {
    v.JStr? && v.s != ""
  }

  /** Python's `sub in s` on strings. */
  predicate IsSubstring(sub: string, s: string)
  {
    sub <= s || (s != [] && IsSubstring(sub, s[1..]))
  }
}
