/** The value `encoding/json` decodes into a Go `interface{}`. */
module JsonValue {

  /**
   * JSON numbers are kept as integers: the notifier only reads `current_date`,
   * a whole Unix timestamp, and converts it to an integer straight away.
   */
  datatype Json =
    | JNull
    | JBool(b: bool)
    | JNumber(n: int)
    | JString(str: string)
    | JArray(items: seq<Json>)
    | JObject(fields: map<string, Json>)

  /** `m[key].(string)` succeeds: the key is present and holds a string (a missing key reads as nil). */
  predicate HasString(m: map<string, Json>, key: string)
  {
    key in m && m[key].JString?
  }

  /** `v, _ := m[key].(string)`: the string, or Go's zero value "" when the assertion fails. */
  function StringOr(m: map<string, Json>, key: string): string
  {
    if HasString(m, key) then m[key].str else ""
  }
}
