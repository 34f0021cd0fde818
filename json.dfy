/** The JSON documents routes are stored as, seen as dictionaries. */
module Json {

  /** A JSON value as far as the route code distinguishes it. */
  datatype Value =
    | Str(s: string)
    | Num(x: real)
    | Bool(b: bool)
    | Other          // lists, objects and null

  /** A decoded JSON object. */
  type Record = map<string, Value>

  /** `r.get(key, default)`. */
  function Get(r: Record, key: string, default: Value): Value
  {
    if key in r then r[key] else default
  }
}
