/** Decoded JSON values, as `json.loads` / `response.json()` hand them to the
    modules, and the rendering `str.format` gives a value it interpolates into a
    path template. */
module Json {
  import opened Optional
  import opened Text

  /** A decoded JSON value. Objects are Python dicts keyed by string; numbers
      are integers only. */
  datatype Json =
    | JNull
    | JBool(b: bool)
    | JInt(n: int)
    | JString(s: string)
    | JArray(items: seq<Json>)
    | JObject(fields: map<string, Json>)

  /** The one-key object `{k: v}`. */
  function Object1(k: string, v: Json): (j: Json)
    ensures j.JObject? && j.fields.Keys == {k} && j.fields[k] == v
  {
    JObject(map[k := v])
  }

  /** What `"{0}".format(v)` writes for a decoded value `v`: the text of a
      string, the numeral of an integer, `True`/`False`, `None`. Arrays and
      objects are written by Python's `repr`, which this model does not
      reproduce; they render as a fixed marker. */
  function PyStr(j: Json): string {
    match j
    case JNull => "None"
    case JBool(b) => if b then "True" else "False"
    case JInt(n) => IntToString(n)
    case JString(s) => s
    case JArray(_) => "[...]"
    case JObject(_) => "{...}"
  }

  /** What `"{0}".format(v)` writes for an optional string parameter. */
  function FormatParam(o: Option<string>): string {
    match o
    case Some(s) => s
    case None => "None"
  }
}
