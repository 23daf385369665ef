/** A decoded JSON value. Object keys are names the code spells out; string values are bytes. */
module Json {
  import opened Common

  datatype Json =
    | Null
    | Bool(b: bool)
    | Num(n: real)
    | Str(s: Bytes)
    | Arr(items: seq<Json>)
    | Obj(fields: map<string, Json>)

  type Object = map<string, Json>

  /** body[key].(string), with the comma-ok form's empty default. */
  function StringAt(o: Object, key: string): Bytes {
    if key in o && o[key].Str? then o[key].s else []
  }
}
