/** JSON values as Python's `json.loads` produces them, and the text of the
    `TypeError` that Python raises when such a value is assigned a string key
    (`value['run_id'] = ...`) but is not a dictionary. */
module Json {

  import Wrappers

  datatype Json =
    | JNull
    | JBool(b: bool)
    | JInt(i: int)
    | JFloat(r: real)
    | JString(s: string)
    | JArray(items: seq<Json>)
    | JObject(members: map<string, Json>)

  /** `json.loads`: decodes a text into a value or fails with the decode
      error's message. It is supplied by the caller of the model. */
  type Decoder = string -> Wrappers.Result<Json, string>

  /** The name of the Python type that `json.loads` uses for the value. */
  function PyTypeName(v: Json): string {
    match v
    case JNull => "NoneType"
    case JBool(_) => "bool"
    case JInt(_) => "int"
    case JFloat(_) => "float"
    case JString(_) => "str"
    case JArray(_) => "list"
    case JObject(_) => "dict"
  }

  /** `str(e)` for the `TypeError` of `v[key] = x` with a string key. */
  function ItemAssignmentError(v: Json): string
    requires !v.JObject?
  {
    if v.JArray? then "list indices must be integers or slices, not str"
    else "'" + PyTypeName(v) + "' object does not support item assignment"
  }
}
