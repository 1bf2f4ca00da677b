/**
 * JSON values as Python's json module decodes them (ints and floats are
 * distinct), and the `dict.get` lookups the client reads them with.
 */
module Json {
  import opened Errors

  datatype Json =
    | JNull
    | JBool(b: bool)
    | JInt(i: int)
    | JFloat(f: real)
    | JStr(s: string)
    | JArr(items: seq<Json>)
    | JObj(fields: map<string, Json>)

  /** `d.get(k, default)`: a key that is present wins even when its value is null. */
  function Get(d: map<string, Json>, k: string, default: Json): Json {
    if k in d then d[k] else default
  }

  /** The name Python gives the type of a decoded JSON value. */
  function TypeName(v: Json): string {
    match v
    case JNull => "NoneType"
    case JBool(_) => "bool"
    case JInt(_) => "int"
    case JFloat(_) => "float"
    case JStr(_) => "str"
    case JArr(_) => "list"
    case JObj(_) => "dict"
  }

  /**
   * The fields of `v` when `v.get` is about to be called: only a dict has a
   * `get` attribute, any other value raises AttributeError.
   */
  function AsDict(v: Json): (r: Result<map<string, Json>, Error>)
    ensures r.Ok? <==> v.JObj?
    ensures r.Ok? ==> r.value == v.fields
    ensures r.Err? ==> r.error.AttributeError?
  {
    if v.JObj? then Ok(v.fields)
    else Err(AttributeError("'" + TypeName(v) + "' object has no attribute 'get'"))
  }
}
