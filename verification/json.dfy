/**
 * Decoded JSON values as Python sees them after `request.get_json()`,
 * with the few Python behaviours the handlers rely on: truthiness,
 * `dict.get` and the messages of the two exceptions a wrongly typed body
 * provokes.
 */
module Json {

  datatype Json =
    | JNull
    | JBool(b: bool)
    | JInt(i: int)
    | JStr(s: string)
    | JList(items: seq<Json>)
    | JObject(fields: map<string, Json>)

  /** Python's truth value: `None`, `False`, `0`, `""`, `[]` and `{}` are false. */
  predicate Truthy(j: Json) {
    match j
    case JNull => false
    case JBool(b) => b
    case JInt(i) => i != 0
    case JStr(s) => |s| > 0
    case JList(items) => |items| > 0
    case JObject(fields) => |fields| > 0
  }

  /** `d.get(key)`: `None` when the key is absent. */
  function Get(fields: map<string, Json>, key: string): Json {
    if key in fields then fields[key] else JNull
  }

  /** Name of the Python type the value decodes to. */
  function TypeName(j: Json): string {
    match j
    case JNull => "NoneType"
    case JBool(_) => "bool"
    case JInt(_) => "int"
    case JStr(_) => "str"
    case JList(_) => "list"
    case JObject(_) => "dict"
  }

  /** `str(e)` of the AttributeError raised by `data.get(...)` on a body that is not an object. */
  function NoGetMessage(data: Json): string {
    "'" + TypeName(data) + "' object has no attribute 'get'"
  }

  /** `str(e)` of the TypeError raised by `re.match`/`re.search` on a value that is not a string. */
  function NotStringMessage(value: Json): string {
    "expected string or bytes-like object, got '" + TypeName(value) + "'"
  }

  /** `{"error": message}` */
  function ErrorObject(message: string): Json {
    JObject(map["error" := JStr(message)])
  }
}
