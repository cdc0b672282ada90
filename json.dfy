/** JSON values as both halves of the system see them: what `JSON.parse`
    returns in the browser and what `json.loads` returns in the back end.
    Parsing itself is not modelled; every parser is a parameter of type
    `Parser`. */
module JsonModel {
  import opened Base

  /** A JSON number. `Int` and `Float` distinguish what Python's `json.loads`
      builds (`int` or `float`); to JavaScript both are one `number`.
      `NonFinite` is what an out-of-range literal such as `1e400` becomes. */
  datatype Num = Int(i: int) | Float(r: real) | NonFinite

  datatype Json =
    | JNull
    | JBool(b: bool)
    | JNum(n: Num)
    | JStr(s: string)
    | JArr(items: seq<Json>)
    | JObj(fields: map<string, Json>)

  /** `JSON.parse` / `json.loads`: `None` when the text is rejected. */
  type Parser = string -> Option<Json>

  /** Stands for the text of the `JSONDecodeError` that `json.loads` raises. */
  const DecodeError := "JSONDecodeError"

  /** JavaScript truthiness (`!!v`). */
  predicate JsTruthy(j: Json) {
    match j
    case JNull => false
    case JBool(b) => b
    case JNum(n) => !(n.Int? && n.i == 0) && !(n.Float? && n.r == 0.0)
    case JStr(s) => s != ""
    case _ => true
  }

  /** Python truthiness (`bool(v)`). */
  predicate PyTruthy(j: Json) {
    match j
    case JNull => false
    case JBool(b) => b
    case JNum(n) => !(n.Int? && n.i == 0) && !(n.Float? && n.r == 0.0)
    case JStr(s) => s != ""
    case JArr(items) => items != []
    case JObj(fields) => fields != map[]
  }

  /** The Python type name `json.loads` gives each kind of value. */
  function PyTypeName(j: Json): string {
    match j
    case JNull => "NoneType"
    case JBool(_) => "bool"
    case JNum(n) => if n.Int? then "int" else "float"
    case JStr(_) => "str"
    case JArr(_) => "list"
    case JObj(_) => "dict"
  }

  /** The text of the `AttributeError` Python raises for `v.get(...)` on a
      value that is not a dict. */
  function NoGetError(j: Json): string {
    "'" + PyTypeName(j) + "' object has no attribute 'get'"
  }

  /** Python `d.get(key)` / JavaScript `obj[key]` on an object's fields. */
  function Get(fields: map<string, Json>, key: string): Option<Json> {
    if key in fields then Some(fields[key]) else None
  }

  /** The string held by an optional value, when it is a string. */
  function AsString(v: Option<Json>): Option<string> {
    if v.Some? && v.value.JStr? then Some(v.value.s) else None
  }

  /** JavaScript `obj[key]` where `obj` may be any value: only objects have
      the named properties the source reads. */
  function Prop(j: Json, key: string): Option<Json> {
    if j.JObj? then Get(j.fields, key) else None
  }
}
