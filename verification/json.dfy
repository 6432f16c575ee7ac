/** The values `json.loads` produces and `json.dump` writes, as the Python
    code sees them: `None` is `Null`, a dict is `Obj`, a list is `Arr`.
    Numbers (Python int or float) are reals. */
module Json {

  datatype Value =
    | Null
    | Bool(b: bool)
    | Num(n: real)
    | Str(s: string)
    | Arr(items: seq<Value>)
    | Obj(fields: map<string, Value>)

  /** Python truthiness (`if data:` / `not data` / `data or []`): None, False,
      zero and empty strings, lists and dicts are false. */
  predicate Truthy(v: Value) {
    match v
    case Null => false
    case Bool(b) => b
    case Num(n) => n != 0.0
    case Str(s) => |s| > 0
    case Arr(items) => |items| > 0
    case Obj(fields) => |fields| > 0
  }

  /** A one-entry dict `{key: text}`, the shape of every error and fallback
      result in the analysis modules. */
  function Single(key: string, text: string): (v: Value)
    ensures v.Obj? && v.fields.Keys == {key} && v.fields[key] == Str(text)
  {
    Obj(map[key := Str(text)])
  }
}
