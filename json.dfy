/**
 * JSON values as the Python code sees them after `json.load` / `response.json()`:
 * dicts, lists, strings, integers, booleans and None, with Python's truthiness,
 * `dict.get` and the `a or b` operator.
 */
module Json {

  datatype Value =
    | Null
    | Bool(b: bool)
    | Num(n: int)
    | Str(s: string)
    | Arr(items: seq<Value>)
    | Obj(fields: map<string, Value>)

  /** `bool(v)`: None, False, 0, "", [] and {} are falsy, everything else is truthy. */
  predicate Truthy(v: Value) {
    match v
    case Null => false
    case Bool(b) => b
    case Num(n) => n != 0
    case Str(s) => |s| > 0
    case Arr(items) => |items| > 0
    case Obj(fields) => |fields| > 0
  }

  /** `d.get(key, default)` on a dict. */
  function GetOr(fields: map<string, Value>, key: string, default: Value): Value {
    if key in fields then fields[key] else default
  }

  /** `d.get(key)`: None when the key is absent. */
  function Get(fields: map<string, Value>, key: string): Value {
    GetOr(fields, key, Null)
  }

  /** `a or b`: the first operand when it is truthy, otherwise the second. */
  function Or(a: Value, b: Value): Value {
    if Truthy(a) then a else b
  }

  /** `v == 0` in Python, which also holds of `False`. */
  predicate EqualsZero(v: Value) {
    v == Num(0) || v == Bool(false)
  }

  /** Python's `str(v)` for a value that is not a string: its printed form, which the model leaves abstract. */
  type Repr = Value -> string

  /** `str(v)`, or `f"{v}"`: a string is itself, anything else its printed form. */
  function Display(repr: Repr, v: Value): (text: string)
    ensures v.Str? ==> text == v.s
  {
    if v.Str? then v.s else repr(v)
  }
}
