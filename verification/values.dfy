/**
 * Values that appear in an errbot configuration module (`config.py`).
 *
 * The configuration is a Python module whose attributes are arbitrary Python
 * objects; the bootstrap code only ever stores literals of a handful of shapes
 * and tests truthiness or `isinstance(..., str)` / `isinstance(..., tuple)`, so a
 * small closed datatype is enough.
 */
module Values {

  datatype Option<+T> = None | Some(value: T)

  /** A Python value as it can occur in `config.py`. Dict entries keep insertion order. */
  datatype Value =
    | VNone
    | VBool(b: bool)
    | VInt(i: int)
    | VStr(s: string)
    | VTuple(items: seq<Value>)
    | VList(elems: seq<Value>)
    | VDict(entries: seq<(Value, Value)>)

  /** Python truthiness (`bool(v)`): None, False, 0 and empty containers are false. */
  predicate Truthy(v: Value)
  {
    match v
    case VNone => false
    case VBool(b) => b
    case VInt(i) => i != 0
    case VStr(s) => s != ""
    case VTuple(items) => |items| > 0
    case VList(elems) => |elems| > 0
    case VDict(entries) => |entries| > 0
  }
}
