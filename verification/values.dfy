/** The Python values the module handles, reduced to the shapes that reach its
    three helpers: scalar option fields, the option dictionaries built from
    them, and the module parameters that hold either. */
module PyValues {

  /** A scalar Python value: `None`, a bool, an int or a str. */
  datatype Value = Null | Bool(b: bool) | Int(i: int) | Str(s: string)

  /** One DHCP option descriptor (or any other dict element of a list
      parameter): a dict from field name to scalar value. */
  type OptionDict = map<string, Value>

  /** The value of one module parameter, `module.params[key]`. */
  datatype Param =
    | Scalar(v: Value)
    | DictList(dicts: seq<OptionDict>)
    | StrList(strs: seq<string>)
    | Dict(entries: map<string, Param>)
  {
    /** Python's `isinstance(x, list)`. */
    predicate IsList() {
      DictList? || StrList?
    }
  }

  /** Python truthiness of a scalar. */
  predicate Truthy(v: Value) {
    match v
    case Null => false
    case Bool(b) => b
    case Int(i) => i != 0
    case Str(s) => |s| > 0
  }

  /** Python truthiness of a parameter value: containers are true when non-empty. */
  predicate ParamTruthy(p: Param) {
    match p
    case Scalar(v) => Truthy(v)
    case DictList(ds) => |ds| > 0
    case StrList(ss) => |ss| > 0
    case Dict(m) => |m| > 0
  }
}
