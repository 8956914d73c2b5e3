/** The JSON-mode values `model_dump(mode="json")` produces, with the
    Python operations the round route applies to them: truthiness,
    `dict.get`, `isinstance(_, dict)` and iteration. */
module PyValues {
  import opened Wrappers

  datatype Value =
    | VNone
    | VBool(b: bool)
    | VInt(i: int)
    | VStr(s: string)
    | VList(items: seq<Value>)
    | VDict(fields: map<string, Value>)

  type Dict = map<string, Value>

  /** `bool(v)`. */
  predicate Truthy(v: Value)
  {
    match v
    case VNone => false
    case VBool(b) => b
    case VInt(i) => i != 0
    case VStr(s) => s != ""
    case VList(items) => |items| > 0
    case VDict(fields) => |fields| > 0
  }

  /** `d.get(key)`. */
  function Get(d: Dict, key: string): Value
  {
    if key in d then d[key] else VNone
  }

  /** The items `for x in v` visits, or None when `v` is not iterable
      (iterating None, a bool or an int raises TypeError). A string yields
      its one-character strings. A dict yields its keys; those are strings
      too, and since every caller here keeps only dict items they are
      represented by no items at all. */
  function Iterate(v: Value): Option<seq<Value>>
  {
    match v
    case VList(items) => Some(items)
    case VStr(s) => Some(seq(|s|, i requires 0 <= i < |s| => VStr([s[i]])))
    case VDict(_) => Some([])
    case _ => None
  }
}
