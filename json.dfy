/** JSON-like values as Python's `json` module produces them, with the two
    Python behaviours the core relies on: truthiness (`if body:`) and
    `dict.get(key, default)`. */
module Json {
  import opened Wrappers

  datatype Value =
    | Null
    | Bool(b: bool)
    | Int(i: int)
    | Float(r: real)
    | Str(s: string)
    | Arr(items: seq<Value>)
    | Obj(fields: map<string, Value>)

  /** Python's `bool(v)`: None, False, zero, and empty strings, lists and dicts are falsy. */
  predicate Truthy(v: Value) {
    match v
    case Null => false
    case Bool(b) => b
    case Int(i) => i != 0
    case Float(r) => r != 0.0
    case Str(s) => s != ""
    case Arr(items) => items != []
    case Obj(fields) => fields != map[]
  }

  /** `d.get(key, default)` on a dict: the stored value, even a stored null, wins over the default. */
  function Get(fields: map<string, Value>, key: string, default: Value): (r: Value)
    ensures key in fields ==> r == fields[key]
    ensures key !in fields ==> r == default
  {
    if key in fields then fields[key] else default
  }

  /** A `str | None` argument that `if s:` accepts: given and non-empty. */
  predicate GivenText(s: Option<string>) {
    s.Some? && s.value != ""
  }

  /** An `int | None` argument that `if n:` accepts: given and non-zero. */
  predicate GivenInt(n: Option<int>) {
    n.Some? && n.value != 0
  }

  /** An empty dict, the default `{}` of nested lookups. */
  const EmptyObj: Value := Obj(map[])
}
