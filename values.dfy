/** Decoded JSON values as the program handles them: the records fetched from a
    data center, the embedded fire-status and fiscal sub-records, and the
    incident identifiers used as unit-mapping keys. */
module Values {

  datatype Option<+T> = None | Some(value: T)

  /** A JSON value. Python's int and float are both `Num`; NaN and the
      infinities are not representable. */
  datatype Value =
    | Null
    | Bool(b: bool)
    | Num(x: real)
    | Str(s: string)
    | Arr(items: seq<Value>)
    | Obj(fields: map<string, Value>)

  /** Python truthiness: None, False, 0, "", [] and {} are false. */
  predicate Truthy(v: Value)
  {
    match v
    case Null => false
    case Bool(b) => b
    case Num(x) => x != 0.0
    case Str(s) => s != ""
    case Arr(xs) => xs != []
    case Obj(m) => m != map[]
  }

  /** Values Python can put in a set or use as a dict key (lists and dicts cannot). */
  predicate Hashable(v: Value)
  {
    !v.Arr? && !v.Obj?
  }

  /** `d.get(key)`: the value under `key`, or None. */
  function Get(d: map<string, Value>, key: string): Value
  {
    GetOr(d, key, Null)
  }

  /** `d.get(key, default)`. */
  function GetOr(d: map<string, Value>, key: string, default: Value): Value
  {
    if key in d then d[key] else default
  }

  /** A value that is either falsy or a string: `v.replace(...)` or
      `v.startswith(...)` behind a truthiness test does not raise on it. */
  predicate TextOrFalsy(v: Value)
  {
    v.Str? || !Truthy(v)
  }
}
