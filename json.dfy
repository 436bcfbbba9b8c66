/** JSON values as the library sees them after `response.json()`, with the
    two pieces of Python semantics the library leans on: truthiness and `==`. */
module Json {

  datatype Option<+T> = None | Some(value: T)

  /** The exceptions the modelled code can raise. */
  datatype Error =
    | KeyError(key: string)          // `d[key]` on a missing key
    | AttributeError                 // `.items()` on a value that is not a dict
    | AssertionError                 // a failed `assert`
    | UpdateFailed(nukiId: Value)    // NukiUpdateException

  datatype Result<+T> = Ok(value: T) | Err(error: Error)

  /** What a method that returns nothing (or raises) did. */
  datatype Outcome = Pass | Fail(error: Error)

  /** A decoded JSON value. Floats and arrays never occur in the fields the
      library interprets and are not represented. */
  datatype Value =
    | Null
    | Bool(b: bool)
    | Int(i: int)
    | Str(s: string)
    | Obj(fields: map<string, Value>)

  /** A Python dict decoded from a JSON object; key order is not modelled. */
  type Record = map<string, Value>

  /** Python truthiness: None, False, 0, "" and {} are false. */
  predicate Truthy(v: Value)
  {
    match v
    case Null => false
    case Bool(b) => b
    case Int(i) => i != 0
    case Str(s) => s != ""
    case Obj(m) => |m| != 0
  }

  /** The number a bool or an int stands for in a Python comparison. */
  function Numeric(v: Value): Option<int>
  {
    match v
    case Bool(b) => Some(if b then 1 else 0)
    case Int(i) => Some(i)
    case _ => None
  }

  /** Python `==` on decoded JSON scalars: a bool equals the int it stands
      for (`False == 0`, `True == 1`); everything else compares
      structurally. Inside objects the comparison stays structural, so
      `{"a": True}` and `{"a": 1}` differ here although Python calls them
      equal; the model only compares scalar fields. */
  predicate PyEq(a: Value, b: Value)
  {
    if Numeric(a).Some? && Numeric(b).Some? then Numeric(a).value == Numeric(b).value
    else a == b
  }

  lemma PyEqIsEquivalence(a: Value, b: Value, c: Value)
    ensures PyEq(a, a)
    ensures PyEq(a, b) ==> PyEq(b, a)
    ensures PyEq(a, b) && PyEq(b, c) ==> PyEq(a, c)
    ensures PyEq(a, b) ==> (Truthy(a) <==> Truthy(b))
  {
  }

  /** `d.get(key, default)`. */
  function GetOr(d: Record, key: string, default: Value): Value
  {
    if key in d then d[key] else default
  }

  /** `d.get(key)`: None when the key is missing. */
  function Get(d: Record, key: string): Value
  {
    GetOr(d, key, Null)
  }

  /** `{k: v for k, v in d.items() if k not in [key]}`. */
  function Without(d: Record, key: string): (r: Record)
    ensures r.Keys == d.Keys - {key}
    ensures forall k :: k in r ==> r[k] == d[k]
  {
    d - {key}
  }
}
