/** Loosely typed JSON-like data as the collector and indexer handle it:
    observations, API payloads and configuration are Python dicts and lists.
    Python exceptions become the `Err` arm of `Result`. */
module Values {

  datatype Option<+T> = None | Some(value: T) {
    function GetOr(default: T): T {
      match this
      case Some(v) => v
      case None => default
    }
  }

  /** The Python exceptions the modelled code can raise. */
  datatype Exc =
    | KeyError(key: string)
    | TypeError
    | AttributeError
    | ValueError
    | ZeroDivisionError
    | FileNotFound
    | CollectionError(date: string)

  datatype Result<+T> = Ok(value: T) | Err(exc: Exc)

  /** A JSON/YAML value as Python holds it after loading. */
  datatype Value =
    | Null
    | Bool(b: bool)
    | Int(i: int)
    | Float(r: real)
    | Str(s: string)
    | Arr(items: seq<Value>)
    | Obj(fields: map<string, Value>)

  /** A dict with string keys, such as one observation. */
  type Obs = map<string, Value>

  /** `o.get(key)`: the value stored under `key`, if any. */
  function Get(o: Obs, key: string): (r: Option<Value>)
    ensures r.Some? <==> key in o
    ensures r.Some? ==> r.value == o[key]
  {
    if key in o then Some(o[key]) else None
  }

  /** `o.get(key, default)`. */
  function GetOr(o: Obs, key: string, default: Value): (r: Value)
    ensures key in o ==> r == o[key]
    ensures key !in o ==> r == default
  {
    if key in o then o[key] else default
  }

  /** Python truthiness of a value. */
  predicate Truthy(v: Value) {
    match v
    case Null => false
    case Bool(b) => b
    case Int(i) => i != 0
    case Float(r) => r != 0.0
    case Str(s) => s != ""
    case Arr(xs) => xs != []
    case Obj(m) => m != map[]
  }

  /** The value as a Python number (bool, int or float), if it is one. */
  function AsNumber(v: Value): (r: Option<real>)
    ensures r.Some? <==> (v.Bool? || v.Int? || v.Float?)
  {
    match v
    case Bool(b) => Some(if b then 1.0 else 0.0)
    case Int(i) => Some(i as real)
    case Float(r) => Some(r)
    case _ => None
  }

  /** Python's `v == 0`: true for every numeric zero, including `False`. */
  predicate EqualsZero(v: Value) {
    AsNumber(v) == Some(0.0)
  }

  /** `str(v)` as an f-string renders a value; `repr` renders numbers and
      containers, whose text the model does not interpret. */
  function Show(v: Value, repr: Value -> string): string {
    match v
    case Null => "None"
    case Bool(b) => if b then "True" else "False"
    case Str(s) => s
    case _ => repr(v)
  }

  /** `str(o.get(key))`. */
  function ShowField(o: Obs, key: string, repr: Value -> string): string {
    if key in o then Show(o[key], repr) else "None"
  }
}
