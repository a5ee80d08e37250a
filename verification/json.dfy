/** A decoded JSON document, as `aiohttp`'s `resp.json()` hands it to Python,
    together with the few Python operators the agent applies to it. JSON
    numbers are integers here: floating point is not modelled. */
module Json {
  import opened Wrappers

  datatype Value =
    | Null
    | Bool(b: bool)
    | Num(n: int)
    | Str(s: string)
    | Arr(items: seq<Value>)
    | Obj(fields: map<string, Value>)

  /** The exceptions the agent's code can raise; every caller catches them
      all alike, through `except Exception`. */
  datatype PyError =
    | CallFailed        // the transport call raised (client error, timeout, undecodable body)
    | InvalidResponse   // `valid_resp` rejected the body
    | TypeErr           // an operator applied to a value of the wrong type
    | KeyErr            // `d[k]` with `k` missing
    | AttributeErr      // `.get` on a value that is not a dict

  /** Python truthiness: `None`, `False`, `0` and empty containers are false. */
  predicate Truthy(v: Value) {
    match v
    case Null => false
    case Bool(b) => b
    case Num(n) => n != 0
    case Str(s) => s != ""
    case Arr(xs) => xs != []
    case Obj(m) => m != map[]
  }

  /** `p` occurs as a contiguous piece of `s` (Python's `p in s` on strings). */
  predicate IsInfix(p: string, s: string)
    decreases |s|
  {
    if |s| < |p| then false
    else s[..|p|] == p || (|s| > 0 && IsInfix(p, s[1..]))
  }

  /** Python's `k in v` for a string `k`: key membership on a dict, element
      membership on a list, substring on a string; numbers, booleans and
      `None` are not iterable. */
  function Contains(v: Value, k: string): (r: Result<bool, PyError>)
    ensures v.Obj? ==> r == Success(k in v.fields)
    ensures v.Arr? ==> r == Success(Str(k) in v.items)
    ensures v.Str? ==> r == Success(IsInfix(k, v.s))
    ensures !(v.Obj? || v.Arr? || v.Str?) ==> r == Failure(TypeErr)
  {
    match v
    case Obj(m) => Success(k in m)
    case Arr(xs) => Success(Str(k) in xs)
    case Str(s) => Success(IsInfix(k, s))
    case _ => Failure(TypeErr)
  }

  /** Python's `v[k]` for a string `k`: only a dict holding `k` answers. */
  function Subscript(v: Value, k: string): (r: Result<Value, PyError>)
    ensures r.Success? <==> v.Obj? && k in v.fields
    ensures r.Success? ==> r.value == v.fields[k]
  {
    match v
    case Obj(m) => if k in m then Success(m[k]) else Failure(KeyErr)
    case _ => Failure(TypeErr)
  }

  /** The integer Python sees in a number or a boolean (`True == 1`). */
  function AsInt(v: Value): Option<int> {
    match v
    case Num(n) => Some(n)
    case Bool(b) => Some(if b then 1 else 0)
    case _ => None
  }

  /** Python's `v < n`: comparing anything but a number or a boolean with an
      integer raises `TypeError`. */
  function LessThan(v: Value, n: int): (r: Result<bool, PyError>)
    ensures r.Success? <==> v.Num? || v.Bool?
  {
    match AsInt(v)
    case Some(x) => Success(x < n)
    case None => Failure(TypeErr)
  }

  /** Python's `v == n`: never raises, and is false across types. */
  predicate EqualsInt(v: Value, n: int) {
    AsInt(v) == Some(n)
  }

  /** `d.get(k)`: the value at `k`, or `None` when `k` is missing. */
  function Get(m: map<string, Value>, k: string): Value {
    if k in m then m[k] else Null
  }
}
