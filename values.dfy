/** Decoded JSON values as the Python handlers see them, with the two pieces of
    Python semantics the handlers depend on: truthiness (`if not username`) and
    `dict.get` with and without a default. */
module Values {

  /** A value produced by `json.loads`: `null`, booleans, integers, strings,
      arrays and objects (floating-point numbers are not modelled). */
  datatype Value =
    | Null
    | Bool(b: bool)
    | Int(i: int)
    | Str(s: string)
    | List(items: seq<Value>)
    | Dict(entries: map<string, Value>)

  /** Python truthiness: `None`, `False`, `0`, `""`, `[]` and `{}` are false,
      everything else is true. */
  predicate Truthy(v: Value)
    ensures !Truthy(v) <==>
      v == Null || v == Bool(false) || v == Int(0) || v == Str("") || v == List([]) || v == Dict(map[])
  {
    match v
    case Null => false
    case Bool(b) => b
    case Int(i) => i != 0
    case Str(s) => |s| > 0
    case List(xs) => |xs| > 0
    case Dict(m) => assert |m| == 0 ==> m == map[]; |m| > 0
  }

  /** `request.get(key, default)`: the stored value when the key is present
      (even when it is `null`), otherwise the default. */
  function GetOr(request: map<string, Value>, key: string, default: Value): (v: Value)
    ensures key in request ==> v == request[key]
    ensures key !in request ==> v == default
  {
    if key in request then request[key] else default
  }

  /** `request.get(key)`: the default of `dict.get` is `None`. */
  function Get(request: map<string, Value>, key: string): (v: Value)
    ensures key in request ==> v == request[key]
    ensures key !in request ==> v == Null
  {
    GetOr(request, key, Null)
  }

  /** The name Python gives the type of a decoded value, as it appears in
      `AttributeError` messages. */
  function TypeName(v: Value): string
  {
    match v
    case Null => "NoneType"
    case Bool(_) => "bool"
    case Int(_) => "int"
    case Str(_) => "str"
    case List(_) => "list"
    case Dict(_) => "dict"
  }

  /** `str(e)` of the `AttributeError` raised by `v.get(...)` when the decoded
      request is not an object. */
  function NoGetError(v: Value): (msg: string)
    requires !v.Dict?
    ensures |msg| > |TypeName(v)| + 1 && msg[0] == '\'' && msg[1..|TypeName(v)| + 1] == TypeName(v)
    ensures msg[|TypeName(v)| + 1..] == "' object has no attribute 'get'"
  {
    "'" + TypeName(v) + "' object has no attribute 'get'"
  }
}
