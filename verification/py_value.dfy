/** The Python values the bot handles: what `Response.json()` decodes a body
    into, and the few built-in operations the bot applies to them
    (truth value, `or`, `v[0]`, `v[key]`, `v.get(key)`, `str(v)`). */
module PyValue {
  import opened Wrappers

  /** A value as Python's `json` module decodes it. Objects become `dict`s
      keyed by strings; JSON numbers are modelled as integers only. */
  datatype Value =
    | Null
    | Bool(b: bool)
    | Int(i: int)
    | Str(s: string)
    | List(items: seq<Value>)
    | Dict(entries: map<string, Value>)

  /** The built-in exceptions raised by subscripting and attribute lookup. */
  datatype PyError =
    | KeyError(key: Value)
    | IndexError
    | TypeError
    | AttributeError

  /** Python's truth value: `None`, `False`, `0` and empty containers are false. */
  predicate Truthy(v: Value) {
    match v
    case Null => false
    case Bool(b) => b
    case Int(i) => i != 0
    case Str(s) => |s| > 0
    case List(items) => |items| > 0
    case Dict(entries) => |entries| > 0
  }

  /** `a or b`: the first operand when it is true, the second otherwise. */
  function Or(a: Value, b: Value): Value {
    if Truthy(a) then a else b
  }

  /** `v[0]`: the first element of a list or the first character of a string.
      A `dict` decoded from JSON has only string keys, so `0` is never one. */
  function First(v: Value): Result<Value, PyError> {
    match v
    case List(items) => if |items| == 0 then Failure(IndexError) else Success(items[0])
    case Str(s) => if |s| == 0 then Failure(IndexError) else Success(Str([s[0]]))
    case Dict(_) => Failure(KeyError(Int(0)))
    case _ => Failure(TypeError)
  }

  /** `v[key]` with a string key: only a `dict` accepts one. */
  function Item(v: Value, key: string): Result<Value, PyError> {
    match v
    case Dict(entries) => if key in entries then Success(entries[key]) else Failure(KeyError(Str(key)))
    case _ => Failure(TypeError)
  }

  /** `v.get(key)`: `None` for an absent key; only a `dict` has the method. */
  function Get(v: Value, key: string): Result<Value, PyError> {
    match v
    case Dict(entries) => if key in entries then Success(entries[key]) else Success(Null)
    case _ => Failure(AttributeError)
  }

  /** `str(v)` as an f-string renders it. Lists and dicts get a placeholder. */
  function ToStr(v: Value): string {
    match v
    case Null => "None"
    case Bool(b) => if b then "True" else "False"
    case Int(i) => IntToStr(i)
    case Str(s) => s
    case List(_) => "[...]"
    case Dict(_) => "{...}"
  }

  /** Decimal notation of an integer, with a leading `-` when negative. */
  function IntToStr(i: int): string {
    if i < 0 then "-" + NatToStr(-i) else NatToStr(i)
  }

  function NatToStr(n: nat): string
    decreases n
  {
    if n < 10 then [Digit(n)] else NatToStr(n / 10) + [Digit(n % 10)]
  }

  function Digit(d: nat): char
    requires d < 10
  {
    "0123456789"[d]
  }
}
