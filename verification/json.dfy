/** Values produced by decoding a JSON document, together with the parts of
    Python's object semantics the bot relies on: `bool()`, `==`, `str()`,
    `type()`, hashability and subscription by a string key. */
module Json {
  import opened Wrappers

  datatype Value =
    | Null
    | Bool(b: bool)
    | Int(i: int)
    | Str(s: string)
    | List(items: seq<Value>)
    | Dict(fields: map<string, Value>)

  /** The class name Python reports for the value. */
  function TypeName(v: Value): string {
    match v
    case Null => "NoneType"
    case Bool(_) => "bool"
    case Int(_) => "int"
    case Str(_) => "str"
    case List(_) => "list"
    case Dict(_) => "dict"
  }

  /** `bool(v)`: None, False, 0, the empty string and empty containers are falsy. */
  predicate Truthy(v: Value) {
    match v
    case Null => false
    case Bool(b) => b
    case Int(i) => i != 0
    case Str(s) => s != ""
    case List(items) => items != []
    case Dict(fields) => fields != map[]
  }

  /** Lists and dicts cannot be used as dictionary keys. */
  predicate Hashable(v: Value) {
    !v.List? && !v.Dict?
  }

  /** `bool` is a subclass of `int`: True counts as 1 and False as 0. */
  function Numeric(v: Value): int
    requires v.Bool? || v.Int?
  {
    if v.Int? then v.i else if v.b then 1 else 0
  }

  /** Python's `a == b` on decoded JSON values; note that `True == 1` and `False == 0`. */
  predicate PyEq(a: Value, b: Value) {
    if (a.Bool? || a.Int?) && (b.Bool? || b.Int?) then
      Numeric(a) == Numeric(b)
    else
      match (a, b)
      case (Null, Null) => true
      case (Str(x), Str(y)) => x == y
      case (List(xs), List(ys)) =>
        |xs| == |ys| && forall k :: 0 <= k < |xs| ==> PyEq(xs[k], ys[k])
      case (Dict(m), Dict(n)) =>
        m.Keys == n.Keys && forall key :: key in m ==> PyEq(m[key], n[key])
      case _ => false
  }

  /** Every modelled value is equal to itself: no floats are modelled, so there is no NaN. */
  lemma {:induction false} PyEqReflexive(v: Value)
    ensures PyEq(v, v)
  {
    match v
    case List(xs) =>
      forall k | 0 <= k < |xs|
        ensures PyEq(xs[k], xs[k])
      {
        PyEqReflexive(xs[k]);
      }
    case Dict(m) =>
      forall key | key in m
        ensures PyEq(m[key], m[key])
      {
        PyEqReflexive(m[key]);
      }
    case _ =>
  }

  /** `v[key]` for a string key: the entry of a dict, or None when the key is
      absent (KeyError) or `v` is not a dict (TypeError). */
  function Get(v: Value, key: string): Option<Value> {
    if v.Dict? && key in v.fields then Some(v.fields[key]) else None
  }

  /** `str(v)`. Containers are rendered as a placeholder. */
  function Show(v: Value): string {
    match v
    case Null => "None"
    case Bool(b) => if b then "True" else "False"
    case Int(i) => if i < 0 then "-" + Decimal(-i) else Decimal(i)
    case Str(s) => s
    case List(_) => "[...]"
    case Dict(_) => "{...}"
  }

  /** The decimal digits of `n`, most significant first. */
  function Decimal(n: nat): string
    decreases n
  {
    if n < 10 then ["0123456789"[n]] else Decimal(n / 10) + ["0123456789"[n % 10]]
  }
}
