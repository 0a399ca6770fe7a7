/**
 * The decoded webhook body as PHP sees it after `json_decode($raw, true)`,
 * and the handful of PHP operators the plugin applies to it: `??`, `isset`,
 * truthiness (`if ($x)`, `?:`, `empty`), string conversion, the `(float)`
 * cast and the operand of `* 100`.
 */
module Php {
  import opened Wrappers
  import opened Numbers

  /**
   * A decoded JSON value. Objects become PHP arrays with string keys, lists
   * become PHP arrays with integer keys; a JSON number with a fraction is a
   * float, kept exactly as m / 10^e.
   */
  datatype Value =
    | Null
    | Bool(b: bool)
    | Int(i: int)
    | Float(m: int, e: nat)
    | Str(s: string)
    | List(items: seq<Value>)
    | Dict(entries: map<string, Value>)

  /** The `[]` the plugin falls back to with `?? []`. */
  const EmptyArray: Value := List([])

  /**
   * `$v['key']`, read under `??` or `isset`: the entry when v is an object
   * that has it, and null otherwise (a missing key, or v not an array at all).
   */
  function Get(v: Value, key: string): Value {
    if v.Dict? && key in v.entries then v.entries[key] else Null
  }

  /** `$v ?? []` changes nothing about what a later key lookup reads. */
  lemma GetOrEmpty(v: Value, key: string)
    ensures Get(Coalesce(v, EmptyArray), key) == Get(v, key)
  {
  }

  /** `$a ?? $b`: a unless a is absent or null. */
  function Coalesce(a: Value, b: Value): Value {
    if a != Null then a else b
  }

  /** `isset($v)`. */
  predicate IsSet(v: Value) {
    v != Null
  }

  /** PHP's conversion to bool, used by `if`, `?:`, `||`, `&&` and `empty`. */
  predicate Truthy(v: Value) {
    match v
    case Null => false
    case Bool(b) => b
    case Int(i) => i != 0
    case Float(m, _) => m != 0
    case Str(s) => s != "" && s != "0"
    case List(items) => |items| > 0
    case Dict(entries) => |entries| > 0
  }

  /** PHP's conversion to string, used by `(string)`, `.` and `"{$v}"`. */
  function ToStr(v: Value): string {
    match v
    case Null => ""
    case Bool(b) => if b then "1" else ""
    case Int(i) => IntToStr(i)
    case Float(m, e) => FloatToStr(m, e)
    case Str(s) => s
    case List(_) => "Array"
    case Dict(_) => "Array"
  }

  /** A value that is truthy never prints as the empty string. */
  lemma TruthyPrintsSomething(v: Value)
    requires Truthy(v)
    ensures ToStr(v) != ""
  {
  }

  /** `(float)$v`, with the numeric value of a string read from its leading number. */
  function ToFloat(v: Value): real {
    match v
    case Null => 0.0
    case Bool(b) => if b then 1.0 else 0.0
    case Int(i) => i as real
    case Float(m, e) => RealOf(FloatNum(m, e))
    case Str(s) =>
      var n := LeadingNumber(s);
      if n.Some? then RealOf(n.value.0) else 0.0
    case List(items) => if |items| > 0 then 1.0 else 0.0
    case Dict(entries) => if |entries| > 0 then 1.0 else 0.0
  }

  /**
   * The number `$v * 100` multiplies, or None where PHP 8 throws a TypeError:
   * an array, or a string that does not start with a number.
   */
  function ArithmeticOperand(v: Value): Option<Number> {
    match v
    case Null => Some(IntNum(0))
    case Bool(b) => Some(IntNum(if b then 1 else 0))
    case Int(i) => Some(IntNum(i))
    case Float(m, e) => Some(FloatNum(m, e))
    case Str(s) =>
      var n := LeadingNumber(s);
      if n.Some? then Some(n.value.0) else None
    case List(_) => None
    case Dict(_) => None
  }
}
