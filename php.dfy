/**
 * The slice of PHP's value model that the post-type builder touches:
 * scalars, packed lists, string-keyed arrays, `empty()` and `array_merge`.
 */
module Php {

  /** A PHP value. `List` is a packed (0..n-1 keyed) array, `Dict` an array with string keys. */
  datatype Value =
    | Null
    | Bool(b: bool)
    | Int(i: int)
    | Str(s: string)
    | List(items: seq<Value>)
    | Dict(entries: map<string, Value>)

  /** A PHP array whose keys are all (non-numeric) strings. */
  type Array = map<string, Value>

  /** PHP's `empty($v)`: the value converts to `false`. */
  predicate IsEmpty(v: Value)
  {
    match v
    case Null => true
    case Bool(b) => !b
    case Int(i) => i == 0
    case Str(s) => s == "" || s == "0"
    case List(items) => |items| == 0
    case Dict(entries) => |entries| == 0
  }

  /** PHP's `empty($a[$k])`: a missing key is empty too (and raises no notice). */
  predicate IsEmptyAt(a: Array, k: string)
  {
    k !in a || IsEmpty(a[k])
  }

  /** `array_merge($base, $over)` restricted to string keys: the later array wins on every shared key. */
  function ArrayMerge(base: Array, over: Array): Array
  {
    base + over
  }
}
