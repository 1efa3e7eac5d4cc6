/**
 * PHP values as they appear in the asset-source settings (decoded YAML) and
 * in a few loosely typed response fields, with the conversions the plugin
 * applies to them: `isset`, `(bool)`, `(string)` and loose `==` against an
 * integer.
 */
module PhpValues {
  import opened Wrappers
  import opened PhpStrings

  /** A PHP value; an array is an ordered sequence of entries with string keys. */
  datatype Value =
    | Null
    | Bool(b: bool)
    | Int(i: int)
    | Str(s: string)
    | Arr(entries: seq<(string, Value)>)

  /** `$array[$key]` on an array with distinct keys: the first entry with that key. */
  function Lookup(entries: seq<(string, Value)>, key: string): (r: Option<Value>)
    ensures r.Some? <==> exists i :: 0 <= i < |entries| && entries[i].0 == key
    ensures r.Some? ==> (key, r.value) in entries
  {
    if |entries| == 0 then None
    else if entries[0].0 == key then Some(entries[0].1)
    else
      var r := Lookup(entries[1..], key);
      assert entries == [entries[0]] + entries[1..];
      r
  }

  /** `isset($array[$key])`: the key is there and its value is not null. */
  predicate IsSet(entries: seq<(string, Value)>, key: string) {
    Lookup(entries, key).Some? && Lookup(entries, key).value != Null
  }

  /** `(bool)$v`. */
  function ToBool(v: Value): bool {
    match v
    case Null => false
    case Bool(b) => b
    case Int(i) => i != 0
    case Str(s) => !IsEmptyString(s)
    case Arr(entries) => |entries| > 0
  }

  /** `(string)$v`; an array converts to "Array" (PHP also emits a warning). */
  function ToText(v: Value): string {
    match v
    case Null => ""
    case Bool(b) => if b then "1" else ""
    case Int(i) => IntToString(i)
    case Str(s) => s
    case Arr(_) => "Array"
  }

  /**
   * `$v == $n` for a non-zero integer `n` (PHP 8 loose comparison): an integer
   * compares by value, a numeric string by its value (a non-numeric one as
   * text, which never matches the decimal text of `n`), a boolean against
   * `(bool)$n`, which is true.
   */
  predicate LooselyEqualsNonZero(v: Value, n: int)
    requires n != 0
  {
    match v
    case Null => false
    case Bool(b) => b
    case Int(i) => i == n
    case Str(s) => IntegerStringValue(s) == Some(n)
    case Arr(_) => false
  }
}
