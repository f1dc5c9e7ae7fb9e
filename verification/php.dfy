/** The few PHP values and built-ins the listener relies on. */
module Php {

  /** A value that may be missing: PHP's `null` or an unset array key. */
  datatype Option<T> = None | Some(value: T)

  /** A scalar stored in a Doctrine mapping array: a string, or the boolean
      an `&&` expression evaluates to. */
  datatype Scalar = Str(s: string) | Bool(b: bool)

  /** PHP truthiness of a string-or-null value: `null`, `""` and `"0"` are false. */
  predicate Truthy(v: Option<string>)
  {
    v.Some? && v.value != "" && v.value != "0"
  }

  /** `strtolower` on ASCII letters; every other character is kept. */
  function LowerChar(c: char): char
  {
    if 'A' <= c <= 'Z' then (c as int + 32) as char else c
  }

  function StrToLower(s: string): (r: string)
    ensures |r| == |s|
    ensures forall i :: 0 <= i < |s| ==> r[i] == LowerChar(s[i])
  {
    if s == [] then [] else [LowerChar(s[0])] + StrToLower(s[1..])
  }
}
