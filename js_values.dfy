/**
 * The few JavaScript value semantics the client's decisions depend on:
 * truthiness of optional strings and booleans, `String.prototype.toLowerCase`
 * on ASCII text, template-literal rendering of `undefined` and of numbers.
 */
module JsValues {
  import opened Wrappers

  /** `if (s)` for a value that is a string or `undefined`: only a non-empty string is truthy. */
  predicate Truthy(s: Option<string>) {
    s.Some? && s.value != ""
  }

  /** `if (b)` for a value that is a boolean or `undefined`. */
  predicate TruthyBool(b: Option<bool>) {
    b == Some(true)
  }

  /** `${s}` for a value that is a string or `undefined`. */
  function Show(s: Option<string>): (r: string)
    ensures s.Some? ==> r == s.value
    ensures s.None? ==> r == "undefined"
  {
    if s.Some? then s.value else "undefined"
  }

  function LowerChar(c: char): char {
    if 'A' <= c <= 'Z' then (c as int - 'A' as int + 'a' as int) as char else c
  }

  /** `s.toLowerCase()` restricted to ASCII letters. */
  function Lower(s: string): (r: string)
    ensures |r| == |s|
    ensures forall i :: 0 <= i < |s| ==> r[i] == LowerChar(s[i])
  {
    if s == [] then [] else [LowerChar(s[0])] + Lower(s[1..])
  }

  function DigitChar(d: nat): char
    requires d < 10
  {
    ("0123456789")[d]
  }

  /** The decimal digits of a natural number, as `${n}` prints them. */
  function NatToString(n: nat): (r: string)
    ensures |r| >= 1
    ensures forall i :: 0 <= i < |r| ==> '0' <= r[i] <= '9'
  {
    if n < 10 then [DigitChar(n)] else NatToString(n / 10) + [DigitChar(n % 10)]
  }

  /** `${n}` for an integer. */
  function IntToString(n: int): string {
    if n < 0 then "-" + NatToString(-n) else NatToString(n)
  }
}
