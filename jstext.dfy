/** JavaScript strings, modelled as the sequences of UTF-16 code units that they are,
    and the decimal rendering of non-negative integers. */
module JsText {

  /** One UTF-16 code unit. */
  type CodeUnit = u: int | 0 <= u < 0x1_0000

  /** A JavaScript string value: `length`, `substring` and regular expressions
      all count and index code units. */
  type JsString = seq<CodeUnit>

  /** True when every character of `s` takes a single UTF-16 code unit. */
  ghost predicate InBmp(s: string)
  {
    forall i :: 0 <= i < |s| ==> s[i] as int < 0x1_0000
  }

  /** The JavaScript string that a source literal with the characters `s`
      denotes. Every literal the model uses (the media types, the field name,
      the object keys, and the messages and advice strings of the route) lies
      in the Basic Multilingual Plane, where each character is one code unit. */
  function Lit(s: string): (r: JsString)
    requires InBmp(s)
    ensures |r| == |s| && forall i :: 0 <= i < |s| ==> r[i] == s[i] as int
  {
    seq(|s|, i requires 0 <= i < |s| => s[i] as int)
  }

  const Zero: CodeUnit := '0' as int
  const Dash: CodeUnit := '-' as int
  const Slash: CodeUnit := '/' as int

  predicate IsDigit(u: CodeUnit)
  {
    Zero <= u <= Zero + 9
  }

  predicate AllDigits(s: JsString)
  {
    forall i :: 0 <= i < |s| ==> IsDigit(s[i])
  }

  /** The number a string of decimal digits spells. */
  function DigitsValue(s: JsString): nat
    requires AllDigits(s)
  {
    if s == [] then 0 else DigitsValue(s[..|s| - 1]) * 10 + (s[|s| - 1] - Zero)
  }

  /** `String(n)` for a non-negative integer `n`: its decimal digits, without
      leading zeros. */
  function Decimal(n: nat): (r: JsString)
    ensures |r| >= 1 && AllDigits(r)
    ensures |r| > 1 ==> r[0] != Zero
    ensures DigitsValue(r) == n
  {
    if n < 10 then [Zero + n]
    else
      var front := Decimal(n / 10);
      var r := front + [Zero + n % 10];
      assert r[..|r| - 1] == front;
      r
  }
}
