/** ASCII string helpers for the popup's string derivations. A `char` is
    a Unicode scalar value; on the Basic Multilingual Plane it matches one
    UTF-16 code unit of the JavaScript string. */
module Text {
  import opened Favicon

  predicate IsUpper(c: char) { 'A' <= c <= 'Z' }
  predicate IsLower(c: char) { 'a' <= c <= 'z' }
  predicate IsDigit(c: char) { '0' <= c <= '9' }
  predicate IsAlnum(c: char) { IsUpper(c) || IsLower(c) || IsDigit(c) }

  function LowerChar(c: char): char
  {
    if IsUpper(c) then (c as int + 32) as char else c
  }

  function UpperChar(c: char): char
  {
    if IsLower(c) then (c as int - 32) as char else c
  }

  /** `toLowerCase` restricted to ASCII letters. */
  function ToLower(s: String): (r: String)
    ensures |r| == |s|
    ensures forall i :: 0 <= i < |s| ==> r[i] == LowerChar(s[i])
  {
    seq(|s|, i requires 0 <= i < |s| => LowerChar(s[i]))
  }

  /** `toUpperCase` restricted to ASCII letters. */
  function ToUpper(s: String): (r: String)
    ensures |r| == |s|
    ensures forall i :: 0 <= i < |s| ==> r[i] == UpperChar(s[i])
  {
    seq(|s|, i requires 0 <= i < |s| => UpperChar(s[i]))
  }

  /** ASCII case-insensitive suffix test, as a `/…$/i` pattern performs it. */
  predicate EndsWithIgnoringCase(s: String, suffix: String)
  {
    |suffix| <= |s| && ToLower(s[|s| - |suffix|..]) == ToLower(suffix)
  }

  /** The text before the first `c` (all of `s` when there is none). */
  function TakeUntil(s: String, c: char): (r: String)
    ensures r <= s
    ensures c !in r
    ensures |r| < |s| ==> s[|r|] == c
  {
    if s == [] || s[0] == c then [] else [s[0]] + TakeUntil(s[1..], c)
  }

  /** The text after the last `c` (all of `s` when there is none): the last
      element of `s.split(c)`. */
  function AfterLast(s: String, c: char): (r: String)
    ensures |r| <= |s| && r == s[|s| - |r|..]
    ensures c !in r
    ensures |r| < |s| ==> s[|s| - |r| - 1] == c
  {
    if s == [] || s[|s| - 1] == c then [] else AfterLast(s[..|s| - 1], c) + [s[|s| - 1]]
  }

  /** Element 1 of `s.split(c)`: the text between the first and the second
      `c`, or None when `s` holds no `c`. */
  function SecondField(s: String, c: char): (r: Option<String>)
  {
    if c !in s then None
    else
      var head := TakeUntil(s, c);
      Some(TakeUntil(s[|head| + 1..], c))
  }

  function DigitChar(d: nat): char
    requires d < 10
  {
    ('0' as int + d) as char
  }

  /** The decimal rendering of `n`, as a template literal prints it. */
  function NatToString(n: nat): (r: String)
    ensures r != []
    ensures forall i :: 0 <= i < |r| ==> IsDigit(r[i])
  {
    if n < 10 then [DigitChar(n)] else NatToString(n / 10) + [DigitChar(n % 10)]
  }

  /** Reads a string of decimal digits back as a number. */
  function DigitsValue(s: String): nat
    requires forall i :: 0 <= i < |s| ==> IsDigit(s[i])
  {
    if s == [] then 0
    else
      assert IsDigit(s[|s| - 1]);
      DigitsValue(s[..|s| - 1]) * 10 + (s[|s| - 1] as int - '0' as int)
  }

  /** The decimal rendering reads back as the number it renders. */
  lemma {:induction false} NatToStringRoundTrip(n: nat)
    ensures DigitsValue(NatToString(n)) == n
  {
    var r := NatToString(n);
    if n >= 10 {
      NatToStringRoundTrip(n / 10);
      assert r[..|r| - 1] == NatToString(n / 10);
    }
  }

  /** A matching suffix determines the suffix: `s` ends with `x` and with
      `y` ignoring case only if `x`, `y` agree on their common length. */
  lemma SuffixesAgree(s: String, x: String, y: String)
    requires EndsWithIgnoringCase(s, x) && EndsWithIgnoringCase(s, y)
    requires |x| <= |y|
    ensures ToLower(x) == ToLower(y[|y| - |x|..])
  {
  }
}
