/** The example sanitiser, which masks digits, and the decimal rendering of row counts. */
module Redaction {

  /** A decimal digit character. */
  predicate IsDigit(c: char)
  {
    '0' <= c <= '9'
  }

  /** `s` contains no digit character. */
  predicate NoDigits(s: string)
  {
    forall i :: 0 <= i < |s| ==> !IsDigit(s[i])
  }

  /** The character the sanitiser puts in place of `c`. */
  function Mask(c: char): char
  {
    if IsDigit(c) then '*' else c
  }

  /** `sanitizer`: replaces every digit of `s` with `*` and keeps every other character. */
  function Sanitizer(s: string): (r: string)
    ensures |r| == |s|
    ensures forall i :: 0 <= i < |s| ==> (IsDigit(s[i]) ==> r[i] == '*') && (!IsDigit(s[i]) ==> r[i] == s[i])
  {
    if s == [] then [] else [Mask(s[0])] + Sanitizer(s[1..])
  }

  /** The sanitiser's output never contains a digit. */
  lemma SanitizerRemovesDigits(s: string)
    ensures NoDigits(Sanitizer(s))
  {
  }

  /** On a string without digits the sanitiser is the identity. */
  lemma SanitizerFixesDigitFree(s: string)
    requires NoDigits(s)
    ensures Sanitizer(s) == s
  {
  }

  /** Applying the sanitiser twice is the same as applying it once. */
  lemma SanitizerIdempotent(s: string)
    ensures Sanitizer(Sanitizer(s)) == Sanitizer(s)
  {
    SanitizerRemovesDigits(s);
    SanitizerFixesDigitFree(Sanitizer(s));
  }

  /** The sanitiser works character by character, so it distributes over concatenation. */
  lemma {:induction false} SanitizerAppend(a: string, b: string)
    ensures Sanitizer(a + b) == Sanitizer(a) + Sanitizer(b)
  {
    if a != [] {
      assert (a + b)[1..] == a[1..] + b;
      SanitizerAppend(a[1..], b);
    }
  }

  /** The sanitiser commutes with taking a prefix. */
  lemma SanitizerPrefix(s: string, n: nat)
    requires n <= |s|
    ensures Sanitizer(s[..n]) == Sanitizer(s)[..n]
  {
  }

  /** The digit character for `d`. */
  function DigitChar(d: nat): (c: char)
    requires d < 10
    ensures IsDigit(c)
  {
    "0123456789"[d]
  }

  /** The value of a digit character. */
  function DigitValue(c: char): (d: nat)
    requires IsDigit(c)
    ensures d < 10
  {
    c as int - '0' as int
  }

  /** Python's `str(n)` for a non-negative integer: its decimal digits, no leading zero. */
  function Decimal(n: nat): (r: string)
    ensures |r| >= 1
    ensures forall i :: 0 <= i < |r| ==> IsDigit(r[i])
    ensures |r| > 1 ==> r[0] != '0'
  {
    if n < 10 then [DigitChar(n)] else Decimal(n / 10) + [DigitChar(n % 10)]
  }

  /** The number that a string of decimal digits denotes. */
  function ParseDecimal(s: string): nat
    requires forall i :: 0 <= i < |s| ==> IsDigit(s[i])
  {
    if s == [] then 0 else ParseDecimal(s[..|s| - 1]) * 10 + DigitValue(s[|s| - 1])
  }

  lemma DigitRoundTrip(d: nat)
    requires d < 10
    ensures DigitValue(DigitChar(d)) == d
  {
  }

  /** The decimal rendering of `n` denotes `n`: the row count can be read back. */
  lemma {:induction false} DecimalRoundTrip(n: nat)
    ensures ParseDecimal(Decimal(n)) == n
  {
    var r := Decimal(n);
    if n < 10 {
      DigitRoundTrip(n);
    } else {
      DecimalRoundTrip(n / 10);
      DigitRoundTrip(n % 10);
      assert r[..|r| - 1] == Decimal(n / 10);
    }
  }

  /** Distinct counts have distinct renderings. */
  lemma DecimalInjective(m: nat, n: nat)
    requires Decimal(m) == Decimal(n)
    ensures m == n
  {
    DecimalRoundTrip(m);
    DecimalRoundTrip(n);
  }
}
