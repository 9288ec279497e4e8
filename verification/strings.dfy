/** The handful of JavaScript string operations the application relies on:
    `trim`, `startsWith`, `split(sep)[0]`, `Number.prototype.toString` and
    `padStart`. A `char` here is a Unicode scalar value, not a UTF-16 code
    unit; no modelled rule depends on the difference, since every length
    test in the application only asks whether a string is non-empty. */
module Strings {

  /** The characters `String.prototype.trim` removes: the ECMAScript
      WhiteSpace and LineTerminator code points. */
  predicate IsSpace(c: char) {
    || c == ' ' || c == '\t' || c == '\n' || c == '\r'
    || c == '\U{000B}' || c == '\U{000C}' || c == '\U{00A0}' || c == '\U{1680}'
    || ('\U{2000}' <= c <= '\U{200A}')
    || c == '\U{2028}' || c == '\U{2029}' || c == '\U{202F}' || c == '\U{205F}'
    || c == '\U{3000}' || c == '\U{FEFF}'
  }

  /** A string made only of whitespace (the empty string included). */
  predicate IsBlank(s: string) {
    forall i :: 0 <= i < |s| ==> IsSpace(s[i])
  }

  /** How many whitespace characters `s` starts with. */
  function LeadingBlanks(s: string): (n: nat)
    ensures n <= |s| && IsBlank(s[..n])
    ensures n == |s| || !IsSpace(s[n])
  {
    if |s| > 0 && IsSpace(s[0]) then
      var m := LeadingBlanks(s[1..]);
      assert s[..m + 1] == [s[0]] + s[1..][..m];
      m + 1
    else 0
  }

  /** How many whitespace characters `s` ends with. */
  function TrailingBlanks(s: string): (n: nat)
    ensures n <= |s| && IsBlank(s[|s| - n..])
    ensures n == |s| || !IsSpace(s[|s| - n - 1])
  {
    if |s| > 0 && IsSpace(s[|s| - 1]) then
      var p := s[..|s| - 1];
      var m := TrailingBlanks(p);
      forall i | |s| - (m + 1) <= i < |s| - 1
        ensures IsSpace(s[i])
      {
        assert s[i] == p[|p| - m..][i - (|p| - m)];
      }
      assert m + 1 < |s| ==> s[|s| - (m + 1) - 1] == p[|p| - m - 1];
      m + 1
    else 0
  }

  /** `s.trimStart()`: drops leading whitespace. */
  function TrimStart(s: string): (r: string)
    ensures |r| <= |s| && r == s[|s| - |r|..]
    ensures IsBlank(s[..|s| - |r|])
    ensures r == [] || !IsSpace(r[0])
    ensures r == [] <==> IsBlank(s)
  {
    var n := LeadingBlanks(s);
    assert n < |s| ==> !IsBlank(s);
    s[n..]
  }

  /** `s.trimEnd()`: drops trailing whitespace. */
  function TrimEnd(s: string): (r: string)
    ensures |r| <= |s| && r == s[..|r|]
    ensures IsBlank(s[|r|..])
    ensures r == [] || !IsSpace(r[|r| - 1])
    ensures r == [] <==> IsBlank(s)
  {
    var n := TrailingBlanks(s);
    assert n < |s| ==> !IsBlank(s);
    s[..|s| - n]
  }

  /** `s.trim()`. */
  function Trim(s: string): string {
    TrimEnd(TrimStart(s))
  }

  /** `!s.trim()` holds exactly when `s` is blank: every guard written with
      `trim()` in the application is a blankness test. */
  lemma TrimEmptyIffBlank(s: string)
    ensures Trim(s) == [] <==> IsBlank(s)
  {
    var u := TrimStart(s);
    assert IsBlank(u) <==> u == [] by {
      if u != [] {
        assert !IsSpace(u[0]);
      }
    }
  }

  /** `s.startsWith(p)`. */
  predicate StartsWith(s: string, p: string) {
    |p| <= |s| && s[..|p|] == p
  }

  /** `s.split(sep)[0]`: the part of `s` before the first `sep` (all of `s`
      when `sep` does not occur). */
  function BeforeFirst(s: string, sep: char): (r: string)
    ensures StartsWith(s, r)
    ensures sep !in r
    ensures |r| == |s| || s[|r|] == sep
  {
    if |s| == 0 || s[0] == sep then []
    else [s[0]] + BeforeFirst(s[1..], sep)
  }

  /** The character for a decimal digit. */
  function DigitChar(d: nat): (c: char)
    requires d < 10
    ensures '0' <= c <= '9'
  {
    "0123456789"[d]
  }

  /** The value of a decimal digit character. */
  function DigitValue(c: char): (d: nat)
    requires '0' <= c <= '9'
    ensures d < 10
  {
    (c as int - '0' as int) as nat
  }

  lemma DigitRoundTrip(d: nat)
    requires d < 10
    ensures DigitValue(DigitChar(d)) == d
  {
  }

  predicate AllDigits(s: string) {
    forall i :: 0 <= i < |s| ==> '0' <= s[i] <= '9'
  }

  /** `n.toString()` for a non-negative integer: no leading zeros. */
  function NatString(n: nat): (r: string)
    ensures |r| >= 1 && AllDigits(r)
    ensures |r| > 1 ==> r[0] != '0'
  {
    if n < 10 then [DigitChar(n)]
    else NatString(n / 10) + [DigitChar(n % 10)]
  }

  /** `n.toString()` for any integer. */
  function IntString(n: int): (r: string)
    ensures |r| >= 1
  {
    if n < 0 then "-" + NatString(-n) else NatString(n)
  }

  /** The value of a string of decimal digits, most significant first. */
  function ParseNat(s: string): nat
    requires AllDigits(s)
  {
    if |s| == 0 then 0
    else ParseNat(s[..|s| - 1]) * 10 + DigitValue(s[|s| - 1])
  }

  /** Reading back what `toString` printed gives the number. */
  lemma {:induction false} ParseNatString(n: nat)
    ensures ParseNat(NatString(n)) == n
  {
    var s := NatString(n);
    if n >= 10 {
      assert s[..|s| - 1] == NatString(n / 10);
      ParseNatString(n / 10);
      DigitRoundTrip(n % 10);
    } else {
      DigitRoundTrip(n);
    }
  }

  /** The number of characters `toString` prints for a four-digit number. */
  lemma NatStringFourDigits(n: nat)
    requires 1000 <= n <= 9999
    ensures |NatString(n)| == 4
  {
    assert |NatString(n / 1000)| == 1;
    assert |NatString(n / 100)| == 2;
    assert |NatString(n / 10)| == 3;
  }

  /** `s.padStart(width, fill)` for a one-character `fill`. */
  function PadStart(s: string, width: nat, fill: char): (r: string)
    ensures |r| == if |s| >= width then |s| else width
    ensures r[|r| - |s|..] == s
    ensures forall i :: 0 <= i < |r| - |s| ==> r[i] == fill
  {
    if |s| >= width then s else seq(width - |s|, _ => fill) + s
  }

  /** `n.toString().padStart(2, '0')`, as used for months and days. */
  function Pad2(n: nat): string {
    PadStart(NatString(n), 2, '0')
  }

  /** Below 100, the padded form is exactly two digits and reads back as `n`. */
  lemma Pad2RoundTrip(n: nat)
    requires n < 100
    ensures |Pad2(n)| == 2 && AllDigits(Pad2(n))
    ensures ParseNat(Pad2(n)) == n
  {
    var p := Pad2(n);
    if n < 10 {
      assert p == ['0', DigitChar(n)];
      assert p[..1] == ['0'];
      DigitRoundTrip(n);
    } else {
      assert |NatString(n / 10)| == 1;
      assert p == NatString(n);
      ParseNatString(n);
    }
  }
}
