/**
 * The few pieces of Python's string handling that the integration relies on:
 * `str.strip()`, `str.rstrip(c)`, prefix and substring tests, and the
 * decimal-literal subset of `int()` and `float()`.
 */
module Strings {
  import opened Wrappers

  /** Python's `str.isspace()` on one character (the whitespace `strip()` and `\s` use). */
  predicate IsSpace(c: char) {
    || c == ' '
    || '\t' <= c <= '\r'
    || '\U{1C}' <= c <= '\U{1F}'
    || c == '\U{85}' || c == '\U{A0}' || c == '\U{1680}'
    || '\U{2000}' <= c <= '\U{200A}'
    || c == '\U{2028}' || c == '\U{2029}' || c == '\U{202F}' || c == '\U{205F}' || c == '\U{3000}'
  }

  predicate IsDigit(c: char) {
    '0' <= c <= '9'
  }

  predicate AllDigits(s: string) {
    forall i :: 0 <= i < |s| ==> IsDigit(s[i])
  }

  /** `s` without its leading whitespace. */
  function LStrip(s: string): (r: string)
    ensures |r| <= |s| && r == s[|s| - |r|..]
    ensures forall i :: 0 <= i < |s| - |r| ==> IsSpace(s[i])
    ensures r == [] || !IsSpace(r[0])
  {
    s[SpaceEnd(s, 0)..]
  }

  /** `s` without its trailing whitespace. */
  function RStrip(s: string): (r: string)
    ensures |r| <= |s| && r == s[..|r|]
    ensures forall i :: |r| <= i < |s| ==> IsSpace(s[i])
    ensures r == [] || !IsSpace(r[|r| - 1])
  {
    if |s| > 0 && IsSpace(s[|s| - 1]) then RStrip(s[..|s| - 1]) else s
  }

  /** Python's `s.strip()`: whitespace removed at both ends. */
  function Strip(s: string): (r: string)
    ensures |r| <= |s|
    ensures r == [] || (!IsSpace(r[0]) && !IsSpace(r[|r| - 1]))
    ensures (s == [] || (!IsSpace(s[0]) && !IsSpace(s[|s| - 1]))) ==> r == s
  {
    RStrip(LStrip(s))
  }

  /** Python's `s.rstrip(c)` for one character `c`: every trailing `c` removed. */
  function RStripChar(s: string, c: char): (r: string)
    ensures |r| <= |s| && r == s[..|r|]
    ensures forall i :: |r| <= i < |s| ==> s[i] == c
    ensures r == [] || r[|r| - 1] != c
  {
    if |s| > 0 && s[|s| - 1] == c then RStripChar(s[..|s| - 1], c) else s
  }

  /** Python's `s.startswith(p)`. */
  predicate StartsWith(s: string, p: string) {
    |p| <= |s| && s[..|p|] == p
  }

  /** Python's `p in s` on strings: `p` starts at some position of `s`. */
  predicate Contains(s: string, p: string) {
    exists i :: 0 <= i <= |s| && StartsWith(s[i..], p)
  }

  /** A string lacking one of the characters of `p` does not contain `p`. */
  lemma MissingCharNotContained(s: string, p: string, c: char)
    requires c in p && c !in s
    ensures !Contains(s, p)
  {
    var k :| 0 <= k < |p| && p[k] == c;
    forall i | 0 <= i <= |s|
      ensures !StartsWith(s[i..], p)
    {
      if |p| <= |s| - i {
        assert s[i + k] != c;
        assert s[i..][..|p|][k] != p[k];
      }
    }
  }

  /** The end of the whitespace run of `s` that starts at `j`. */
  function SpaceEnd(s: string, j: nat): (k: nat)
    requires j <= |s|
    ensures j <= k <= |s|
    ensures forall i :: j <= i < k ==> IsSpace(s[i])
    ensures k == |s| || !IsSpace(s[k])
    decreases |s| - j
  {
    if j < |s| && IsSpace(s[j]) then SpaceEnd(s, j + 1) else j
  }

  /** The end of the digit run of `s` that starts at `j`. */
  function DigitEnd(s: string, j: nat): (k: nat)
    requires j <= |s|
    ensures j <= k <= |s|
    ensures forall i :: j <= i < k ==> IsDigit(s[i])
    ensures k == |s| || !IsDigit(s[k])
    decreases |s| - j
  {
    if j < |s| && IsDigit(s[j]) then DigitEnd(s, j + 1) else j
  }

  function DigitValue(c: char): nat
    requires IsDigit(c)
  {
    c as nat - '0' as nat
  }

  function DigitChar(d: nat): (c: char)
    requires d < 10
    ensures IsDigit(c) && DigitValue(c) == d
  {
    ('0' as nat + d) as char
  }

  /** The value of a string of decimal digits, most significant first. */
  function DigitsValue(s: string): nat
    requires AllDigits(s)
  {
    if s == [] then 0 else DigitsValue(s[..|s| - 1]) * 10 + DigitValue(s[|s| - 1])
  }

  /** Python's `str(n)` for a natural number. */
  function NatToString(n: nat): (r: string)
    ensures |r| > 0 && AllDigits(r)
  {
    if n < 10 then [DigitChar(n)] else NatToString(n / 10) + [DigitChar(n % 10)]
  }

  /** Python's `str(i)` for an integer. */
  function IntToString(i: int): string {
    if i < 0 then "-" + NatToString(-i) else NatToString(i)
  }

  lemma {:induction false} NatToStringValue(n: nat)
    ensures DigitsValue(NatToString(n)) == n
  {
    if n >= 10 {
      var s := NatToString(n);
      NatToStringValue(n / 10);
      assert s[..|s| - 1] == NatToString(n / 10);
    }
  }

  /** The first position of `c` in `s`, if any. */
  function IndexOf(s: string, c: char): (r: Option<nat>)
    ensures r.Some? ==> r.value < |s| && s[r.value] == c && forall k :: 0 <= k < r.value ==> s[k] != c
    ensures r.None? ==> forall k :: 0 <= k < |s| ==> s[k] != c
  {
    if s == [] then None
    else if s[0] == c then Some(0)
    else match IndexOf(s[1..], c)
      case None => None
      case Some(k) => Some(k + 1)
  }

  function Pow10(n: nat): (p: nat)
    ensures p > 0
  {
    if n == 0 then 1 else 10 * Pow10(n - 1)
  }

  /** An optional leading `+` or `-` split off: whether it was `-`, and the rest. */
  function SplitSign(t: string): (bool, string) {
    if |t| > 0 && (t[0] == '+' || t[0] == '-') then (t[0] == '-', t[1..]) else (false, t)
  }

  /**
   * The value of an unsigned decimal literal: digits, optionally followed by a
   * point and more digits, with at least one digit in all (`"48"`, `"23.5"`,
   * `"5."`, `".5"`).
   */
  function UnsignedDecimal(b: string): Option<real> {
    match IndexOf(b, '.')
    case None =>
      if b != [] && AllDigits(b) then Some(DigitsValue(b) as real) else None
    case Some(p) =>
      var whole, frac := b[..p], b[p + 1..];
      if AllDigits(whole) && AllDigits(frac) && |whole| + |frac| > 0 then
        Some(DigitsValue(whole) as real + DigitsValue(frac) as real / Pow10(|frac|) as real)
      else
        None
  }

  /** Python's `int(s)`: surrounding whitespace, an optional sign, decimal digits. */
  function ParseInt(s: string): Option<int> {
    var (negative, body) := SplitSign(Strip(s));
    if body != [] && AllDigits(body) then
      Some(if negative then -(DigitsValue(body) as int) else DigitsValue(body) as int)
    else
      None
  }

  /** Python's `float(s)` on plain decimal literals, with surrounding whitespace and an optional sign. */
  function ParseFloat(s: string): Option<real> {
    var (negative, body) := SplitSign(Strip(s));
    match UnsignedDecimal(body)
    case None => None
    case Some(v) => Some(if negative then -v else v)
  }

  /** Every string `int()` accepts, `float()` accepts with the same value. */
  lemma IntParsesAsFloat(s: string)
    requires ParseInt(s).Some?
    ensures ParseFloat(s) == Some(ParseInt(s).value as real)
  {
    var (negative, body) := SplitSign(Strip(s));
    assert forall k :: 0 <= k < |body| ==> body[k] != '.';
    assert IndexOf(body, '.').None?;
  }

  /** `int()` and `float()` read back what `str()` writes for an integer. */
  lemma ParseIntToString(i: int)
    ensures ParseInt(IntToString(i)) == Some(i)
    ensures ParseFloat(IntToString(i)) == Some(i as real)
  {
    var n: nat := if i < 0 then -i else i;
    var d := NatToString(n);
    NatToStringValue(n);
    var s := IntToString(i);
    assert s[|s| - 1] == d[|d| - 1];
    NotSpace(s[0]);
    NotSpace(s[|s| - 1]);
    assert Strip(s) == s;
    if i < 0 {
      assert s[1..] == d;
    }
    assert SplitSign(s) == (i < 0, d);
    IntParsesAsFloat(s);
  }

  lemma NotSpace(c: char)
    requires IsDigit(c) || c == '-' || c == '+' || c == '.'
    ensures !IsSpace(c)
  {
  }
}
