/** The string operations of the JavaScript runtime that the handlers rely on:
    whitespace, `toLowerCase`, `includes`, `startsWith`, the decimal text of an
    integer and `parseInt`. */
module JsText {
  import opened Common

  /** The WhiteSpace and LineTerminator code points of ECMAScript: the class
      `\s` of a regular expression and what `parseInt` skips. */
  predicate IsWhitespace(c: char) {
    || c == '\t' || c == '\n' || c == '\U{000B}' || c == '\U{000C}' || c == '\r' || c == ' '
    || c == '\U{00A0}' || c == '\U{1680}' || ('\U{2000}' <= c <= '\U{200A}')
    || c == '\U{2028}' || c == '\U{2029}' || c == '\U{202F}' || c == '\U{205F}'
    || c == '\U{3000}' || c == '\U{FEFF}'
  }

  function LowerChar(c: char): char {
    if 'A' <= c <= 'Z' then (c as int + 32) as char else c
  }

  /** `s.toLowerCase()`, folding the ASCII letters. */
  function ToLower(s: string): (r: string)
    ensures |r| == |s|
    ensures forall i | 0 <= i < |s| :: r[i] == LowerChar(s[i])
  {
    seq(|s|, i requires 0 <= i < |s| => LowerChar(s[i]))
  }

  predicate StartsWith(s: string, prefix: string) {
    |prefix| <= |s| && s[..|prefix|] == prefix
  }

  /** n occurs in h starting at position i. */
  predicate OccursAt(h: string, n: string, i: int) {
    0 <= i && i + |n| <= |h| && h[i..i + |n|] == n
  }

  /** `h.includes(n)`: n occurs in h at some position. */
  function Includes(h: string, n: string): (b: bool)
    ensures b <==> exists i :: OccursAt(h, n, i)
    decreases |h|
  {
    if |n| > |h| then false
    else if h[..|n|] == n then assert OccursAt(h, n, 0); true
    else
      var rest := Includes(h[1..], n);
      assert forall i :: OccursAt(h[1..], n, i) <==> OccursAt(h, n, i + 1) by {
        forall i ensures OccursAt(h[1..], n, i) <==> OccursAt(h, n, i + 1) {
          if 0 <= i && i + |n| <= |h| - 1 {
            assert h[1..][i..i + |n|] == h[i + 1..i + 1 + |n|];
          }
        }
      }
      assert !OccursAt(h, n, 0);
      assert (exists i :: OccursAt(h, n, i)) ==> exists i :: OccursAt(h[1..], n, i) by {
        if exists i :: OccursAt(h, n, i) {
          var k :| OccursAt(h, n, k);
          assert OccursAt(h[1..], n, k - 1);
        }
      }
      rest
  }

  /** The case-insensitive substring test of the search handlers:
      `h.toLowerCase().includes(n.toLowerCase())`. */
  predicate IncludesIgnoringCase(h: string, n: string) {
    Includes(ToLower(h), ToLower(n))
  }

  function DigitChar(d: nat): (c: char)
    requires d < 10
    ensures '0' <= c <= '9' && c as int - '0' as int == d
  {
    ('0' as int + d) as char
  }

  /** The decimal digits of n, most significant first, without leading zeros. */
  function DigitString(n: nat): (s: string)
    ensures 1 <= |s|
    ensures forall i | 0 <= i < |s| :: '0' <= s[i] <= '9'
    ensures n >= 10 ==> s[0] != '0'
    decreases n
  {
    if n < 10 then [DigitChar(n)] else DigitString(n / 10) + [DigitChar(n % 10)]
  }

  /** `n.toString()` for an integer n. */
  function DecimalString(n: int): string {
    if n < 0 then "-" + DigitString(-n) else DigitString(n)
  }

  /** The value of c as a digit in radix 36 (0-9, then a-z or A-Z), or -1. */
  function DigitValue(c: char): int {
    if '0' <= c <= '9' then c as int - '0' as int
    else if 'a' <= c <= 'z' then c as int - 'a' as int + 10
    else if 'A' <= c <= 'Z' then c as int - 'A' as int + 10
    else -1
  }

  predicate IsDigit(c: char, radix: nat) {
    0 <= DigitValue(c) < radix
  }

  function TrimStart(s: string): (t: string)
    ensures |t| <= |s| && t == s[|s| - |t|..]
    ensures t != [] ==> !IsWhitespace(t[0])
  {
    if s != [] && IsWhitespace(s[0]) then TrimStart(s[1..]) else s
  }

  /** The longest prefix of s made of digits of the radix. */
  function DigitPrefix(s: string, radix: nat): (z: string)
    ensures |z| <= |s| && z == s[..|z|]
    ensures forall i | 0 <= i < |z| :: IsDigit(z[i], radix)
    ensures |z| < |s| ==> !IsDigit(s[|z|], radix)
  {
    if s == [] || !IsDigit(s[0], radix) then [] else [s[0]] + DigitPrefix(s[1..], radix)
  }

  /** The number the digits of z denote in the radix. */
  function DigitsValue(z: string, radix: nat): nat
    requires forall i | 0 <= i < |z| :: IsDigit(z[i], radix)
  {
    if z == [] then 0
    else
      assert IsDigit(z[|z| - 1], radix);
      DigitsValue(z[..|z| - 1], radix) * radix + DigitValue(z[|z| - 1])
  }

  /** `parseInt(s)` with no radix: skip leading whitespace, read an optional
      sign, then the unsigned part; None stands for NaN (no digit at all). */
  function ParseInt(s: string): (r: Option<int>)
    ensures r.Some? ==> exists i | 0 <= i < |s| :: IsDigit(s[i], 16)
  {
    var t := TrimStart(s);
    if t != [] && (t[0] == '-' || t[0] == '+') then
      var u := ParseUnsigned(t[1..]);
      if u.None? then None
      else
        assert forall i | 0 <= i < |t| - 1 :: t[1..][i] == s[|s| - |t| + 1 + i];
        var v: int := u.value;
        Some(if t[0] == '-' then -v else v)
    else
      var u := ParseUnsigned(t);
      if u.None? then None
      else
        assert forall i | 0 <= i < |t| :: t[i] == s[|s| - |t| + i];
        Some(u.value)
  }

  /** The unsigned part: radix 16 after a "0x" or "0X" prefix, otherwise
      radix 10, then the longest run of digits of that radix. */
  function ParseUnsigned(u: string): (r: Option<nat>)
    ensures r.Some? ==> exists i | 0 <= i < |u| :: IsDigit(u[i], 16)
  {
    var hex := |u| >= 2 && u[0] == '0' && (u[1] == 'x' || u[1] == 'X');
    var radix := if hex then 16 else 10;
    var w := if hex then u[2..] else u;
    var z := DigitPrefix(w, radix);
    if z == [] then None
    else
      assert IsDigit(u[|u| - |w|], 16);
      Some(DigitsValue(z, radix))
  }

  /** Decimal digits read back as their value. */
  lemma {:induction false} ParseUnsignedDigits(d: string)
    requires d != [] && forall i | 0 <= i < |d| :: '0' <= d[i] <= '9'
    ensures ParseUnsigned(d) == Some(DigitsValue(d, 10))
  {
    assert !(|d| >= 2 && d[0] == '0' && (d[1] == 'x' || d[1] == 'X')) by {
      if |d| >= 2 {
        assert '0' <= d[1] <= '9';
      }
    }
    DigitPrefixOfDigits(d, 10);
  }

  lemma {:induction false} DigitsValueSnoc(z: string, c: char, radix: nat)
    requires forall i | 0 <= i < |z| :: IsDigit(z[i], radix)
    requires IsDigit(c, radix)
    ensures DigitsValue(z + [c], radix) == DigitsValue(z, radix) * radix + DigitValue(c)
  {
    assert (z + [c])[..|z|] == z;
  }

  lemma {:induction false} DigitPrefixOfDigits(s: string, radix: nat)
    requires forall i | 0 <= i < |s| :: IsDigit(s[i], radix)
    ensures DigitPrefix(s, radix) == s
    decreases |s|
  {
    if s != [] {
      DigitPrefixOfDigits(s[1..], radix);
    }
  }

  lemma {:induction false} DigitStringValue(n: nat)
    ensures DigitsValue(DigitString(n), 10) == n
    decreases n
  {
    if n >= 10 {
      DigitStringValue(n / 10);
      DigitsValueSnoc(DigitString(n / 10), DigitChar(n % 10), 10);
    }
  }

  /** Text that starts with no whitespace is read from its sign, or from
      its first character when it has none. */
  lemma {:induction false} ParseIntUntrimmed(t: string)
    requires t != [] && !IsWhitespace(t[0])
    ensures t[0] == '-' ==> ParseInt(t) == (if ParseUnsigned(t[1..]).None? then None
                                            else Some(-(ParseUnsigned(t[1..]).value as int)))
    ensures t[0] == '+' ==> ParseInt(t) == (if ParseUnsigned(t[1..]).None? then None
                                            else Some(ParseUnsigned(t[1..]).value as int))
    ensures t[0] != '-' && t[0] != '+' ==> ParseInt(t) == (if ParseUnsigned(t).None? then None
                                                         else Some(ParseUnsigned(t).value as int))
  {
    assert TrimStart(t) == t;
  }

  /** Reading back the decimal text of an integer gives the integer: an id
      written into a path parameter names that id. */
  lemma ParseIntDecimal(n: int)
    ensures ParseInt(DecimalString(n)) == Some(n)
  {
    var m := if n < 0 then -n else n;
    var d := DigitString(m);
    DigitStringValue(m);
    ParseUnsignedDigits(d);
    var s := DecimalString(n);
    ParseIntUntrimmed(s);
    if n < 0 {
      assert s[1..] == d;
    }
  }
}
