/**
 * Character classes and string operations with the meaning JavaScript gives
 * them: the whitespace class of regular expressions and String.prototype.trim,
 * ASCII case mapping, substring search, decimal rendering of integers and
 * `parseInt`.
 */
module Text {
  import opened Wrappers

  /** The characters JavaScript's `\s` and `trim` treat as white space
      (WhiteSpace and LineTerminator of the ECMAScript grammar). */
  predicate IsSpace(c: char) {
    || c == '\t' || c == '\n' || c == '\U{B}' || c == '\U{C}' || c == '\r'
    || c == ' ' || c == '\U{A0}' || c == '\U{1680}'
    || ('\U{2000}' <= c <= '\U{200A}')
    || c == '\U{2028}' || c == '\U{2029}' || c == '\U{202F}' || c == '\U{205F}'
    || c == '\U{3000}' || c == '\U{FEFF}'
  }

  predicate IsUpperAscii(c: char) { 'A' <= c <= 'Z' }
  predicate IsLowerAscii(c: char) { 'a' <= c <= 'z' }
  predicate IsDigit(c: char) { '0' <= c <= '9' }

  /** The `\w` class of a JavaScript regular expression without the `u` flag. */
  predicate IsWordChar(c: char) { IsUpperAscii(c) || IsLowerAscii(c) || IsDigit(c) || c == '_' }

  function LowerChar(c: char): (d: char)
    ensures IsUpperAscii(c) ==> IsLowerAscii(d)
    ensures !IsUpperAscii(c) ==> d == c
  {
    if IsUpperAscii(c) then (c as int + 32) as char else c
  }

  /** `toLowerCase`, restricted to the ASCII letters. */
  function Lower(s: string): (r: string)
    ensures |r| == |s|
    ensures forall i :: 0 <= i < |s| ==> r[i] == LowerChar(s[i])
  {
    seq(|s|, i requires 0 <= i < |s| => LowerChar(s[i]))
  }

  /** `s.includes(sub)`: `sub` occurs in `s` at some position. */
  predicate Contains(s: string, sub: string) {
    exists i :: 0 <= i <= |s| - |sub| && OccursAt(s, sub, i)
  }

  predicate OccursAt(s: string, sub: string, i: int) {
    0 <= i <= |s| - |sub| && s[i..i + |sub|] == sub
  }

  function TrimStart(s: string): (r: string)
    ensures |r| <= |s| && r == s[|s| - |r|..]
    ensures r == [] || !IsSpace(r[0])
    ensures forall i :: 0 <= i < |s| - |r| ==> IsSpace(s[i])
  {
    if |s| > 0 && IsSpace(s[0]) then TrimStart(s[1..]) else s
  }

  function TrimEnd(s: string): (r: string)
    ensures |r| <= |s| && r == s[..|r|]
    ensures r == [] || !IsSpace(r[|r| - 1])
    ensures forall i :: |r| <= i < |s| ==> IsSpace(s[i])
  {
    if |s| > 0 && IsSpace(s[|s| - 1]) then TrimEnd(s[..|s| - 1]) else s
  }

  /** `String.prototype.trim`: drops leading and trailing white space. */
  function Trim(s: string): (r: string)
    ensures |r| <= |s|
    ensures r == [] || (!IsSpace(r[0]) && !IsSpace(r[|r| - 1]))
  {
    TrimEnd(TrimStart(s))
  }

  function DigitChar(d: nat): (c: char)
    requires d < 10
    ensures IsDigit(c)
  {
    ('0' as int + d) as char
  }

  /** The decimal digits of a natural number, most significant first. */
  function NatToString(n: nat): (r: string)
    ensures |r| > 0
    ensures forall i :: 0 <= i < |r| ==> IsDigit(r[i])
  {
    if n < 10 then [DigitChar(n)] else NatToString(n / 10) + [DigitChar(n % 10)]
  }

  /** `String(n)` for an integer. */
  function IntToString(n: int): (r: string)
    ensures |r| > 0
  {
    if n < 0 then "-" + NatToString(-n) else NatToString(n)
  }

  function DigitValue(c: char): (d: nat)
    requires IsDigit(c)
    ensures d < 10
  {
    c as int - '0' as int
  }

  predicate IsHexDigit(c: char) { IsDigit(c) || 'a' <= c <= 'f' || 'A' <= c <= 'F' }

  function HexValue(c: char): (d: nat)
    requires IsHexDigit(c)
    ensures d < 16
  {
    if IsDigit(c) then DigitValue(c)
    else if 'a' <= c <= 'f' then c as int - 'a' as int + 10
    else c as int - 'A' as int + 10
  }

  /** The longest prefix of `s` whose characters all satisfy `p`. */
  function Leading(s: string, p: char -> bool): (r: string)
    ensures |r| <= |s| && r == s[..|r|]
    ensures forall i :: 0 <= i < |r| ==> p(r[i])
    ensures |r| < |s| ==> !p(s[|r|])
  {
    if |s| > 0 && p(s[0]) then [s[0]] + Leading(s[1..], p) else []
  }

  /** The number a string of decimal digits denotes. */
  function DecimalValue(d: string): nat
    requires forall i :: 0 <= i < |d| ==> IsDigit(d[i])
  {
    if |d| == 0 then 0 else DecimalValue(d[..|d| - 1]) * 10 + DigitValue(d[|d| - 1])
  }

  function HexadecimalValue(d: string): nat
    requires forall i :: 0 <= i < |d| ==> IsHexDigit(d[i])
  {
    if |d| == 0 then 0 else HexadecimalValue(d[..|d| - 1]) * 16 + HexValue(d[|d| - 1])
  }

  /** The number an unsigned numeral denotes, after `parseInt` has skipped
      the white space and the sign. */
  function ParseUnsigned(u: string): Option<int> {
    if |u| >= 2 && u[0] == '0' && (u[1] == 'x' || u[1] == 'X') then
      var h := Leading(u[2..], IsHexDigit);
      if |h| == 0 then None else Some(HexadecimalValue(h))
    else
      var d := Leading(u, IsDigit);
      if |d| == 0 then None else Some(DecimalValue(d))
  }

  /** `parseInt(s)` without a radix: leading white space and one sign are
      skipped, a `0x` or `0X` prefix selects base 16, and the longest run of
      digits that follows is read; `None` stands for `NaN`, when there is no
      digit to read. */
  function ParseInt(s: string): Option<int> {
    var t := TrimStart(s);
    if |t| > 0 && t[0] == '-' then
      match ParseUnsigned(t[1..])
      case Some(n) => Some(-n)
      case None => None
    else if |t| > 0 && t[0] == '+' then
      match ParseUnsigned(t[1..])
      case Some(n) => Some(n)
      case None => None
    else
      match ParseUnsigned(t)
      case Some(n) => Some(n)
      case None => None
  }

  /** `parseInt(String(n))` reads back `n`. */
  lemma {:induction false} ParseIntRoundTrip(n: int)
    ensures ParseInt(IntToString(n)) == Some(n)
  {
    var m: nat := if n < 0 then -n else n;
    var r := NatToString(m);
    ParseNatToString(m);
    var s := IntToString(n);
    assert !IsSpace(s[0]);
    assert TrimStart(s) == s;
    if n < 0 {
      assert s[1..] == r;
    }
  }

  lemma {:induction false} ParseNatToString(m: nat)
    ensures ParseUnsigned(NatToString(m)) == Some(m)
  {
    var r := NatToString(m);
    DecimalValueOf(m);
    LeadingDigits(r);
    if |r| >= 2 {
      NatToStringLeading(m);
    }
  }

  lemma {:induction false} DecimalValueOf(n: nat)
    ensures DecimalValue(NatToString(n)) == n
  {
    var r := NatToString(n);
    if n >= 10 {
      DecimalValueOf(n / 10);
      assert r[..|r| - 1] == NatToString(n / 10);
    } else {
      assert r[..0] == [];
    }
  }

  lemma {:induction false} LeadingDigits(r: string)
    requires forall i :: 0 <= i < |r| ==> IsDigit(r[i])
    ensures Leading(r, IsDigit) == r
  {
    if |r| > 0 {
      LeadingDigits(r[1..]);
    }
  }

  /** A rendering of two or more digits does not start with `0x`. */
  lemma NatToStringLeading(n: nat)
    requires |NatToString(n)| >= 2
    ensures IsDigit(NatToString(n)[1])
  {
  }

  /** Digits followed by anything else read as the digits. */
  lemma ParseIntTrailingText()
    ensures ParseInt("42px") == Some(42)
  {
    var s := "42px";
    assert TrimStart(s) == s by { assert !IsSpace(s[0]); }
    UnsignedOf42px();
  }

  lemma UnsignedOf42px()
    ensures ParseUnsigned("42px") == Some(42)
  {
    LeadingOf42px();
    assert DecimalValue("42") == 42 by { assert "42"[..1] == "4"; }
  }

  lemma LeadingOf42px()
    ensures Leading("42px", IsDigit) == "42"
  {
    var s := "42px";
    assert Leading(s[2..], IsDigit) == [];
    assert Leading(s[1..], IsDigit) == "2";
  }

  /** Text that starts with neither white space, a sign nor a digit reads
      as `NaN`: `"abc"`, `"undefined"`, `"null"`, `"true"`. */
  lemma ParseIntNonNumeric(s: string)
    requires |s| > 0 && !IsSpace(s[0]) && !IsDigit(s[0]) && s[0] != '-' && s[0] != '+'
    ensures ParseInt(s) == None
  {
    assert TrimStart(s) == s;
    assert Leading(s, IsDigit) == [];
  }
}
