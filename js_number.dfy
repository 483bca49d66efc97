/**
 * The ECMAScript number conversions the dialogs rely on: `parseInt`
 * (leading white space, an optional sign, an optional `0x` prefix when the
 * radix is absent or 16, then the longest run of digits), and the decimal
 * text of an integer as `String(n)` writes it.
 */
module JsNumber {
  import opened Types

  /** White space and line terminators that `parseInt` skips at the start:
      TAB, VT, FF, SP, NBSP, ZWNBSP, LF, CR, LS, PS and the other space
      separators of Unicode category Zs. */
  predicate IsStrWhiteSpace(c: char) {
    c == '\t' || c == '\U{000B}' || c == '\U{000C}' || c == ' ' || c == '\U{00A0}' || c == '\U{FEFF}'
    || c == '\n' || c == '\r' || c == '\U{2028}' || c == '\U{2029}'
    || c == '\U{1680}' || ('\U{2000}' <= c <= '\U{200A}') || c == '\U{202F}' || c == '\U{205F}' || c == '\U{3000}'
  }

  /** The string with its leading white space removed. */
  function TrimStart(s: string): (r: string)
    ensures |r| <= |s| && r == s[|s| - |r|..]
    ensures r == [] || !IsStrWhiteSpace(r[0])
    ensures forall i :: 0 <= i < |s| - |r| ==> IsStrWhiteSpace(s[i])
  {
    if s == [] || !IsStrWhiteSpace(s[0]) then s
    else
      var r := TrimStart(s[1..]);
      assert s[1..][|s[1..]| - |r|..] == s[|s| - |r|..];
      r
  }

  /** The value of a digit character in radices up to 36, and 36 for any
      other character. */
  function DigitValue(c: char): (d: nat)
    ensures d <= 36
    ensures d < 10 <==> '0' <= c <= '9'
  {
    if '0' <= c <= '9' then c as int - '0' as int
    else if 'a' <= c <= 'z' then c as int - 'a' as int + 10
    else if 'A' <= c <= 'Z' then c as int - 'A' as int + 10
    else 36
  }

  predicate AllDigits(z: string, radix: nat) {
    forall i :: 0 <= i < |z| ==> DigitValue(z[i]) < radix
  }

  /** The longest prefix made of digits of the radix. */
  function DigitPrefix(s: string, radix: nat): (z: string)
    ensures z <= s && AllDigits(z, radix)
    ensures |z| < |s| ==> DigitValue(s[|z|]) >= radix
  {
    if s == [] || DigitValue(s[0]) >= radix then []
    else [s[0]] + DigitPrefix(s[1..], radix)
  }

  /** The number a digit string denotes in the radix. */
  function DigitsValue(z: string, radix: nat): nat
    requires AllDigits(z, radix)
  {
    if z == [] then 0
    else DigitsValue(z[..|z| - 1], radix) * radix + DigitValue(z[|z| - 1])
  }

  /** The text starts with a minus sign. */
  predicate Negative(t: string) {
    |t| > 0 && t[0] == '-'
  }

  /** The text after one leading `+` or `-`. */
  function Unsigned(t: string): string {
    if |t| > 0 && (t[0] == '+' || t[0] == '-') then t[1..] else t
  }

  /** The digits after the sign: a `0x` or `0X` prefix switches to radix
      16 when the radix is absent (0) or 16; NaN without a digit. */
  function ParseMagnitude(u: string, radix: nat): Option<nat>
    requires radix == 0 || 2 <= radix <= 36
  {
    var hex := (radix == 0 || radix == 16) && |u| >= 2 && u[0] == '0' && (u[1] == 'x' || u[1] == 'X');
    var v := if hex then u[2..] else u;
    var r: nat := if hex then 16 else if radix == 0 then 10 else radix;
    var z := DigitPrefix(v, r);
    if z == [] then None else Some(DigitsValue(z, r))
  }

  /** `parseInt(s, radix)`, with radix 0 standing for an absent radix;
      `None` is NaN. A negative zero is returned as 0. */
  function ParseInt(s: string, radix: int): (r: Option<int>)
  {
    if radix != 0 && (radix < 2 || radix > 36) then None
    else
      var t := TrimStart(s);
      match ParseMagnitude(Unsigned(t), radix)
      case None => None
      case Some(m) => if Negative(t) then Some(-(m as int)) else Some(m)
  }

  /** The decimal digits of a natural number, most significant first. */
  function Decimal(n: nat): (d: string)
    ensures |d| > 0 && AllDigits(d, 10)
    ensures n > 0 ==> d[0] != '0'
  {
    var last := ['0' + (n % 10) as char];
    if n < 10 then last else Decimal(n / 10) + last
  }

  /** `String(n)` for an integer. */
  function IntText(n: int): (t: string)
    ensures |t| > 0
  {
    if n < 0 then "-" + Decimal(-n) else Decimal(n)
  }

  lemma {:induction false} DecimalValue(n: nat)
    ensures DigitsValue(Decimal(n), 10) == n
  {
    var d := Decimal(n);
    if n >= 10 {
      DecimalValue(n / 10);
      assert d[..|d| - 1] == Decimal(n / 10);
    }
  }

  /** A digit run followed by a non-digit: the prefix stops at the run. */
  lemma {:induction false} DigitPrefixAppend(z: string, rest: string, radix: nat)
    requires AllDigits(z, radix)
    requires rest == [] || DigitValue(rest[0]) >= radix
    ensures DigitPrefix(z + rest, radix) == z
  {
    if z == [] {
      assert z + rest == rest;
    } else {
      assert (z + rest)[1..] == z[1..] + rest;
      DigitPrefixAppend(z[1..], rest, radix);
    }
  }

  /** A decimal digit run followed by a non-digit reads as its value. */
  lemma MagnitudeOfDecimal(m: nat, rest: string, radix: nat)
    requires radix == 10 || (radix == 0 && m > 0)
    requires rest == [] || DigitValue(rest[0]) >= 10
    ensures ParseMagnitude(Decimal(m) + rest, radix) == Some(m)
  {
    var d := Decimal(m);
    DigitPrefixAppend(d, rest, 10);
    DecimalValue(m);
    assert (d + rest)[0] == d[0];
    assert DigitPrefix(d + rest, 10) == d;
  }

  /** Text that starts with a digit or a minus sign has no white space to
      skip. */
  lemma NothingToTrim(s: string)
    requires |s| > 0 && (s[0] == '-' || '0' <= s[0] <= '9')
    ensures TrimStart(s) == s
  {
    assert !IsStrWhiteSpace(s[0]);
  }

  /** Text with no white space to skip is read by its sign and magnitude
      alone. */
  lemma ParseUntrimmed(s: string, radix: int, m: nat)
    requires radix == 0 || 2 <= radix <= 36
    requires TrimStart(s) == s
    requires ParseMagnitude(Unsigned(s), radix) == Some(m)
    ensures ParseInt(s, radix) == if Negative(s) then Some(-(m as int)) else Some(m)
  {
  }

  /** Reading back the decimal text of any integer, whatever non-digit
      text follows it, gives the integer. */
  lemma ParseIntText(n: int, rest: string)
    requires rest == [] || DigitValue(rest[0]) >= 10
    ensures ParseInt(IntText(n) + rest, 10) == Some(n)
  {
    if n < 0 {
      var m: nat := -n;
      assert IntText(n) == "-" + Decimal(m);
      ParseNegativeText(m, rest);
    } else {
      ParseNonNegativeText(n, rest);
      assert IntText(n) == Decimal(n);
    }
  }

  lemma ParseNonNegativeText(m: nat, rest: string)
    requires rest == [] || DigitValue(rest[0]) >= 10
    ensures ParseInt(Decimal(m) + rest, 10) == Some(m)
  {
    var d := Decimal(m);
    var s := d + rest;
    assert s[0] == d[0] && DigitValue(d[0]) < 10;
    assert Unsigned(s) == s && !Negative(s);
    MagnitudeOfDecimal(m, rest, 10);
    NothingToTrim(s);
    ParseUntrimmed(s, 10, m);
  }

  lemma ParseNegativeText(m: nat, rest: string)
    requires m > 0
    requires rest == [] || DigitValue(rest[0]) >= 10
    ensures ParseInt("-" + Decimal(m) + rest, 10) == Some(-(m as int))
  {
    var u := Decimal(m) + rest;
    var s := "-" + u;
    assert "-" + Decimal(m) + rest == s;
    assert s[0] == '-' && s[1..] == u;
    assert Unsigned(s) == u && Negative(s);
    MagnitudeOfDecimal(m, rest, 10);
    NothingToTrim(s);
    ParseUntrimmed(s, 10, m);
  }

  /** With no radix the same holds for positive integers: their text has
      no leading `0`, so no `0x` prefix can arise. */
  lemma ParseIntTextNoRadix(n: nat, rest: string)
    requires n > 0
    requires rest == [] || DigitValue(rest[0]) >= 10
    ensures ParseInt(Decimal(n) + rest, 0) == Some(n)
  {
    var d := Decimal(n);
    var s := d + rest;
    assert s[0] == d[0] && DigitValue(d[0]) < 10;
    assert Unsigned(s) == s && !Negative(s);
    MagnitudeOfDecimal(n, rest, 0);
    NothingToTrim(s);
    ParseUntrimmed(s, 0, n);
  }

  /** Text whose first non-blank character is neither a sign nor a digit
      is NaN. */
  lemma NoDigitsIsNaN(s: string, radix: int)
    requires radix == 0 || 2 <= radix <= 10
    requires var t := TrimStart(s); t == [] || (t[0] != '+' && t[0] != '-' && DigitValue(t[0]) >= 10)
    ensures ParseInt(s, radix) == None
  {
  }
}
