/** The JavaScript string conversions the extension relies on: `String(n)` for integers,
    `parseInt` (section 19.2.5 of ECMA-262) in its decimal and hexadecimal uses, and
    `String.prototype.trim` with the ECMAScript white-space set. */
module Text {
  import opened Wrappers

  /** ECMAScript WhiteSpace and LineTerminator code points: what `trim` removes and what
      `parseInt` skips before the number. */
  predicate IsJsSpace(c: char) {
    c == '\t' || c == '\n' || c == '\U{000B}' || c == '\U{000C}' || c == '\r' || c == ' '
    || c == '\U{00A0}' || c == '\U{1680}' || ('\U{2000}' <= c <= '\U{200A}')
    || c == '\U{2028}' || c == '\U{2029}' || c == '\U{202F}' || c == '\U{205F}'
    || c == '\U{3000}' || c == '\U{FEFF}'
  }

  /** Number of white-space characters at the start of `s`. */
  function LeadingSpaces(s: string): (k: nat)
    ensures k <= |s|
    ensures forall i | 0 <= i < k :: IsJsSpace(s[i])
    ensures k == |s| || !IsJsSpace(s[k])
  {
    if s == [] || !IsJsSpace(s[0]) then 0 else 1 + LeadingSpaces(s[1..])
  }

  /** Number of white-space characters at the end of `s`. */
  function TrailingSpaces(s: string): (k: nat)
    ensures k <= |s|
    ensures forall i | |s| - k <= i < |s| :: IsJsSpace(s[i])
    ensures k == |s| || !IsJsSpace(s[|s| - 1 - k])
  {
    if s == [] || !IsJsSpace(s[|s| - 1]) then 0 else 1 + TrailingSpaces(s[..|s| - 1])
  }

  /** `s.trim()`. */
  function Trim(s: string): (r: string)
    ensures |r| <= |s|
    ensures r == "" <==> forall i | 0 <= i < |s| :: IsJsSpace(s[i])
    ensures r != "" ==> !IsJsSpace(r[0]) && !IsJsSpace(r[|r| - 1])
  {
    var t := s[LeadingSpaces(s)..];
    t[..|t| - TrailingSpaces(t)]
  }

  /** Trimming a string without surrounding white space leaves it as it is. */
  lemma TrimUnpadded(s: string)
    requires s == "" || (!IsJsSpace(s[0]) && !IsJsSpace(s[|s| - 1]))
    ensures Trim(s) == s
  {
  }

  /** `trim` is idempotent. */
  lemma TrimIdempotent(s: string)
    ensures Trim(Trim(s)) == Trim(s)
  {
    TrimUnpadded(Trim(s));
  }

  // ----- digits -----

  predicate IsDigit(c: char) { '0' <= c <= '9' }

  /** The value of `c` as a digit in base `radix` (10 or 16, either letter case), if it is one. */
  function DigitValue(c: char, radix: nat): (r: Option<nat>)
    ensures r.Some? ==> r.value < radix
    ensures radix == 10 ==> (r.Some? <==> IsDigit(c))
  {
    if IsDigit(c) && (c as int) - ('0' as int) < radix then Some((c as int) - ('0' as int))
    else if radix == 16 && 'a' <= c <= 'f' then Some((c as int) - ('a' as int) + 10)
    else if radix == 16 && 'A' <= c <= 'F' then Some((c as int) - ('A' as int) + 10)
    else None
  }

  /** The lower-case digit `d` in base 16 (and so in base 10 for `d < 10`). */
  function DigitChar(d: nat): (c: char)
    requires d < 16
    ensures DigitValue(c, 16) == Some(d)
    ensures d < 10 ==> IsDigit(c) && DigitValue(c, 10) == Some(d)
    ensures c != 'x' && c != 'X' && c != '-' && c != '+' && !IsJsSpace(c)
  {
    if d < 10 then (('0' as int) + d) as char else (('a' as int) + d - 10) as char
  }

  /** `String(n)` for a non-negative integer: its decimal digits, most significant first. */
  function NatToString(n: nat): (s: string)
    ensures |s| > 0
    ensures forall i | 0 <= i < |s| :: IsDigit(s[i])
    ensures |s| > 1 ==> s[0] != '0'
  {
    if n < 10 then [DigitChar(n)] else NatToString(n / 10) + [DigitChar(n % 10)]
  }

  /** `String(i)` for an integer. */
  function IntToString(i: int): (s: string)
    ensures |s| > 0
    ensures i < 0 <==> s[0] == '-'
  {
    if i < 0 then "-" + NatToString(-i) else NatToString(i)
  }

  /** Length of the longest prefix of `s` made of digits of base `radix`. */
  function DigitRun(s: string, radix: nat): (k: nat)
    ensures k <= |s|
    ensures forall i | 0 <= i < k :: DigitValue(s[i], radix).Some?
    ensures k == |s| || DigitValue(s[k], radix).None?
  {
    if s == [] || DigitValue(s[0], radix).None? then 0 else 1 + DigitRun(s[1..], radix)
  }

  /** The number written by digits `s` in base `radix`, most significant first. */
  function DigitsValue(s: string, radix: nat): (v: nat)
    requires forall i | 0 <= i < |s| :: DigitValue(s[i], radix).Some?
  {
    if s == [] then 0
    else DigitsValue(s[..|s| - 1], radix) * radix + DigitValue(s[|s| - 1], radix).value
  }

  /** `parseInt(s)` (`radix16` false: the radix is omitted) or `parseInt(s, 16)` (`radix16`
      true): leading white space is skipped, then an optional sign is read. No digit at all
      gives `NaN`, modelled as None. */
  function ParseInt(s: string, radix16: bool): (r: Option<int>)
  {
    var t := s[LeadingSpaces(s)..];
    if |t| > 0 && t[0] == '-' then
      match ParseMagnitude(t[1..], radix16)
      case None => None
      case Some(m) => Some(-(m as int))
    else if |t| > 0 && t[0] == '+' then
      match ParseMagnitude(t[1..], radix16)
      case None => None
      case Some(m) => Some(m)
    else
      match ParseMagnitude(t, radix16)
      case None => None
      case Some(m) => Some(m)
  }

  /** The unsigned part of `parseInt`: a `0x`/`0X` prefix selects (or, with radix 16, is
      allowed before) hexadecimal digits; the longest run of digits is read. */
  function ParseMagnitude(u: string, radix16: bool): (r: Option<nat>)
    ensures r.Some? ==> DigitRun(u, if radix16 then 16 else 10) > 0 || (|u| >= 2 && u[0] == '0')
  {
    var hexPrefix := |u| >= 2 && u[0] == '0' && (u[1] == 'x' || u[1] == 'X');
    var radix := if radix16 || hexPrefix then 16 else 10;
    var body := if hexPrefix then u[2..] else u;
    var k := DigitRun(body, radix);
    if k == 0 then None else Some(DigitsValue(body[..k], radix))
  }

  lemma {:induction false} NatToStringValue(n: nat)
    ensures DigitsValue(NatToString(n), 10) == n
  {
    if n >= 10 {
      var s := NatToString(n);
      assert s[..|s| - 1] == NatToString(n / 10);
      NatToStringValue(n / 10);
    }
  }

  /** A string of decimal digits is one run. */
  lemma {:induction false} DecimalRunOfDigits(s: string)
    requires forall i | 0 <= i < |s| :: IsDigit(s[i])
    ensures DigitRun(s, 10) == |s|
  {
    if s != [] {
      DecimalRunOfDigits(s[1..]);
    }
  }

  /** The unsigned part of `parseInt` reads a decimal numeral without `0x` prefix whole. */
  lemma MagnitudeOfDecimal(d: string)
    requires |d| > 0 && forall i | 0 <= i < |d| :: IsDigit(d[i])
    requires |d| > 1 ==> d[1] != 'x' && d[1] != 'X'
    ensures ParseMagnitude(d, false) == Some(DigitsValue(d, 10))
  {
    DecimalRunOfDigits(d);
    assert d[..|d|] == d;
  }

  /** `parseInt` skips nothing in a string that starts with neither white space nor a sign. */
  lemma ParseUnpadded(u: string, radix16: bool)
    requires |u| > 0 && !IsJsSpace(u[0]) && u[0] != '-' && u[0] != '+'
    ensures ParseInt(u, radix16) == match ParseMagnitude(u, radix16)
                                    case None => None
                                    case Some(m) => Some(m)
  {
    assert LeadingSpaces(u) == 0;
    assert u[0..] == u;
  }

  /** `parseInt` of a minus sign followed by a string that starts with no sign negates. */
  lemma ParseNegated(u: string, radix16: bool)
    ensures ParseInt("-" + u, radix16) == match ParseMagnitude(u, radix16)
                                          case None => None
                                          case Some(m) => Some(-(m as int))
  {
    var m := "-" + u;
    assert !IsJsSpace(m[0]);
    assert LeadingSpaces(m) == 0;
    assert m[0..] == m;
    assert m[1..] == u;
  }

  /** `parseInt(String(i)) === i`: reading back the decimal rendering of an integer. */
  lemma ParseIntOfIntToString(i: int)
    ensures ParseInt(IntToString(i), false) == Some(i)
  {
    var n: nat := if i < 0 then -i else i;
    var d := NatToString(n);
    NatToStringValue(n);
    if |d| > 1 {
      assert IsDigit(d[1]);
    }
    MagnitudeOfDecimal(d);
    if i < 0 {
      ParseNegated(d, false);
    } else {
      assert IsDigit(d[0]);
      ParseUnpadded(d, false);
    }
  }

  /** Distinct integers have distinct decimal renderings. */
  lemma IntToStringInjective(a: int, b: int)
    requires IntToString(a) == IntToString(b)
    ensures a == b
  {
    ParseIntOfIntToString(a);
    ParseIntOfIntToString(b);
  }

  /** `n.toString(16).padStart(2, '0')` for a byte: two lower-case hexadecimal digits. */
  function Hex2(n: nat): (s: string)
    requires n < 256
    ensures |s| == 2
  {
    [DigitChar(n / 16), DigitChar(n % 16)]
  }

  /** `parseInt(h, 16)` reads back a byte written by `Hex2`. */
  lemma ParseHex2(n: nat)
    requires n < 256
    ensures ParseInt(Hex2(n), true) == Some(n)
  {
    var h := Hex2(n);
    assert h[1] != 'x' && h[1] != 'X';
    assert DigitRun(h[2..], 16) == 0;
    assert DigitRun(h[1..], 16) == 1;
    assert DigitRun(h, 16) == 2;
    assert h[..2] == h;
    assert h[..1][..0] == [];
    assert DigitsValue(h[..1], 16) == n / 16;
    assert ParseMagnitude(h, true) == Some(n);
    ParseUnpadded(h, true);
  }
}
