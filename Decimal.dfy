/**
 * Decimal text for natural numbers: the `${i}` in generated ids and the
 * `parseInt` applied to slices of a resident identity number.
 */
module Decimal {
  import opened Common

  predicate IsDigit(c: char) {
    '0' <= c <= '9'
  }

  predicate AllDigits(s: string) {
    forall i :: 0 <= i < |s| ==> IsDigit(s[i])
  }

  function DigitValue(c: char): (d: nat)
    requires IsDigit(c)
    ensures d < 10
  {
    (c as int) - ('0' as int)
  }

  function DigitChar(d: nat): (c: char)
    requires d < 10
    ensures IsDigit(c) && DigitValue(c) == d
  {
    ((d + '0' as int) as char)
  }

  /** The shortest decimal rendering of `n`, as JavaScript's template literal prints it. */
  function NatToString(n: nat): (s: string)
    ensures |s| > 0 && AllDigits(s)
    ensures |s| > 1 ==> s[0] != '0'
    decreases n
  {
    if n < 10 then [DigitChar(n)] else NatToString(n / 10) + [DigitChar(n % 10)]
  }

  /** The value of a string of decimal digits (leading zeros allowed). */
  function ParseDigits(s: string): nat
    requires AllDigits(s)
  {
    if s == [] then 0 else ParseDigits(s[..|s| - 1]) * 10 + DigitValue(s[|s| - 1])
  }

  /** Reading back the decimal rendering of a number gives the number. */
  lemma {:induction false} ParseNatToString(n: nat)
    ensures ParseDigits(NatToString(n)) == n
  {
    if n >= 10 {
      var s := NatToString(n);
      assert s[..|s| - 1] == NatToString(n / 10);
      ParseNatToString(n / 10);
    }
  }

  /** Distinct numbers have distinct renderings. */
  lemma NatToStringInjective(a: nat, b: nat)
    requires NatToString(a) == NatToString(b)
    ensures a == b
  {
    ParseNatToString(a);
    ParseNatToString(b);
  }

  /** A fixed prefix followed by the rendering of `n` names `n` uniquely. */
  lemma PrefixedInjective(prefix: string, a: nat, b: nat)
    requires prefix + NatToString(a) == prefix + NatToString(b)
    ensures a == b
  {
    var sa, sb := prefix + NatToString(a), prefix + NatToString(b);
    assert NatToString(a) == sa[|prefix|..];
    assert NatToString(b) == sb[|prefix|..];
    NatToStringInjective(a, b);
  }

  /** Number of leading decimal digits of `s`. */
  function LeadingDigits(s: string): (k: nat)
    ensures k <= |s|
    ensures AllDigits(s[..k])
    ensures k < |s| ==> !IsDigit(s[k])
  {
    if s == [] || !IsDigit(s[0]) then 0
    else
      var k := 1 + LeadingDigits(s[1..]);
      assert s[..k] == [s[0]] + s[1..][..k - 1];
      k
  }

  /**
   * `parseInt(s)` on text without leading blanks or sign: the value of the
   * leading run of digits, or `None` (JavaScript's NaN) when there is none.
   */
  function ParseLeadingInt(s: string): (r: Option<nat>)
    ensures r.None? <==> s == [] || !IsDigit(s[0])
    ensures AllDigits(s) && s != [] ==> r == Some(ParseDigits(s))
  {
    var k := LeadingDigits(s);
    assert AllDigits(s) ==> k == |s| && s[..k] == s;
    if k == 0 then None else Some(ParseDigits(s[..k]))
  }

  /** A digit of base 16, in either case. */
  predicate IsHexDigit(c: char) {
    IsDigit(c) || 'a' <= c <= 'f' || 'A' <= c <= 'F'
  }

  predicate AllHexDigits(s: string) {
    forall i :: 0 <= i < |s| ==> IsHexDigit(s[i])
  }

  function HexDigitValue(c: char): (d: nat)
    requires IsHexDigit(c)
    ensures d < 16
    ensures IsDigit(c) ==> d == DigitValue(c)
  {
    if IsDigit(c) then DigitValue(c)
    else if 'a' <= c <= 'f' then (c as int) - ('a' as int) + 10
    else (c as int) - ('A' as int) + 10
  }

  /** The value of a string of hexadecimal digits. */
  function ParseHexDigits(s: string): nat
    requires AllHexDigits(s)
  {
    if s == [] then 0 else ParseHexDigits(s[..|s| - 1]) * 16 + HexDigitValue(s[|s| - 1])
  }

  /** Number of leading hexadecimal digits of `s`. */
  function LeadingHexDigits(s: string): (k: nat)
    ensures k <= |s|
    ensures AllHexDigits(s[..k])
    ensures k < |s| ==> !IsHexDigit(s[k])
  {
    if s == [] || !IsHexDigit(s[0]) then 0
    else
      var k := 1 + LeadingHexDigits(s[1..]);
      assert s[..k] == [s[0]] + s[1..][..k - 1];
      k
  }

  /** The value of the leading run of hexadecimal digits, `None` (NaN) when there is none. */
  function ParseLeadingHex(s: string): (r: Option<nat>)
    ensures r.None? <==> s == [] || !IsHexDigit(s[0])
    ensures AllHexDigits(s) && s != [] ==> r == Some(ParseHexDigits(s))
  {
    var k := LeadingHexDigits(s);
    assert AllHexDigits(s) ==> k == |s| && s[..k] == s;
    if k == 0 then None else Some(ParseHexDigits(s[..k]))
  }

  /** `0x` or `0X`: with no radix given, `parseInt` then reads base 16. */
  predicate HexPrefixed(t: string) {
    |t| >= 2 && t[0] == '0' && (t[1] == 'x' || t[1] == 'X')
  }

  /** The text after an optional leading sign. */
  function Unsigned(s: string): (t: string)
    ensures |t| <= |s|
  {
    if s != [] && (s[0] == '-' || s[0] == '+') then s[1..] else s
  }

  /**
   * Unsigned text on which `parseInt` finds a number: a hexadecimal digit
   * after a `0x` prefix, a decimal digit first otherwise.
   */
  predicate NumberStart(t: string) {
    if HexPrefixed(t) then |t| > 2 && IsHexDigit(t[2]) else t != [] && IsDigit(t[0])
  }

  /** `parseInt` after the sign: base 16 behind a `0x` prefix, else base 10. */
  function ParseMagnitude(t: string): (r: Option<nat>)
    ensures r.Some? <==> NumberStart(t)
    ensures AllDigits(t) && t != [] ==> r == Some(ParseDigits(t))
    ensures HexPrefixed(t) && |t| > 2 && AllHexDigits(t[2..]) ==> r == Some(ParseHexDigits(t[2..]))
  {
    if HexPrefixed(t) then ParseLeadingHex(t[2..]) else ParseLeadingInt(t)
  }

  /**
   * `parseInt(s)` with no radix, on text without leading blanks: an optional
   * sign, then a hexadecimal number behind `0x`/`0X` or a decimal one;
   * `None` (NaN) when no digit of that base follows.
   */
  function ParseSignedInt(s: string): (r: Option<int>)
    ensures r.Some? <==> NumberStart(Unsigned(s))
    ensures AllDigits(s) && s != [] ==> r == Some(ParseDigits(s))
    ensures HexPrefixed(s) && |s| > 2 && AllHexDigits(s[2..]) ==> r == Some(ParseHexDigits(s[2..]))
    ensures r.Some? && s != [] && s[0] == '-' ==> r.value <= 0
    ensures r.Some? && !(s != [] && s[0] == '-') ==> r.value >= 0
  {
    match ParseMagnitude(Unsigned(s))
    case None => None
    case Some(n) => if s != [] && s[0] == '-' then Some(0 - n as int) else Some(n as int)
  }

  /** A `0x` prefix switches `parseInt` to base 16, after a sign too; a bare prefix is NaN. */
  lemma HexPrefixRead()
    ensures ParseSignedInt("0x19") == Some(25)
    ensures ParseSignedInt("-0x19") == Some(-25)
    ensures ParseSignedInt("0X1f") == Some(31)
    ensures ParseSignedInt("0x") == None
    ensures ParseSignedInt("0x1g") == Some(1)
  {
    assert "0x19"[2..] == "19";
    assert "19"[..1] == "1";
    assert ParseHexDigits("19") == 25;
    assert "1f"[..1] == "1";
    assert ParseHexDigits("1f") == 31;
    assert "-0x19"[1..] == "0x19";
    assert "0X1f"[2..] == "1f";
    assert "0x1g"[2..] == "1g";
    assert LeadingHexDigits("1g") == 1;
    assert "1g"[..1] == "1";
  }

  /** JavaScript's `s.substring(a, b)` for `a <= b`: indices are clamped to the length. */
  function Substring(s: string, a: nat, b: nat): (r: string)
    requires a <= b
    ensures |r| == if b <= |s| then b - a else if a <= |s| then |s| - a else 0
    ensures forall i :: 0 <= i < |r| ==> r[i] == s[a + i]
  {
    var lo := if a <= |s| then a else |s|;
    var hi := if b <= |s| then b else |s|;
    s[lo..hi]
  }
}
