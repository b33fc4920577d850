/**
 * Numerals: `Number.prototype.toString()` on non-negative integers, `padStart(2, '0')`,
 * and the global `parseInt` called without a radix.
 */
module Decimal {
  import opened Wrappers
  import Text

  function DigitChar(d: nat): (c: char)
    requires d < 10
    ensures '0' <= c <= '9'
  {
    ('0' as int + d) as char
  }

  /** The value of `c` as a digit in radixes up to 36; 36 for a character that is no digit. */
  function DigitValue(c: char): (v: nat)
    ensures v <= 36
  {
    if '0' <= c <= '9' then c as int - '0' as int
    else if 'a' <= c <= 'z' then c as int - 'a' as int + 10
    else if 'A' <= c <= 'Z' then c as int - 'A' as int + 10
    else 36
  }

  predicate IsDigitOf(c: char, radix: nat)
  {
    DigitValue(c) < radix
  }

  predicate AllDigits(s: string, radix: nat)
  {
    forall i :: 0 <= i < |s| ==> IsDigitOf(s[i], radix)
  }

  /** The value of a numeral, most significant digit first. */
  function NumeralValue(s: string, radix: nat): nat
    requires AllDigits(s, radix)
  {
    if s == [] then 0 else NumeralValue(s[..|s| - 1], radix) * radix + DigitValue(s[|s| - 1])
  }

  /** `n.toString()`: the shortest decimal numeral of `n`. */
  function NatToString(n: nat): (r: string)
    ensures |r| >= 1
    ensures AllDigits(r, 10)
    ensures forall i :: 0 <= i < |r| ==> '0' <= r[i] <= '9'
    ensures n < 10 <==> |r| == 1
    ensures n >= 10 ==> r[0] != '0'
  {
    if n < 10 then [DigitChar(n)] else NatToString(n / 10) + [DigitChar(n % 10)]
  }

  /** Reading back the numeral `NatToString` writes gives the number again. */
  lemma {:induction false} NatToStringValue(n: nat)
    ensures NumeralValue(NatToString(n), 10) == n
  {
    if n >= 10 {
      var s := NatToString(n);
      assert s[..|s| - 1] == NatToString(n / 10);
      NatToStringValue(n / 10);
    }
  }

  /** Leading zeros do not change the value of a decimal numeral. */
  lemma {:induction false} LeadingZeroValue(s: string)
    requires AllDigits(s, 10)
    ensures AllDigits("0" + s, 10) && NumeralValue("0" + s, 10) == NumeralValue(s, 10)
  {
    if s != [] {
      var t := "0" + s;
      assert t[..|t| - 1] == "0" + s[..|s| - 1];
      LeadingZeroValue(s[..|s| - 1]);
    }
  }

  /** `n.toString().padStart(2, '0')`. */
  function Pad2(n: nat): (r: string)
    ensures |r| == if n < 100 then 2 else |NatToString(n)|
    ensures AllDigits(r, 10) && NumeralValue(r, 10) == n
  {
    NatToStringValue(n);
    var digits := NatToString(n);
    if |digits| < 2 then (LeadingZeroValue(digits); "0" + digits) else digits
  }

  /** The longest prefix of `s` made of radix-`radix` digits. */
  function DigitPrefix(s: string, radix: nat): (r: string)
    ensures |r| <= |s| && r == s[..|r|]
    ensures AllDigits(r, radix)
    ensures |r| < |s| ==> !IsDigitOf(s[|r|], radix)
  {
    if s == [] || !IsDigitOf(s[0], radix) then [] else [s[0]] + DigitPrefix(s[1..], radix)
  }

  /**
   * `parseInt(s)` with no radix: skip leading white space, read an optional sign, then an
   * unsigned numeral. None is NaN. Negative zero is not distinguished from zero.
   */
  function ParseInt(s: string): (r: Option<int>)
    ensures Text.IsBlank(s) ==> r.None?
    ensures var t := Text.TrimStart(s);
      t != [] && t[0] != '-' && t[0] != '+' && !IsDigitOf(t[0], 10) ==> r.None?
    ensures var t := Text.TrimStart(s);
      r.Some? && r.value < 0 ==> t != [] && t[0] == '-'
  {
    ParseSigned(Text.TrimStart(s))
  }

  /** An optional sign, then an unsigned numeral, at the start of `t`. */
  function ParseSigned(t: string): (r: Option<int>)
    ensures t == [] || (t[0] != '-' && t[0] != '+' && !IsDigitOf(t[0], 10)) ==> r.None?
    ensures r.Some? && r.value < 0 ==> t != [] && t[0] == '-'
  {
    if t != [] && t[0] == '-' then
      match ParseUnsigned(t[1..])
      case None => None
      case Some(v) => Some(-(v as int))
    else if t != [] && t[0] == '+' then Widen(ParseUnsigned(t[1..]))
    else Widen(ParseUnsigned(t))
  }

  function Widen(v: Option<nat>): Option<int>
  {
    match v
    case None => None
    case Some(n) => Some(n)
  }

  predicate HasHexPrefix(u: string)
  {
    |u| >= 2 && u[0] == '0' && (u[1] == 'x' || u[1] == 'X')
  }

  /** A "0x"/"0X" prefix selects radix 16, anything else radix 10. */
  function ParseUnsigned(u: string): Option<nat>
  {
    if HasHexPrefix(u) then ParseDigits(u[2..], 16) else ParseDigits(u, 10)
  }

  /** The longest run of digits at the start of `s`; None (NaN) when there is none. */
  function ParseDigits(s: string, radix: nat): Option<nat>
  {
    var digits := DigitPrefix(s, radix);
    if digits == [] then None else Some(NumeralValue(digits, radix))
  }

  /**
   * `parseInt` reads back any decimal numeral `toString` writes, and stops at the first
   * character after it that is neither a digit nor a letter (a letter could make "0x" a
   * hexadecimal prefix).
   */
  lemma ParseIntOfNumeral(n: nat, rest: string)
    requires rest == [] || DigitValue(rest[0]) == 36
    ensures ParseInt(NatToString(n) + rest) == Some(n)
  {
    var digits := NatToString(n);
    var s := digits + rest;
    assert s[0] == digits[0];
    assert |s| >= 2 ==> DigitValue(s[1]) != DigitValue('x') by {
      if |digits| >= 2 {
        assert s[1] == digits[1];
      } else if |s| >= 2 {
        assert s[1] == rest[0];
      }
    }
    DigitPrefixOfDigits(digits, rest, 10);
    ParseIntOfUnsigned(s);
    NatToStringValue(n);
  }

  /** A string that starts with a decimal digit and no "0x" prefix is read as decimal. */
  lemma ParseIntOfUnsigned(s: string)
    requires s != [] && '0' <= s[0] <= '9'
    requires |s| >= 2 ==> DigitValue(s[1]) != DigitValue('x')
    ensures ParseInt(s) == Some(NumeralValue(DigitPrefix(s, 10), 10))
  {
    ParseIntOfDigitStart(s);
    ParseUnsignedOfDecimal(s);
  }

  /** A decimal digit not followed by "x" or "X" starts a decimal numeral. */
  lemma ParseUnsignedOfDecimal(s: string)
    requires s != [] && '0' <= s[0] <= '9'
    requires |s| >= 2 ==> DigitValue(s[1]) != DigitValue('x')
    ensures ParseUnsigned(s) == Some(NumeralValue(DigitPrefix(s, 10), 10))
  {
    assert !HasHexPrefix(s);
    assert IsDigitOf(s[0], 10);
    assert DigitPrefix(s, 10) != [];
  }

  /** Text starting with a decimal digit has no white space to skip and no sign. */
  lemma ParseIntOfDigitStart(s: string)
    requires s != [] && '0' <= s[0] <= '9'
    ensures ParseInt(s) == Widen(ParseUnsigned(s))
  {
    assert !Text.IsWhitespace(s[0]);
    assert Text.TrimStart(s) == s;
  }

  lemma {:induction false} DigitPrefixOfDigits(digits: string, rest: string, radix: nat)
    requires AllDigits(digits, radix)
    requires rest == [] || !IsDigitOf(rest[0], radix)
    ensures DigitPrefix(digits + rest, radix) == digits
  {
    if digits != [] {
      assert (digits + rest)[1..] == digits[1..] + rest;
      DigitPrefixOfDigits(digits[1..], rest, radix);
    } else {
      assert digits + rest == rest;
    }
  }
}
