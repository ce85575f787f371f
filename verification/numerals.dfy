/**
 * The two integer parsers the lookup command relies on, `Convert.ToInt32(s, 16)`
 * and `int.TryParse(s)`, written as functions that return None where the .NET
 * call throws or reports failure, together with the digit formatter that is
 * their inverse.
 */
module Numerals {
  import opened Wrappers

  const Int32Min: int := -0x8000_0000
  const Int32Max: int := 0x7FFF_FFFF
  const UInt32Limit: int := 0x1_0000_0000

  /** The two bases in use: decimal and hexadecimal. */
  type Radix = b: nat | b == 10 || b == 16 witness 10

  predicate IsDigit(c: char, radix: Radix) {
    || '0' <= c <= '9'
    || (radix == 16 && ('a' <= c <= 'f' || 'A' <= c <= 'F'))
  }

  predicate AllDigits(s: string, radix: Radix) {
    forall i | 0 <= i < |s| :: IsDigit(s[i], radix)
  }

  function DigitValue(c: char, radix: Radix): (v: nat)
    requires IsDigit(c, radix)
    ensures v < radix
  {
    if '0' <= c <= '9' then c as int - '0' as int
    else if 'a' <= c <= 'f' then c as int - 'a' as int + 10
    else c as int - 'A' as int + 10
  }

  /** The number a digit string denotes, most significant digit first. */
  function Value(s: string, radix: Radix): nat
    requires AllDigits(s, radix)
  {
    if s == [] then 0 else Value(s[..|s| - 1], radix) * radix + DigitValue(s[|s| - 1], radix)
  }

  function DigitChar(d: nat, radix: Radix): (c: char)
    requires d < radix
    ensures IsDigit(c, radix) && DigitValue(c, radix) == d
  {
    if d < 10 then ('0' as int + d) as char else ('A' as int + d - 10) as char
  }

  /** The shortest digit string of n (upper-case letters in base 16). */
  function Digits(n: nat, radix: Radix): (s: string)
    ensures |s| > 0 && AllDigits(s, radix)
    ensures |s| > 1 ==> s[0] != '0'
  {
    if n < radix then [DigitChar(n, radix)]
    else Digits(n / radix, radix) + [DigitChar(n % radix, radix)]
  }

  /** The .NET "X" format of a non-negative number. */
  function HexString(n: nat): string {
    Digits(n, 16)
  }

  /** The .NET default format of an integer: a minus sign, then decimal digits. */
  function DecimalString(n: int): string {
    if n < 0 then "-" + Digits(-n, 10) else Digits(n, 10)
  }

  /** An unsigned 32-bit pattern read as a two's-complement `int`. */
  function ToInt32(u: nat): (i: int)
    requires u < UInt32Limit
    ensures Int32Min <= i <= Int32Max
    ensures i == u || i == u - UInt32Limit
  {
    if u <= Int32Max then u else u - UInt32Limit
  }

  /** `Convert.ToInt32` skips one leading "+" in every base; any other sign is refused later. */
  function StripPlus(s: string): (t: string)
    ensures |t| <= |s| && t == s[|s| - |t|..]
    ensures |s| > 0 && s[0] == '+' <==> |t| < |s|
  {
    if |s| > 0 && s[0] == '+' then s[1..] else s
  }

  /** After the sign, `Convert.ToInt32` in base 16 accepts an optional "0x" or "0X" prefix. */
  function StripHexPrefix(s: string): (t: string)
    ensures |t| <= |s| && t == s[|s| - |t|..]
  {
    if |s| >= 2 && s[0] == '0' && (s[1] == 'x' || s[1] == 'X') then s[2..] else s
  }

  /**
   * `Convert.ToInt32(s, 16)`, None where it throws: after an optional "+" and an
   * optional "0x"/"0X", no digits, a character that is not a hex digit (white
   * space and "-" included), or a value that does not fit in 32 bits.
   * Values from 0x80000000 up come back negative.
   */
  function TryParseHex(s: string): (r: Option<int>)
    ensures r.Some? ==> Int32Min <= r.value <= Int32Max
    ensures r.Some? ==> |s| > 0 && IsDigit(s[|s| - 1], 16)
  {
    var digits := StripHexPrefix(StripPlus(s));
    if |digits| > 0 && AllDigits(digits, 16) && Value(digits, 16) < UInt32Limit then
      Some(ToInt32(Value(digits, 16)))
    else
      None
  }

  /**
   * `int.TryParse(s)` for the invariant culture, None where it returns false: an
   * optional sign, at least one decimal digit, and a value in the 32-bit range.
   */
  function TryParseInt(s: string): (r: Option<int>)
    ensures r.Some? ==> Int32Min <= r.value <= Int32Max
    ensures r.Some? ==> |s| > 0 && (s[0] == '-' || s[0] == '+' || IsDigit(s[0], 10))
  {
    var signed := |s| > 0 && (s[0] == '-' || s[0] == '+');
    var digits := if signed then s[1..] else s;
    if |digits| == 0 || !AllDigits(digits, 10) then None
    else
      var v: int := if s[0] == '-' then -(Value(digits, 10) as int) else Value(digits, 10);
      if Int32Min <= v <= Int32Max then Some(v) else None
  }

  /** Reading back the digits of n gives n. */
  lemma {:induction false} ValueOfDigits(n: nat, radix: Radix)
    ensures Value(Digits(n, radix), radix) == n
  {
    if n >= radix {
      var s := Digits(n, radix);
      assert s[..|s| - 1] == Digits(n / radix, radix);
      ValueOfDigits(n / radix, radix);
      assert Value(s, radix) == (n / radix) * radix + n % radix;
    }
  }

  /** Parsing the hex format of a 32-bit pattern gives back its signed reading. */
  lemma HexRoundTrip(n: nat)
    requires n < UInt32Limit
    ensures TryParseHex(HexString(n)) == Some(if n <= Int32Max then n else n - UInt32Limit)
  {
    var s := HexString(n);
    assert StripPlus(s) == s by {
      assert IsDigit(s[0], 16);
    }
    assert StripHexPrefix(s) == s by {
      if |s| >= 2 {
        assert IsDigit(s[1], 16);
      }
    }
    ValueOfDigits(n, 16);
  }

  /** A single leading "+" does not change what a hex text parses to. */
  lemma HexPlusSign(s: string)
    requires |s| == 0 || s[0] != '+'
    ensures TryParseHex("+" + s) == TryParseHex(s)
  {
    assert ("+" + s)[1..] == s;
  }

  /** A "+" before the hex format of a 32-bit pattern is skipped. */
  lemma SignedHexRoundTrip(n: nat)
    requires n < UInt32Limit
    ensures TryParseHex("+" + HexString(n)) == TryParseHex(HexString(n)) == Some(ToInt32(n))
  {
    var s := HexString(n);
    assert IsDigit(s[0], 16);
    HexPlusSign(s);
    HexRoundTrip(n);
  }

  /** Parsing the digits of a non-negative 32-bit integer gives it back. */
  lemma UnsignedDecimalRoundTrip(n: nat)
    requires n <= Int32Max
    ensures TryParseInt(Digits(n, 10)) == Some(n)
  {
    var s := Digits(n, 10);
    assert IsDigit(s[0], 10);
    ValueOfDigits(n, 10);
  }

  /** Parsing "-" and the digits of m gives back -m, down to the least 32-bit integer. */
  lemma NegativeDecimalRoundTrip(m: nat)
    requires 0 < m <= -Int32Min
    ensures TryParseInt("-" + Digits(m, 10)) == Some(-(m as int))
  {
    var s := "-" + Digits(m, 10);
    assert s[1..] == Digits(m, 10);
    ValueOfDigits(m, 10);
  }

  /** Parsing the decimal format of a 32-bit integer gives it back. */
  lemma DecimalRoundTrip(n: int)
    requires Int32Min <= n <= Int32Max
    ensures TryParseInt(DecimalString(n)) == Some(n)
  {
    if n < 0 {
      NegativeDecimalRoundTrip(-n);
    } else {
      UnsignedDecimalRoundTrip(n);
    }
  }
}
