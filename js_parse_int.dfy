/**
 * JavaScript's global `parseInt(string)` called without a radix, as the form
 * uses it on the numeric fields: skip leading white space, read an optional sign,
 * switch to base 16 after a `0x`/`0X` prefix, then read the longest run of digits
 * of the base; no digits gives NaN. Results are exact integers here (JavaScript
 * rounds values beyond 2^53 to the nearest double, and writes -0 for "-0").
 */
module JsParseInt {

  /** A number produced by `parseInt`: an integer, or NaN. */
  datatype JsInt = Integer(value: int) | NaN

  /** StrWhiteSpaceChar of ECMAScript: white space and line terminators. */
  const WhiteSpaceChars: set<char> := {
    // tab, line feed, vertical tab, form feed, carriage return, space
    '\t', '\n', '\U{B}', '\U{C}', '\r', ' ',
    // no-break space, ogham space mark
    '\U{A0}', '\U{1680}',
    // en quad, em quad, en space, em space, three-, four- and six-per-em spaces,
    // figure space, punctuation space, thin space, hair space
    '\U{2000}', '\U{2001}', '\U{2002}', '\U{2003}', '\U{2004}', '\U{2005}',
    '\U{2006}', '\U{2007}', '\U{2008}', '\U{2009}', '\U{200A}',
    // line separator, paragraph separator
    '\U{2028}', '\U{2029}',
    // narrow no-break space, medium mathematical space, ideographic space,
    // zero-width no-break space
    '\U{202F}', '\U{205F}', '\U{3000}', '\U{FEFF}'
  }

  predicate IsWhiteSpace(c: char)
  {
    c in WhiteSpaceChars
  }

  /** `c` is a decimal digit, or also a hexadecimal one when `hex` holds. */
  predicate IsDigit(c: char, hex: bool)
  {
    '0' <= c <= '9' || (hex && ('a' <= c <= 'f' || 'A' <= c <= 'F'))
  }

  /** The value of a digit character (0 for any other character, which never occurs here). */
  function DigitValue(c: char): (d: nat)
    ensures d < 16
  {
    if '0' <= c <= '9' then c as int - '0' as int
    else if 'a' <= c <= 'f' then c as int - 'a' as int + 10
    else if 'A' <= c <= 'F' then c as int - 'A' as int + 10
    else 0
  }

  /** The longest prefix of `s` made of digits. */
  function DigitPrefix(s: string, hex: bool): (ds: string)
    ensures |ds| <= |s| && ds == s[..|ds|]
    ensures forall i :: 0 <= i < |ds| ==> IsDigit(ds[i], hex)
    ensures |ds| < |s| ==> !IsDigit(s[|ds|], hex)
  {
    if s != [] && IsDigit(s[0], hex) then [s[0]] + DigitPrefix(s[1..], hex) else []
  }

  /** The value of a string of digits, most significant first, in base 16 or 10. */
  function DigitsValue(ds: string, hex: bool): nat
  {
    if ds == [] then 0
    else
      var high := DigitsValue(ds[..|ds| - 1], hex);
      (if hex then high * 16 else high * 10) + DigitValue(ds[|ds| - 1])
  }

  /**
   * The part of `parseInt` after the sign: a `0x` or `0X` prefix selects base 16,
   * and the longest run of digits that follows is the magnitude.
   */
  function ParseUnsigned(u: string): (r: JsInt)
    ensures r.Integer? ==> r.value >= 0 && u != [] && '0' <= u[0] <= '9'
  {
    var hex := |u| >= 2 && u[0] == '0' && (u[1] == 'x' || u[1] == 'X');
    var digits := DigitPrefix(if hex then u[2..] else u, hex);
    if digits == [] then NaN else Integer(DigitsValue(digits, hex))
  }

  /** Unary minus on a `parseInt` result; NaN stays NaN. */
  function Negate(x: JsInt): JsInt
  {
    match x
    case NaN => NaN
    case Integer(v) => Integer(-v)
  }

  /**
   * `parseInt(s)`: leading white space is skipped, then an optional sign is read.
   * A number needs a decimal digit in the text, and a negative one a minus sign.
   */
  function ParseInt(s: string): (r: JsInt)
    ensures r.Integer? ==> exists i | 0 <= i < |s| :: '0' <= s[i] <= '9'
    ensures r.Integer? && r.value < 0 ==> exists i | 0 <= i < |s| :: s[i] == '-'
  {
    if s != [] && IsWhiteSpace(s[0]) then ParseInt(s[1..])
    else if s != [] && s[0] == '-' then Negate(ParseUnsigned(s[1..]))
    else if s != [] && s[0] == '+' then ParseUnsigned(s[1..])
    else ParseUnsigned(s)
  }

  /** The decimal numeral of `n`, without leading zeros. */
  function DecimalString(n: nat): (s: string)
    ensures |s| >= 1
    ensures forall i :: 0 <= i < |s| ==> '0' <= s[i] <= '9'
    ensures n < 10 <==> |s| == 1
  {
    if n < 10 then ['0' + n as char]
    else DecimalString(n / 10) + ['0' + (n % 10) as char]
  }

  /** Reading a decimal numeral back gives the number it was written from. */
  lemma {:induction false} DecimalValue(n: nat)
    ensures DigitsValue(DecimalString(n), false) == n
  {
    var s := DecimalString(n);
    if n >= 10 {
      DecimalValue(n / 10);
      assert s[..|s| - 1] == DecimalString(n / 10);
    }
  }

  /** The digit run of a numeral followed by a non-digit is the numeral itself. */
  lemma {:induction false} DigitPrefixOfNumeral(ds: string, rest: string, hex: bool)
    requires forall i :: 0 <= i < |ds| ==> IsDigit(ds[i], hex)
    requires rest == [] || !IsDigit(rest[0], hex)
    ensures DigitPrefix(ds + rest, hex) == ds
  {
    if ds != [] {
      assert (ds + rest)[1..] == ds[1..] + rest;
      DigitPrefixOfNumeral(ds[1..], rest, hex);
    } else {
      assert ds + rest == rest;
    }
  }

  /**
   * `parseInt` reads back the decimal numeral of `n` and stops at the first
   * character that is not a digit. After a lone "0" an `x` or `X` would start a
   * hexadecimal numeral instead, so it is excluded.
   */
  lemma ParseIntReadsDecimal(n: nat, rest: string)
    requires rest == [] || !('0' <= rest[0] <= '9')
    requires n == 0 ==> rest == [] || (rest[0] != 'x' && rest[0] != 'X')
    ensures ParseInt(DecimalString(n) + rest) == Integer(n)
  {
    UnsignedNumeral(n, rest);
    UnsignedStart(DecimalString(n) + rest);
  }

  /** The same with a leading minus sign: `parseInt` gives the negated number. */
  lemma ParseIntReadsNegativeDecimal(n: nat, rest: string)
    requires rest == [] || !('0' <= rest[0] <= '9')
    requires n == 0 ==> rest == [] || (rest[0] != 'x' && rest[0] != 'X')
    ensures ParseInt("-" + DecimalString(n) + rest) == Integer(-(n as int))
  {
    UnsignedNumeral(n, rest);
    MinusStart(DecimalString(n), rest);
  }

  /**
   * Text that starts with anything other than white space, a sign or a digit reads
   * as NaN. A number control can hold such text (".5"), so the payload object then
   * holds NaN for that count.
   */
  lemma ParseIntRejectsNonNumeral(s: string)
    requires s != [] && !IsWhiteSpace(s[0]) && s[0] != '-' && s[0] != '+' && !('0' <= s[0] <= '9')
    ensures ParseInt(s) == NaN
  {
    assert DigitPrefix(s, false) == [];
  }

  /** After a leading minus sign `parseInt` negates what follows it. */
  lemma MinusStart(d: string, rest: string)
    ensures ParseInt("-" + d + rest) == Negate(ParseUnsigned(d + rest))
  {
    var s := "-" + d + rest;
    assert s[0] == '-' && s[1..] == d + rest;
  }

  /** A string that starts with a decimal digit has no white space or sign to skip. */
  lemma UnsignedStart(u: string)
    requires u != [] && '0' <= u[0] <= '9'
    ensures ParseInt(u) == ParseUnsigned(u)
  {
    assert !IsWhiteSpace(u[0]);
  }

  /** The part of both lemmas above after any sign. */
  lemma UnsignedNumeral(n: nat, rest: string)
    requires rest == [] || !('0' <= rest[0] <= '9')
    requires n == 0 ==> rest == [] || (rest[0] != 'x' && rest[0] != 'X')
    ensures var u := DecimalString(n) + rest;
      u != [] && '0' <= u[0] <= '9' && ParseUnsigned(u) == Integer(n)
  {
    var d := DecimalString(n);
    var u := d + rest;
    assert u[0] == d[0];
    var hex := |u| >= 2 && u[0] == '0' && (u[1] == 'x' || u[1] == 'X');
    if |d| >= 2 {
      assert u[1] == d[1];
    } else if n != 0 {
      assert d[0] != '0';
    }
    assert !hex;
    DigitPrefixOfNumeral(d, rest, false);
    DecimalValue(n);
    assert DigitPrefix(u, false) == d;
  }

}
