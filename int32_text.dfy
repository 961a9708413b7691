/** 32-bit signed integers and their decimal text: `int.TryParse` for reading
    a number and `Int32.ToString` for writing one. */
module Int32Text {
  import opened Wrappers
  import opened Text

  const Int32Min: int := -0x8000_0000
  const Int32Max: int := 0x7FFF_FFFF

  /** The values of C#'s `int`. */
  type int32 = x: int | -0x8000_0000 <= x <= 0x7FFF_FFFF

  /** The white space `NumberStyles.Integer` lets stand before and after a
      number: U+0009 to U+000D and U+0020. */
  const NumberWhite: set<char> := {'\t', '\n', '\U{000B}', '\U{000C}', '\r', ' '}

  predicate IsDigit(c: char) {
    '0' <= c <= '9'
  }

  /** Every character of `s` is a decimal digit (stated from the end, the
      way `DigitsValue` reads a numeral). */
  predicate AllDigits(s: string)
    decreases |s|
  {
    s == [] || (AllDigits(s[..|s| - 1]) && IsDigit(s[|s| - 1]))
  }

  lemma {:induction false} AllDigitsAt(s: string)
    requires AllDigits(s)
    ensures forall i :: 0 <= i < |s| ==> IsDigit(s[i])
    decreases |s|
  {
    if s != [] {
      AllDigitsAt(s[..|s| - 1]);
      assert forall i :: 0 <= i < |s| - 1 ==> s[i] == s[..|s| - 1][i];
    }
  }

  lemma AllDigitsFirst(s: string)
    ensures s != [] && AllDigits(s) ==> IsDigit(s[0])
  {
    if s != [] && AllDigits(s) {
      AllDigitsAt(s);
    }
  }

  function DigitValue(c: char): nat
    requires IsDigit(c)
  {
    c as int - '0' as int
  }

  /** The value of a string of decimal digits, most significant first. */
  function DigitsValue(s: string): nat
    requires AllDigits(s)
    decreases |s|
  {
    if s == [] then 0 else 10 * DigitsValue(s[..|s| - 1]) + DigitValue(s[|s| - 1])
  }

  function DigitChar(d: nat): (c: char)
    requires d < 10
    ensures IsDigit(c) && DigitValue(c) == d
  {
    ('0' as int + d) as char
  }

  /** The shortest decimal numeral of `n`: one or more digits whose value is
      `n`. */
  function NatToString(n: nat): (s: string)
    ensures |s| >= 1 && AllDigits(s) && DigitsValue(s) == n
    ensures IsDigit(s[0]) && (n >= 10 ==> s[0] != '0')
    decreases n
  {
    if n < 10 then [DigitChar(n)]
    else
      var front := NatToString(n / 10);
      var s := front + [DigitChar(n % 10)];
      assert s[..|s| - 1] == front;
      assert s[0] == front[0];
      s
  }

  /** `n.ToString()`: a minus sign before the digits of a negative number. */
  function IntToString(n: int): string {
    if n < 0 then "-" + NatToString(-n) else NatToString(n)
  }

  /** An optional sign followed by one or more digits, as a mathematical
      integer; anything else has no value. */
  function NumeralValue(t: string): Option<int> {
    if |t| >= 1 && (t[0] == '-' || t[0] == '+') then
      var digits := t[1..];
      if digits != [] && AllDigits(digits) then
        var v: int := if t[0] == '-' then 0 - DigitsValue(digits) as int else DigitsValue(digits);
        Some(v)
      else None
    else if t != [] && AllDigits(t) then Some(DigitsValue(t))
    else None
  }

  /** `int.TryParse(s, out v)`: `Some(v)` when `s`, after white space at either
      end, is an optionally signed decimal numeral whose value fits in 32 bits;
      `None` otherwise (empty text, any other character, overflow). */
  function TryParseInt(s: string): Option<int32> {
    match NumeralValue(Trim(s, NumberWhite))
    case Some(v) => if Int32Min <= v <= Int32Max then Some(v) else None
    case None => None
  }

  /** The text `IntToString` writes is read back as the same integer, whatever
      its size. */
  lemma NumeralOfFormat(n: int)
    ensures NumeralValue(Trim(IntToString(n), NumberWhite)) == Some(n)
  {
    var s := IntToString(n);
    assert s[0] !in NumberWhite && s[|s| - 1] !in NumberWhite;
    TrimUntouched(s, NumberWhite);
    if n < 0 {
      assert s[1..] == NatToString(-n);
    }
  }

  /** The text of an integer is digits after an optional leading minus sign,
      and it ends with a digit. */
  lemma FormatChars(n: int)
    ensures var s := IntToString(n);
      && |s| >= 1 && IsDigit(s[|s| - 1]) && (IsDigit(s[0]) || s[0] == '-')
      && forall i :: 0 <= i < |s| ==> IsDigit(s[i]) || (i == 0 && s[i] == '-')
  {
    var s := IntToString(n);
    if n < 0 {
      var digits := NatToString(-n);
      AllDigitsAt(digits);
      assert s == "-" + digits;
      assert forall i :: 1 <= i < |s| ==> s[i] == digits[i - 1];
    } else {
      AllDigitsAt(s);
    }
  }

  /** Writing an `int` and parsing the text back gives the same `int`. */
  lemma FormatThenParse(n: int32)
    ensures TryParseInt(IntToString(n)) == Some(n)
  {
    NumeralOfFormat(n);
  }

  /** Numerals outside the 32-bit range are refused, as `int.TryParse`
      refuses them on overflow. */
  lemma ParseRejectsOverflow(n: int)
    requires n < Int32Min || Int32Max < n
    ensures TryParseInt(IntToString(n)) == None
  {
    NumeralOfFormat(n);
  }

  /** Text without a single digit does not parse, the empty text included. */
  lemma ParseRejectsNonNumerals(t: string)
    requires forall i :: 0 <= i < |t| ==> !IsDigit(t[i])
    ensures TryParseInt(t) == None
  {
    var u := Trim(t, NumberWhite);
    TrimSpec(t, NumberWhite);
    var lead := |t| - |TrimStart(t, NumberWhite)|;
    assert forall i :: 0 <= i < |u| ==> u[i] == t[lead + i];
    AllDigitsFirst(u);
    if |u| >= 2 {
      assert u[1..][0] == u[1];
      AllDigitsFirst(u[1..]);
    }
  }
}
