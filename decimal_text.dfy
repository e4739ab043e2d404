/**
 * Decimal text of integers, as the spectrogram's popup menu uses it: the menu
 * checks the FFT-size item whose text is `std::to_string(fftSize)`, and the
 * selection handler reads the chosen item's text back with `atoi`.
 */
module DecimalText {

  predicate IsDigit(c: char) {
    '0' <= c <= '9'
  }

  /** The characters `isspace` accepts in the C locale. */
  predicate IsSpace(c: char) {
    c == ' ' || c == '\t' || c == '\n' || c == '\r' || c == '\U{B}' || c == '\U{C}'
  }

  predicate AllDigits(s: string) {
    forall i :: 0 <= i < |s| ==> IsDigit(s[i])
  }

  function DigitChar(d: nat): (c: char)
    requires d < 10
    ensures IsDigit(c) && c as int - '0' as int == d
  {
    ('0' as int + d) as char
  }

  function DigitValue(c: char): (d: nat)
    requires IsDigit(c)
    ensures d < 10
  {
    c as int - '0' as int
  }

  /** The decimal digits of n, most significant first, without leading zeros. */
  function Decimal(n: nat): (s: string)
    ensures |s| >= 1 && AllDigits(s)
    ensures s[0] == '0' <==> n == 0
    ensures |s| > 1 ==> s[0] != '0'
  {
    if n < 10 then [DigitChar(n)] else Decimal(n / 10) + [DigitChar(n % 10)]
  }

  /** `std::to_string` of an `int`. */
  function IntToString(n: int): (s: string)
    ensures n >= 0 ==> |s| >= 1 && AllDigits(s) && (|s| > 1 ==> s[0] != '0')
    ensures n < 0 ==> |s| >= 2 && s[0] == '-' && AllDigits(s[1..]) && s[1] != '0'
  {
    if n < 0 then "-" + Decimal(-n) else Decimal(n)
  }

  /** The value of a string of decimal digits, most significant first. */
  function DigitsValue(s: string): (v: nat)
    requires AllDigits(s)
  {
    if s == [] then 0 else DigitsValue(s[..|s| - 1]) * 10 + DigitValue(s[|s| - 1])
  }

  /** The longest prefix of s made of digits. */
  function LeadingDigits(s: string): (p: string)
    ensures |p| <= |s| && AllDigits(p)
  {
    if s != [] && IsDigit(s[0]) then [s[0]] + LeadingDigits(s[1..]) else []
  }

  /**
   * C's `atoi`: skip leading white space, read an optional sign, then as many
   * digits as follow. Text without digits reads as 0.
   */
  function Atoi(s: string): (v: int)
  {
    if s != [] && IsSpace(s[0]) then Atoi(s[1..])
    else if s != [] && s[0] == '-' then -(DigitsValue(LeadingDigits(s[1..])) as int)
    else if s != [] && s[0] == '+' then DigitsValue(LeadingDigits(s[1..]))
    else DigitsValue(LeadingDigits(s))
  }

  /** Reading the digits of Decimal(n) gives n back. */
  lemma {:induction false} DigitsOfDecimal(n: nat)
    ensures DigitsValue(Decimal(n)) == n
    decreases n
  {
    var s := Decimal(n);
    if n < 10 {
      assert s[..|s| - 1] == [];
    } else {
      DigitsOfDecimal(n / 10);
      assert s[..|s| - 1] == Decimal(n / 10);
    }
  }

  /** The longest digit prefix of digits + rest is digits, when rest does not start with a digit. */
  lemma {:induction false} LeadingDigitsOfPrefix(digits: string, rest: string)
    requires AllDigits(digits) && (rest == [] || !IsDigit(rest[0]))
    ensures LeadingDigits(digits + rest) == digits
    decreases |digits|
  {
    if digits != [] {
      assert (digits + rest)[1..] == digits[1..] + rest;
      LeadingDigitsOfPrefix(digits[1..], rest);
      assert [digits[0]] + digits[1..] == digits;
    }
  }

  /** `atoi` skips leading white space. */
  lemma {:induction false} AtoiSkipsSpace(ws: string, s: string)
    requires forall k :: 0 <= k < |ws| ==> IsSpace(ws[k])
    ensures Atoi(ws + s) == Atoi(s)
    decreases |ws|
  {
    if ws != [] {
      assert (ws + s)[0] == ws[0] && (ws + s)[1..] == ws[1..] + s;
      AtoiSkipsSpace(ws[1..], s);
    } else {
      assert ws + s == s;
    }
  }

  /** After the white space, a run of digits ended by a non-digit (or the end) reads as its value. */
  lemma AtoiReadsDigits(digits: string, rest: string)
    requires digits != [] && AllDigits(digits) && (rest == [] || !IsDigit(rest[0]))
    ensures Atoi(digits + rest) == DigitsValue(digits)
  {
    var s := digits + rest;
    assert s[0] == digits[0];
    LeadingDigitsOfPrefix(digits, rest);
  }

  /**
   * A sign followed by a run of digits ended by a non-digit (or the end) reads
   * as the value of the digits, negated after a minus sign; no digits read as 0.
   */
  lemma AtoiReadsSigned(sign: char, digits: string, rest: string)
    requires sign == '-' || sign == '+'
    requires AllDigits(digits) && (rest == [] || !IsDigit(rest[0]))
    ensures Atoi([sign] + digits + rest) ==
      if sign == '-' then -(DigitsValue(digits) as int) else DigitsValue(digits)
  {
    var s := [sign] + (digits + rest);
    assert [sign] + digits + rest == s;
    assert s[0] == sign && !IsSpace(s[0]);
    assert s[1..] == digits + rest;
    LeadingDigitsOfPrefix(digits, rest);
  }

  /** `atoi` reads the decimal text of a natural number back as that number. */
  lemma AtoiOfDecimal(n: nat)
    ensures Atoi(Decimal(n)) == n
  {
    var d := Decimal(n);
    assert d + [] == d;
    AtoiReadsDigits(d, []);
    DigitsOfDecimal(n);
  }

  /** `atoi` reads a minus sign followed by the decimal text of n as -n. */
  lemma AtoiOfNegatedDecimal(n: nat)
    ensures Atoi("-" + Decimal(n)) == -(n as int)
  {
    var d := Decimal(n);
    assert "-" + d + [] == "-" + d;
    AtoiReadsSigned('-', d, []);
    DigitsOfDecimal(n);
  }

  /** `atoi(std::to_string(n).c_str()) == n` for every integer n. */
  lemma AtoiOfIntToString(n: int)
    ensures Atoi(IntToString(n)) == n
  {
    if n < 0 {
      AtoiOfNegatedDecimal(-n);
    } else {
      AtoiOfDecimal(n);
    }
  }
}
