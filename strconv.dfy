/** Go's `strconv.Atoi` on a 64-bit platform, the parse `SexString` relies on,
    with `strconv.Itoa` as its partner. */
module Strconv {
  import opened Types

  /** The range of Go's `int` on a 64-bit platform. */
  const MinInt: int := -0x8000_0000_0000_0000
  const MaxInt: int := 0x7FFF_FFFF_FFFF_FFFF

  predicate IsDigit(c: char) {
    '0' as int <= c as int <= '9' as int
  }

  /** A non-empty run of decimal digits. */
  predicate IsDigits(s: string) {
    s != [] && forall i :: 0 <= i < |s| ==> IsDigit(s[i])
  }

  function DigitValue(c: char): nat
    requires IsDigit(c)
  {
    c as int - '0' as int
  }

  /** The value of a run of decimal digits, read left to right. */
  function DigitsValue(s: string): nat
    requires forall i :: 0 <= i < |s| ==> IsDigit(s[i])
  {
    if s == [] then 0 else DigitsValue(s[..|s| - 1]) * 10 + DigitValue(s[|s| - 1])
  }

  /** The characters after an optional leading sign. */
  function Unsigned(s: string): string
    requires s != []
  {
    if s[0] == '+' || s[0] == '-' then s[1..] else s
  }

  /** `strconv.Atoi`: an optional sign, then decimal digits only (base 10
      admits no underscores), and the value must fit Go's `int`; anything
      else is an error, here `None`. */
  function Atoi(s: string): (r: Option<int>)
    ensures r.Some? ==> s != [] && IsDigits(Unsigned(s)) && MinInt <= r.value <= MaxInt
    ensures r.Some? ==>
      && s != [] && IsDigits(Unsigned(s))
      && DigitsValue(Unsigned(s)) == (if s[0] == '-' then -r.value else r.value)
    ensures s != [] && IsDigits(Unsigned(s)) ==>
      (DigitsValue(Unsigned(s)) <= (if s[0] == '-' then -MinInt else MaxInt) ==> r.Some?)
  {
    if s == [] then None
    else
      var digits := Unsigned(s);
      if !IsDigits(digits) then None
      else
        var n: int := if s[0] == '-' then -(DigitsValue(digits) as int) else DigitsValue(digits);
        if MinInt <= n <= MaxInt then Some(n) else None
  }

  function DigitChar(d: nat): (c: char)
    requires d < 10
    ensures IsDigit(c) && DigitValue(c) == d
  {
    ('0' as int + d) as char
  }

  /** The canonical decimal digits of `n`: no sign, no leading zero. */
  function DecimalString(n: nat): (s: string)
    ensures IsDigits(s) && DigitsValue(s) == n
    ensures s[0] == '0' ==> n == 0
  {
    if n < 10 then [DigitChar(n)]
    else
      var prefix := DecimalString(n / 10);
      var s := prefix + [DigitChar(n % 10)];
      assert s[..|s| - 1] == prefix;
      s
  }

  /** `strconv.Itoa`. */
  function Itoa(n: int): string {
    if n < 0 then "-" + DecimalString(-n) else DecimalString(n)
  }

  /** `n` zero characters. */
  function Zeros(n: nat): (s: string)
    ensures |s| == n && forall i :: 0 <= i < n ==> s[i] == '0'
  {
    seq(n, _ => '0')
  }

  /** Every `int` survives formatting and parsing back. */
  lemma AtoiItoa(n: int)
    requires MinInt <= n <= MaxInt
    ensures Atoi(Itoa(n)) == Some(n)
  {
    if n < 0 {
      var s := Itoa(n);
      assert s[1..] == DecimalString(-n);
    }
  }

  /** A leading zero does not change the value of a run of digits. */
  lemma {:induction false} DigitsValueLeadingZero(s: string)
    requires forall i :: 0 <= i < |s| ==> IsDigit(s[i])
    ensures DigitsValue("0" + s) == DigitsValue(s)
  {
    if s != [] {
      var t := "0" + s;
      assert t[..|t| - 1] == "0" + s[..|s| - 1];
      DigitsValueLeadingZero(s[..|s| - 1]);
    }
  }

  /** Any number of leading zeros does not change the value of a run of digits. */
  lemma {:induction false} DigitsValueLeadingZeros(k: nat, s: string)
    requires forall i :: 0 <= i < |s| ==> IsDigit(s[i])
    ensures forall i :: 0 <= i < |Zeros(k) + s| ==> IsDigit((Zeros(k) + s)[i])
    ensures DigitsValue(Zeros(k) + s) == DigitsValue(s)
  {
    if k == 0 {
      assert Zeros(k) + s == s;
    } else {
      DigitsValueLeadingZeros(k - 1, s);
      assert Zeros(k) + s == "0" + (Zeros(k - 1) + s);
      DigitsValueLeadingZero(Zeros(k - 1) + s);
    }
  }

  /** Without a sign, leading zeros do not change what `Atoi` returns. */
  lemma AtoiUnsignedLeadingZeros(k: nat, digits: string)
    requires IsDigits(digits)
    ensures Atoi(Zeros(k) + digits) == Atoi(digits)
  {
    DigitsValueLeadingZeros(k, digits);
    var padded := Zeros(k) + digits;
    assert IsDigit(padded[0]) && IsDigit(digits[0]);
    assert Unsigned(padded) == padded && Unsigned(digits) == digits;
  }

  /** After a sign, leading zeros do not change what `Atoi` returns. */
  lemma AtoiSignedLeadingZeros(sign: char, k: nat, digits: string)
    requires sign == '+' || sign == '-'
    requires IsDigits(digits)
    ensures Atoi([sign] + Zeros(k) + digits) == Atoi([sign] + digits)
  {
    DigitsValueLeadingZeros(k, digits);
    var padded := Zeros(k) + digits;
    var s, t := [sign] + Zeros(k) + digits, [sign] + digits;
    assert s == [sign] + padded;
    assert Unsigned(s) == padded && Unsigned(t) == digits;
  }

  /** `Atoi` ignores leading zeros after an optional sign: "01" and "+001"
      parse as 1. */
  lemma AtoiLeadingZeros(sign: string, k: nat, digits: string)
    requires sign == "" || sign == "+" || sign == "-"
    requires IsDigits(digits)
    ensures Atoi(sign + Zeros(k) + digits) == Atoi(sign + digits)
  {
    if sign == "" {
      assert sign + Zeros(k) + digits == Zeros(k) + digits && sign + digits == digits;
      AtoiUnsignedLeadingZeros(k, digits);
    } else {
      assert sign == [sign[0]];
      AtoiSignedLeadingZeros(sign[0], k, digits);
    }
  }

  /** An unsigned or '+'-signed digit run parses as its value exactly when
      that fits Go's `int`. */
  lemma AtoiOfValue(t: string, n: nat)
    requires t != [] && t[0] != '-' && IsDigits(Unsigned(t)) && DigitsValue(Unsigned(t)) == n
    ensures Atoi(t) == (if n <= MaxInt then Some(n) else None)
  {
  }

  /** A value in canonical decimal, after an optional '+', parses as itself
      exactly when it fits Go's `int`. */
  lemma AtoiDecimal(sign: string, n: nat)
    requires sign == "" || sign == "+"
    ensures Atoi(sign + DecimalString(n)) == (if n <= MaxInt then Some(n) else None)
  {
    var digits := DecimalString(n);
    var t := sign + digits;
    if sign == "" {
      assert t == digits && IsDigit(t[0]);
    } else {
      assert t[1..] == digits;
    }
    AtoiOfValue(t, n);
  }

  /** A value in canonical decimal after '-' parses as its negation exactly
      when that fits Go's `int`. */
  lemma AtoiNegativeDecimal(n: nat)
    ensures Atoi("-" + DecimalString(n)) == (if n <= -MinInt then Some(-(n as int)) else None)
  {
    var t := "-" + DecimalString(n);
    assert Unsigned(t) == DecimalString(n);
    if n <= -MinInt {
      assert Atoi(t).Some?;
    } else {
      assert Atoi(t).None?;
    }
  }

  /** A value written after an optional '+' and any number of zeros parses
      as itself exactly when it fits Go's `int`. */
  lemma AtoiPaddedNonNegative(sign: string, k: nat, n: nat)
    requires sign == "" || sign == "+"
    ensures Atoi(sign + Zeros(k) + DecimalString(n)) == (if n <= MaxInt then Some(n) else None)
  {
    AtoiLeadingZeros(sign, k, DecimalString(n));
    AtoiDecimal(sign, n);
  }

  /** A value written after '-' and any number of zeros parses as its
      negation exactly when that fits Go's `int`. */
  lemma AtoiPaddedNegative(k: nat, n: nat)
    ensures Atoi("-" + Zeros(k) + DecimalString(n)) == (if n <= -MinInt then Some(-(n as int)) else None)
  {
    AtoiLeadingZeros("-", k, DecimalString(n));
    AtoiNegativeDecimal(n);
  }

  /** `Atoi` fails on any string with a character that is not a digit
      after the optional sign. */
  lemma AtoiRejectsNonDigit(s: string, i: nat)
    requires i < |s| && !IsDigit(s[i])
    requires i == 0 ==> s[0] != '+' && s[0] != '-'
    ensures Atoi(s) == None
  {
    if s[0] == '+' || s[0] == '-' {
      assert Unsigned(s)[i - 1] == s[i];
    }
  }
}
