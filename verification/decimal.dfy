/**
  Decimal rendering of integers, as Go's `strconv.Itoa` produces it: an optional
  leading '-' followed by the digits of the magnitude, without leading zeros.
  The canonical parser `ParseInt` is its exact inverse and is what the rest of
  the model uses to say that a rendered field still carries its number.
 */
module Decimal {
  import opened Options

  predicate IsDigit(c: char) {
    '0' <= c <= '9'
  }

  predicate AllDigits(s: string) {
    forall i :: 0 <= i < |s| ==> IsDigit(s[i])
  }

  function DigitChar(d: nat): (c: char)
    requires d < 10
    ensures IsDigit(c)
  {
    ('0' as int + d) as char
  }

  function DigitValue(c: char): (d: nat)
    requires IsDigit(c)
    ensures d < 10 && DigitChar(d) == c
  {
    c as int - '0' as int
  }

  /** Digits of a natural number, most significant first. */
  function FromNat(n: nat): (s: string)
    ensures |s| > 0 && AllDigits(s)
    ensures |s| > 1 ==> s[0] != '0'
    ensures s[0] == '0' <==> n == 0
    decreases n
  {
    if n < 10 then [DigitChar(n)] else FromNat(n / 10) + [DigitChar(n % 10)]
  }

  /** `strconv.Itoa`: the sign is written only for negative numbers. */
  function FromInt(n: int): (s: string)
    ensures |s| > 0
    ensures s[0] == '-' <==> n < 0
    ensures n >= 0 ==> CanonicalDigits(s)
    ensures n < 0 ==> |s| > 1 && CanonicalDigits(s[1..]) && s[1] != '0'
  {
    if n < 0 then "-" + FromNat(-n) else FromNat(n)
  }

  /** Value of a string of digits, read most significant first. */
  ghost function DigitsValue(s: string): nat
    requires AllDigits(s)
  {
    if |s| == 0 then 0 else DigitsValue(s[..|s| - 1]) * 10 + DigitValue(s[|s| - 1])
  }

  /** Digit strings exactly as `FromNat` writes them: non-empty, no leading zero. */
  ghost predicate CanonicalDigits(s: string) {
    |s| > 0 && AllDigits(s) && (|s| > 1 ==> s[0] != '0')
  }

  ghost function ParseNat(s: string): (r: Option<nat>)
    ensures r.Some? <==> CanonicalDigits(s)
  {
    if CanonicalDigits(s) then Some(DigitsValue(s)) else None
  }

  /** Accepts exactly the strings `FromInt` produces; "-0" is refused. */
  ghost function ParseInt(s: string): (r: Option<int>)
    ensures r.Some? && r.value < 0 ==> |s| > 0 && s[0] == '-'
  {
    if |s| > 0 && s[0] == '-' then
      match ParseNat(s[1..])
      case Some(n) => if n == 0 then None else Some(-(n as int))
      case None => None
    else
      match ParseNat(s)
      case Some(n) => Some(n)
      case None => None
  }

  lemma {:induction false} DigitsValueFromNat(n: nat)
    ensures DigitsValue(FromNat(n)) == n
    decreases n
  {
    if n >= 10 {
      var s := FromNat(n);
      DigitsValueFromNat(n / 10);
      assert s[..|s| - 1] == FromNat(n / 10);
    }
  }

  /** A canonical digit string with more than one digit has a non-zero value. */
  lemma {:induction false} DigitsValuePositive(s: string)
    requires AllDigits(s) && |s| > 0 && s[0] != '0'
    ensures DigitsValue(s) > 0
  {
    if |s| > 1 {
      DigitsValuePositive(s[..|s| - 1]);
    }
  }

  lemma {:induction false} FromNatDigitsValue(s: string)
    requires CanonicalDigits(s)
    ensures FromNat(DigitsValue(s)) == s
  {
    if |s| > 1 {
      var p := s[..|s| - 1];
      var n := DigitsValue(s);
      DigitsValuePositive(p);
      FromNatDigitsValue(p);
      assert n / 10 == DigitsValue(p) && n % 10 == DigitValue(s[|s| - 1]);
      assert s == p + [s[|s| - 1]];
    }
  }

  /** Parsing undoes `strconv.Itoa` for every integer, negative ones included. */
  lemma ParseFromInt(n: int)
    ensures ParseInt(FromInt(n)) == Some(n)
  {
    DigitsValueFromNat(if n < 0 then -n else n);
    if n < 0 {
      assert FromInt(n)[1..] == FromNat(-n);
    }
  }

  /** Conversely, every string the parser accepts is the rendering of its value. */
  lemma FromIntParse(s: string, n: int)
    requires ParseInt(s) == Some(n)
    ensures FromInt(n) == s
  {
    if |s| > 0 && s[0] == '-' {
      FromNatDigitsValue(s[1..]);
      assert s == "-" + s[1..];
    } else {
      FromNatDigitsValue(s);
    }
  }

  /** Two integers render alike only when they are equal. */
  lemma FromIntInjective(a: int, b: int)
    requires FromInt(a) == FromInt(b)
    ensures a == b
  {
    ParseFromInt(a);
    ParseFromInt(b);
  }
}
