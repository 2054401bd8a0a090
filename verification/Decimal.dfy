/** Decimal digits: what `{}`, `{:02}` and `str::parse` do with the digits of a
    number. Everything that prints or reads an amount, a rate, a date or a
    netstring length rests on the round trips proved here. */
module Decimal {
  import opened Wrappers

  predicate IsDigit(c: char) {
    '0' <= c <= '9'
  }

  predicate AllDigits(s: string) {
    forall i | 0 <= i < |s| :: IsDigit(s[i])
  }

  function DigitChar(d: nat): (c: char)
    requires d < 10
    ensures IsDigit(c) && DigitValue(c) == d
  {
    ('0' as int + d) as char
  }

  function DigitValue(c: char): (d: nat)
    requires IsDigit(c)
    ensures d < 10
  {
    c as int - '0' as int
  }

  /** `n.to_string()` */
  function ToString(n: nat): (s: string)
    ensures s != [] && AllDigits(s)
  {
    if n < 10 then [DigitChar(n)] else ToString(n / 10) + [DigitChar(n % 10)]
  }

  /** `to_string()` of a signed number. */
  function SignedToString(n: int): string {
    if n < 0 then "-" + ToString(-n) else ToString(n)
  }

  /** The number a string of digits denotes; the empty string denotes zero. */
  function Value(s: string): nat
    requires AllDigits(s)
  {
    if s == [] then 0 else 10 * Value(s[..|s| - 1]) + DigitValue(s[|s| - 1])
  }

  function Pow10(k: nat): (p: nat)
    ensures p > 0
  {
    if k == 0 then 1 else 10 * Pow10(k - 1)
  }

  /** The last `width` digits of `n`, leading zeros included: `{:0width}` of a
      number that fits. */
  function Padded(n: nat, width: nat): (s: string)
    ensures |s| == width && AllDigits(s)
  {
    if width == 0 then [] else Padded(n / 10, width - 1) + [DigitChar(n % 10)]
  }

  lemma {:induction false} ValueOfToString(n: nat)
    ensures Value(ToString(n)) == n
  {
    if n >= 10 {
      ValueOfToString(n / 10);
      assert ToString(n)[..|ToString(n)| - 1] == ToString(n / 10);
    }
  }

  lemma {:induction false} ValueOfPadded(n: nat, width: nat)
    requires n < Pow10(width)
    ensures Value(Padded(n, width)) == n
  {
    if width > 0 {
      ValueOfPadded(n / 10, width - 1);
      ValueOfDigit(Padded(n / 10, width - 1), n % 10);
    }
  }

  lemma ValueOfDigit(front: string, d: nat)
    requires AllDigits(front) && d < 10
    ensures AllDigits(front + [DigitChar(d)])
    ensures Value(front + [DigitChar(d)]) == 10 * Value(front) + d
  {
    assert (front + [DigitChar(d)])[..|front|] == front;
  }

  lemma ToStringInjective(m: nat, n: nat)
    requires ToString(m) == ToString(n)
    ensures m == n
  {
    ValueOfToString(m);
    ValueOfToString(n);
  }

  lemma SignedToStringInjective(m: int, n: int)
    requires SignedToString(m) == SignedToString(n)
    ensures m == n
  {
    assert m < 0 <==> SignedToString(m)[0] == '-';
    assert n < 0 <==> SignedToString(n)[0] == '-';
    if m < 0 {
      assert SignedToString(m)[1..] == ToString(-m);
      assert SignedToString(n)[1..] == ToString(-n);
      ToStringInjective(-m, -n);
    } else {
      ToStringInjective(m, n);
    }
  }

  lemma {:induction false} ValueBound(s: string)
    requires AllDigits(s)
    ensures Value(s) < Pow10(|s|)
  {
    if s != [] {
      ValueBound(s[..|s| - 1]);
    }
  }

  /** Hundredths with a dot: `{sign}{abs / 100}.{abs % 100:02}`. */
  function TwoDecimals(n: int): string {
    (if n < 0 then "-" else "") + ToString(Abs(n) / 100) + "." + Padded(Abs(n) % 100, 2)
  }

  function Abs(n: int): nat {
    if n < 0 then -n else n
  }

  predicate IsNumber(s: string) {
    s != [] && AllDigits(s)
  }

  /** `str::parse::<i64>`: an optional sign and at least one digit. */
  function ParseInt(s: string): Option<int> {
    if IsNumber(s) then Some(Value(s))
    else if s != [] && s[0] == '-' && IsNumber(s[1..]) then Some(0 - Value(s[1..]))
    else if s != [] && s[0] == '+' && IsNumber(s[1..]) then Some(Value(s[1..]))
    else None
  }

  lemma ParseIntOfSigned(negative: bool, n: nat)
    ensures ParseInt((if negative then "-" else "") + ToString(n)) == Some(if negative then 0 - n else n)
  {
    var digits := ToString(n);
    ValueOfToString(n);
    assert "" + digits == digits;
    assert ("-" + digits)[0] == '-' && ("-" + digits)[1..] == digits;
  }

  /** A number is parsed with a minus, a plus or no sign before it, and nothing else is. */
  lemma ParseIntIs(s: string)
    ensures IsNumber(s) ==> ParseInt(s) == Some(Value(s)) && ParseInt("+" + s) == Some(Value(s))
                            && ParseInt("-" + s) == Some(-(Value(s) as int))
    ensures ParseInt(s).Some? <==> IsNumber(s) || (s != "" && s[0] in {'-', '+'} && IsNumber(s[1..]))
  {
    assert ("+" + s)[1..] == s && ("-" + s)[1..] == s;
    assert !IsDigit('-') && !IsDigit('+');
    assert ("+" + s)[0] == '+' && ("-" + s)[0] == '-';
  }

  lemma ParseIntOfTwoDigits(n: nat)
    requires n < 100
    ensures ParseInt(Padded(n, 2)) == Some(n)
  {
    assert Pow10(2) == 100;
    ValueOfPadded(n, 2);
  }
}
