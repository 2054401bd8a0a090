/** Foreign currency: cents at a rate in micro-NOK become øre, and rates are read
    from and written as decimal text. */
module Currency {
  import opened Wrappers
  import opened Decimal
  import opened Rounding
  import opened Sums
  import opened Text

  const MICRO := 1_000_000
  const MAX_I64 := 0x7FFF_FFFF_FFFF_FFFF

  // ---------- Conversion ----------

  function NokOre(amountCent: int, rateMicro: int): int {
    var product := amountCent * rateMicro;
    (Abs(product) + 500_000) / MICRO * Sign(product)
  }

  /** Conversion is rounding to the nearest øre, halves away from zero. */
  lemma NokOreIsHalfAway(amountCent: int, rateMicro: int)
    ensures NokOre(amountCent, rateMicro) == HalfAway(amountCent * rateMicro, MICRO)
  {
    var product := amountCent * rateMicro;
    if product < 0 {
      HalfAwayIsOdd(-product, MICRO);
    }
  }

  lemma NokOreIsOdd(amountCent: int, rateMicro: int)
    ensures NokOre(-amountCent, rateMicro) == -NokOre(amountCent, rateMicro)
  {
    hide NokOre;
    NokOreIsHalfAway(amountCent, rateMicro);
    NokOreIsHalfAway(-amountCent, rateMicro);
    HalfAwayIsOdd(amountCent * rateMicro, MICRO);
    assert (-amountCent) * rateMicro == -(amountCent * rateMicro);
  }

  lemma NokOreIsMonotone(a: int, b: int, rateMicro: int)
    requires a <= b && rateMicro >= 0
    ensures NokOre(a, rateMicro) <= NokOre(b, rateMicro)
  {
    hide NokOre;
    NokOreIsHalfAway(a, rateMicro);
    NokOreIsHalfAway(b, rateMicro);
    hide HalfAway;
    ProductIsMonotone(a, b, rateMicro);
    HalfAwayIsMonotone(a * rateMicro, b * rateMicro, MICRO);
  }

  lemma ProductIsMonotone(a: int, b: int, c: int)
    requires a <= b && c >= 0
    ensures a * c <= b * c
  {
  }

  /** Never more than half an øre from the exact value. */
  lemma NokOreIsNearest(amountCent: int, rateMicro: int)
    ensures -500_000 <= MICRO * NokOre(amountCent, rateMicro) - amountCent * rateMicro <= 500_000
  {
    hide NokOre, HalfAway;
    NokOreIsHalfAway(amountCent, rateMicro);
    HalfAwayIsNearest(amountCent * rateMicro, MICRO);
  }

  function Cents(amount: int): int {
    amount
  }

  function Converted(rateMicro: int): int -> int {
    (amount: int) => NokOre(amount, rateMicro)
  }

  lemma {:induction false} PartsNearExact(amounts: seq<int>, rateMicro: int)
    ensures
      var error := MICRO * SumBy(Converted(rateMicro), amounts) - SumBy(Cents, amounts) * rateMicro;
      -500_000 * |amounts| <= error <= 500_000 * |amounts|
  {
    hide NokOre;
    if amounts != [] {
      var front, last := amounts[..|amounts| - 1], amounts[|amounts| - 1];
      PartsNearExact(front, rateMicro);
      NokOreIsNearest(last, rateMicro);
      assert (SumBy(Cents, front) + last) * rateMicro == SumBy(Cents, front) * rateMicro + last * rateMicro;
    }
  }

  /** Sums are sums of rounded parts: over any list of amounts at one rate they differ
      from the rounded sum by at most half an øre for each part and one more half. */
  lemma RoundedPartsStayNearTheRoundedSum(amounts: seq<int>, rateMicro: int)
    ensures
      var apart := SumBy(Converted(rateMicro), amounts) - NokOre(SumBy(Cents, amounts), rateMicro);
      -((|amounts| + 1) / 2) <= apart <= (|amounts| + 1) / 2
  {
    hide NokOre, SumBy;
    PartsNearExact(amounts, rateMicro);
    NokOreIsNearest(SumBy(Cents, amounts), rateMicro);
  }

  // ---------- Rates as text ----------

  /** Digits before and after the separator, a comma or a dot; at most six decimals;
      a positive number that fits. */
  function RateOf(s: string): Option<int> {
    var (whole, frac) := WholeAndFraction(ReplaceChar(Trim(s), ',', '.'), '.');
    if (whole == "" && frac == "") || |frac| > 6 || !AllDigits(whole) || !AllDigits(frac) then None
    else
      var rate := Value(whole) * MICRO + Value(frac) * Pow10(6 - |frac|);
      if 0 < rate <= MAX_I64 then Some(rate) else None
  }

  method Millionths(frac: nat, digits: nat) returns (scaled: nat)
    requires digits <= 6
    ensures scaled == frac * Pow10(6 - digits)
  {
    scaled := frac;
    for i := digits to 6
      invariant scaled * Pow10(6 - i) == frac * Pow10(6 - digits)
    {
      TenTimes(scaled, Pow10(6 - i - 1));
      scaled := scaled * 10;
    }
  }

  lemma TenTimes(a: nat, p: nat)
    ensures a * (10 * p) == (a * 10) * p
  {
  }

  /** The checked arithmetic around the scaling loop. */
  method ParseRate(s: string) returns (rate: Option<int>)
    ensures rate == RateOf(s)
  {
    hide Pow10, Value, Trim;
    var (whole, frac) := WholeAndFraction(ReplaceChar(Trim(s), ',', '.'), '.');
    if whole == "" && frac == "" {
      return None;
    }
    if |frac| > 6 || !AllDigits(whole) {
      return None;
    }
    if !AllDigits(frac) {
      return None;
    }
    var wholeValue := Value(whole);
    if wholeValue > MAX_I64 {
      return None;
    }
    var fracValue := Millionths(Value(frac), |frac|);
    if wholeValue * MICRO > MAX_I64 {
      return None;
    }
    var sum := wholeValue * MICRO + fracValue;
    rate := if 0 < sum <= MAX_I64 then Some(sum) else None;
  }

  function RateStr(rateMicro: nat): string {
    ToString(rateMicro / MICRO) + "." + Padded(rateMicro % MICRO, 6)
  }

  lemma DigitsAreTrimmed(s: string)
    requires s != "" && forall c | c in s :: IsDigit(c) || c in {'.', ','}
    ensures Trim(s) == s
  {
    assert forall c | IsDigit(c) || c in {'.', ','} :: !IsSpace(c);
    assert s[0] in s && s[|s| - 1] in s;
    TrimOfTrimmed(s);
  }

  lemma PointOrComma(whole: string, sep: char, frac: string)
    requires AllDigits(whole) && AllDigits(frac) && (sep == '.' || sep == ',')
    ensures ReplaceChar(whole + [sep] + frac, ',', '.') == whole + ['.'] + frac
  {
    assert forall c | IsDigit(c) :: c != ',';
  }

  lemma WrittenRateFallsApart(whole: string, sep: char, frac: string)
    requires AllDigits(whole) && AllDigits(frac) && (sep == '.' || sep == ',')
    ensures WholeAndFraction(ReplaceChar(Trim(whole + [sep] + frac), ',', '.'), '.') == (whole, frac)
  {
    var s := whole + [sep] + frac;
    assert forall c | c in s :: IsDigit(c) || c in {'.', ','};
    DigitsAreTrimmed(s);
    PointOrComma(whole, sep, frac);
    assert forall c | IsDigit(c) :: c != '.';
    SplitOnceFinds(whole, '.', frac);
    hide Trim, ReplaceChar, SplitOnce;
  }

  lemma WholeRateFallsApart(whole: string)
    requires IsNumber(whole)
    ensures WholeAndFraction(ReplaceChar(Trim(whole), ',', '.'), '.') == (whole, "")
  {
    assert forall c | c in whole :: IsDigit(c);
    assert !IsDigit('.') && !IsDigit(',');
    DigitsAreTrimmed(whole);
    ReplaceAbsent(whole, ',', '.');
    SplitOnceCuts(whole, '.');
    hide Trim, ReplaceChar, SplitOnce;
  }

  /** A rate written with one to six decimals, after a dot or a comma, is read as
      exactly that many millionths. */
  lemma WrittenRateIsRead(whole: nat, k: nat, frac: nat, sep: char)
    requires 1 <= k <= 6 && frac < Pow10(k) && (sep == '.' || sep == ',')
    ensures
      var rate := whole * 1_000_000 + frac * Pow10(6 - k);
      RateOf(ToString(whole) + [sep] + Padded(frac, k))
      == if 0 < rate <= 9_223_372_036_854_775_807 then Some(rate) else None
  {
    hide Trim, ReplaceChar, ToString, Padded, Value, Pow10, SplitOnce, WholeAndFraction;
    WrittenRateFallsApart(ToString(whole), sep, Padded(frac, k));
    ValueOfToString(whole);
    ValueOfPadded(frac, k);
  }

  /** Digits on either side of a separator, or before none, are a rate: whole numbers and
      bare decimals too. */
  lemma DecimalsAreRates(whole: string, sep: char, frac: string)
    requires AllDigits(whole) && AllDigits(frac) && |frac| <= 6 && whole + frac != "" && (sep == '.' || sep == ',')
    ensures
      var rate := Value(whole) * 1_000_000 + Value(frac) * Pow10(6 - |frac|);
      var read := if 0 < rate <= 9_223_372_036_854_775_807 then Some(rate) else None;
      RateOf(whole + [sep] + frac) == read && (frac == "" ==> RateOf(whole) == read)
  {
    hide Trim, ReplaceChar, Value, Pow10, SplitOnce, WholeAndFraction;
    WrittenRateFallsApart(whole, sep, frac);
    if frac == "" {
      WholeRateFallsApart(whole);
    }
    SixDecimals();
  }

  /** Nothing else is read as a rate: digits, and at most six more after one separator. */
  lemma OnlyDecimalsAreRates(s: string) returns (whole: string, frac: string)
    requires RateOf(s).Some?
    ensures AllDigits(whole) && AllDigits(frac) && |frac| <= 6 && whole + frac != ""
    ensures
      var text := ReplaceChar(Trim(s), ',', '.');
      text == whole + "." + frac || (text == whole && frac == "")
    ensures RateOf(s).value == Value(whole) * 1_000_000 + Value(frac) * Pow10(6 - |frac|)
    ensures 0 < RateOf(s).value <= 9_223_372_036_854_775_807
  {
    hide Trim, ReplaceChar, Value, Pow10;
    var text := ReplaceChar(Trim(s), ',', '.');
    var parts := WholeAndFraction(text, '.');
    whole, frac := parts.0, parts.1;
    SplitOnceCuts(text, '.');
    SixDecimals();
  }

  lemma SixDecimals()
    ensures Pow10(0) == 1 && Pow10(6) == MICRO
  {
    assert Pow10(2) == 100;
    assert Pow10(4) == 100 * Pow10(2);
    assert Pow10(6) == 100 * Pow10(4);
  }

  /** Reading a rate undoes writing it, for every positive rate. */
  lemma RateRoundTrip(rateMicro: int)
    requires 0 < rateMicro <= MAX_I64
    ensures RateOf(RateStr(rateMicro)) == Some(rateMicro)
  {
    hide RateOf, ToString, Padded, Pow10;
    SixDecimals();
    WrittenRateIsRead(rateMicro / MICRO, 6, rateMicro % MICRO, '.');
  }
}
