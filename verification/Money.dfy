/** Amounts in integer øre, read from decimal text. */
module Money {
  import opened Wrappers
  import opened Decimal
  import opened Text

  /** The common tail of the amount readers, on text whose decimal separator is a
      dot: at most two decimals, any number of leading signs of which the first
      decides, at least one digit before the separator. */
  function ReadOre(normalized: string): Option<int> {
    var (whole, frac) := WholeAndFraction(normalized, '.');
    if |frac| > 2 || !AllDigits(frac) then None
    else
      var digits := DropSigns(whole);
      if !IsNumber(digits) then None
      else Some(Signed(whole[0] == '-', OreOfParts(digits, PadToTwo(frac))))
  }

  function OreOfParts(digits: string, frac: string): nat
    requires AllDigits(digits) && AllDigits(frac)
  {
    Value(digits) * 100 + Value(frac)
  }

  function Signed(negative: bool, ore: int): int {
    if negative then -ore else ore
  }

  /** `format!("{frac:0<2}")` */
  function PadToTwo(frac: string): (padded: string)
    requires |frac| <= 2
    ensures AllDigits(frac) ==> AllDigits(padded)
  {
    if |frac| == 0 then "00" else if |frac| == 1 then frac + "0" else frac
  }

  lemma DropSignsOfNumber(negative: bool, digits: string)
    requires IsNumber(digits)
    ensures DropSigns((if negative then "-" else "") + digits) == digits
  {
    assert "" + digits == digits;
    assert ("-" + digits)[1..] == digits;
    assert !IsDigit('-') && !IsDigit('+');
  }

  lemma WholePart(negative: bool, digits: string, frac: string)
    requires IsNumber(digits)
    ensures
      var whole := (if negative then "-" else "") + digits;
      && WholeAndFraction(whole + ['.'] + frac, '.') == (whole, frac)
      && DropSigns(whole) == digits
      && (whole[0] == '-' <==> negative)
  {
    var whole := (if negative then "-" else "") + digits;
    DropSignsOfNumber(negative, digits);
    assert forall i | 0 <= i < |digits| :: digits[i] != '.' && digits[i] != '-';
    SplitOnceFinds(whole, '.', frac);
  }

  lemma ReadOreOfParts(negative: bool, digits: string, frac: string)
    requires IsNumber(digits) && |frac| == 2 && AllDigits(frac)
    ensures ReadOre((if negative then "-" else "") + digits + ['.'] + frac)
         == Some(Signed(negative, OreOfParts(digits, frac)))
  {
    WholePart(negative, digits, frac);
  }

  /** Two decimals are read back exactly, the sign of -0.xx included. */
  lemma ReadOreOfTwoDecimals(ore: int)
    ensures ReadOre(TwoDecimals(ore)) == Some(ore)
  {
    hide ReadOre, Padded, ToString, Value;
    var n := Abs(ore);
    ReadOreOfParts(ore < 0, ToString(n / 100), Padded(n % 100, 2));
    ValueOfToString(n / 100);
    assert Pow10(2) == 100;
    ValueOfPadded(n % 100, 2);
  }

  // ---------- What is read at all ----------

  predicate AreSigns(signs: string) {
    forall c | c in signs :: c == '-' || c == '+'
  }

  /** Signs, whole kroner, and at most two decimals after a dot, the first of them tens
      of øre. */
  predicate IsDecimal(s: string, signs: string, digits: string, frac: string) {
    && AreSigns(signs) && IsNumber(digits) && AllDigits(frac) && |frac| <= 2
    && (s == signs + digits + "." + frac || (s == signs + digits && frac == ""))
  }

  function DecimalOre(signs: string, digits: string, frac: string): int
    requires AllDigits(digits) && AllDigits(frac)
  {
    (if "-" <= signs then -1 else 1) * (100 * Value(digits) + (if |frac| == 1 then 10 else 1) * Value(frac))
  }

  lemma {:induction false} SignsDropOff(signs: string, digits: string)
    requires AreSigns(signs) && IsNumber(digits)
    ensures DropSigns(signs + digits) == digits
  {
    if signs == "" {
      assert signs + digits == digits;
      assert IsDigit(digits[0]) && !IsDigit('-') && !IsDigit('+');
    } else {
      assert signs[0] in signs && forall c | c in signs[1..] :: c in signs;
      assert (signs + digits)[1..] == signs[1..] + digits;
      SignsDropOff(signs[1..], digits);
    }
  }

  lemma {:induction false} SignsBefore(whole: string) returns (signs: string)
    ensures AreSigns(signs) && whole == signs + DropSigns(whole)
  {
    if whole != "" && whole[0] in {'-', '+'} {
      var rest := SignsBefore(whole[1..]);
      signs := [whole[0]] + rest;
      assert whole == [whole[0]] + whole[1..];
    } else {
      signs := "";
    }
  }

  lemma {:induction false} OneDecimal(frac: string)
    requires AllDigits(frac) && |frac| == 1
    ensures Value(frac + "0") == 10 * Value(frac)
  {
    assert frac + "0" == frac + [DigitChar(0)];
    ValueOfDigit(frac, 0);
  }

  /** Every such text is read as the amount it shows. */
  lemma DecimalIsRead(s: string, signs: string, digits: string, frac: string)
    requires IsDecimal(s, signs, digits, frac)
    ensures ReadOre(s) == Some(DecimalOre(signs, digits, frac))
  {
    var whole := signs + digits;
    assert forall c | c in digits :: IsDigit(c);
    assert '.' !in whole;
    SplitOnceFinds(whole, '.', frac);
    SplitOnceCuts(s, '.');
    assert whole + ['.'] + frac == whole + "." + frac;
    SignsDropOff(signs, digits);
    assert whole[0] == (if signs == "" then digits[0] else signs[0]);
    if |frac| == 1 {
      OneDecimal(frac);
    }
    assert Value("00") == 0;
    hide Value;
  }

  /** And nothing else is read. */
  lemma OnlyDecimalsAreRead(s: string) returns (signs: string, digits: string, frac: string)
    requires ReadOre(s).Some?
    ensures IsDecimal(s, signs, digits, frac) && ReadOre(s) == Some(DecimalOre(signs, digits, frac))
  {
    var parts := WholeAndFraction(s, '.');
    SplitOnceCuts(s, '.');
    signs := SignsBefore(parts.0);
    digits, frac := DropSigns(parts.0), parts.1;
    DecimalIsRead(s, signs, digits, frac);
  }
}
