/** A small Gregorian calendar and the date formats the importers read. */
module Calendar {
  import opened Wrappers
  import opened Decimal

  datatype CivilDate = CivilDate(year: int, month: int, day: int)

  /** The dates four year digits can write. */
  type Date = d: CivilDate | IsCivil(d) && 0 <= d.year < 10000 witness CivilDate(1970, 1, 1)

  predicate IsLeap(year: int) {
    year % 4 == 0 && (year % 100 != 0 || year % 400 == 0)
  }

  function DaysInMonth(year: int, month: int): (days: int)
    requires 1 <= month <= 12
    ensures 28 <= days <= 31
  {
    if month == 2 then (if IsLeap(year) then 29 else 28)
    else if month in {4, 6, 9, 11} then 30
    else 31
  }

  predicate IsCivil(d: CivilDate) {
    1 <= d.month <= 12 && 1 <= d.day <= DaysInMonth(d.year, d.month)
  }

  predicate Before(a: CivilDate, b: CivilDate) {
    || a.year < b.year
    || (a.year == b.year && a.month < b.month)
    || (a.year == b.year && a.month == b.month && a.day < b.day)
  }

  predicate NotAfter(a: CivilDate, b: CivilDate) {
    a == b || Before(a, b)
  }

  /** `date - Days::new(1)` */
  function DayBefore(d: CivilDate): (before: CivilDate)
    requires IsCivil(d)
    ensures IsCivil(before) && Before(before, d)
  {
    if d.day > 1 then CivilDate(d.year, d.month, d.day - 1)
    else if d.month > 1 then CivilDate(d.year, d.month - 1, DaysInMonth(d.year, d.month - 1))
    else CivilDate(d.year - 1, 12, 31)
  }

  function MarchYear(d: CivilDate): int {
    if d.month <= 2 then d.year - 1 else d.year
  }

  /** The days since the first of March of the year 0, counted in years that begin in
      March, so that the leap day comes last. */
  function DayNumber(d: CivilDate): int {
    var year := MarchYear(d);
    var month := if d.month <= 2 then d.month + 9 else d.month - 3;
    365 * year + year / 4 - year / 100 + year / 400 + (153 * month + 2) / 5 + d.day - 1
  }

  /** The day before is one day less. */
  lemma DayBeforeIsOneLess(d: CivilDate)
    requires IsCivil(d)
    ensures DayNumber(DayBefore(d)) == DayNumber(d) - 1
  {
    if d.day == 1 {
      if d.month > 1 {
        FirstOfMonth(d.year, d.month);
      }
      hide DaysInMonth, IsLeap;
    }
  }

  lemma FirstOfMonth(year: int, month: int)
    requires 1 < month <= 12
    ensures DayNumber(CivilDate(year, month, 1)) == DayNumber(CivilDate(year, month - 1, 1))
      + DaysInMonth(year, month - 1)
  {
    LeapDay(year);
    hide IsLeap;
  }

  /** A year has one day more just when its February has. */
  lemma LeapDay(year: int)
    ensures (year / 4 - year / 100 + year / 400) - ((year - 1) / 4 - (year - 1) / 100 + (year - 1) / 400)
         == if IsLeap(year) then 1 else 0
  {
    StepOver(year, 4);
    StepOver(year, 100);
    StepOver(year, 400);
  }

  lemma StepOver(n: int, k: int)
    requires k in {4, 100, 400}
    ensures n / k - (n - 1) / k == if n % k == 0 then 1 else 0
  {
  }

  lemma {:induction false} YearsAreApart(a: int, b: int)
    requires a <= b
    ensures 365 * a + a / 4 - a / 100 + a / 400 + 365 * (b - a) <= 365 * b + b / 4 - b / 100 + b / 400
    decreases b - a
  {
    if a < b {
      YearsAreApart(a, b - 1);
      LeapDay(b);
    }
  }

  /** Dates are ordered as their numbers are. */
  lemma BeforeIsLess(a: CivilDate, b: CivilDate)
    requires IsCivil(a) && IsCivil(b)
    ensures Before(a, b) <==> DayNumber(a) < DayNumber(b)
  {
    if Before(a, b) {
      EarlierIsLess(a, b);
    } else if Before(b, a) {
      EarlierIsLess(b, a);
    } else {
      assert a == b;
    }
  }

  /** How far into its year a date is: 365 days at most before the leap day comes. */
  lemma MonthsFit(d: CivilDate)
    requires IsCivil(d)
    ensures
      var month := if d.month <= 2 then d.month + 9 else d.month - 3;
      0 <= (153 * month + 2) / 5 + d.day - 1 < 365 + (if d.month <= 2 && IsLeap(d.year) then 1 else 0)
  {
  }

  lemma EarlierIsLess(a: CivilDate, b: CivilDate)
    requires IsCivil(a) && IsCivil(b) && Before(a, b)
    ensures DayNumber(a) < DayNumber(b)
  {
    var from, to := MarchYear(a), MarchYear(b);
    if from < to {
      LeapDay(from + 1);
      YearsAreApart(from + 1, to);
      MonthsFit(a);
      MonthsFit(b);
      hide DaysInMonth, IsLeap;
    } else if a.month != b.month {
      MonthsAreApart(a, b);
    }
  }

  lemma MonthsAreApart(a: CivilDate, b: CivilDate)
    requires IsCivil(a) && IsCivil(b) && MarchYear(a) == MarchYear(b) && a.month != b.month && Before(a, b)
    ensures DayNumber(a) < DayNumber(b)
  {
    var from := if a.month <= 2 then a.month + 9 else a.month - 3;
    var to := if b.month <= 2 then b.month + 9 else b.month - 3;
    assert from < to && a.day <= 31;
    assert (153 * from + 2) / 5 + a.day <= (153 * (from + 1) + 2) / 5;
    assert (153 * (from + 1) + 2) / 5 <= (153 * to + 2) / 5;
  }

  // ---------- Text ----------

  function MakeDate(year: int, month: int, day: int): Option<Date>
    requires 0 <= year < 10000
  {
    if IsCivil(CivilDate(year, month, day)) then Some(CivilDate(year, month, day)) else None
  }

  /** `%Y-%m-%d` */
  function IsoString(d: Date): (s: string)
    ensures |s| == 10
  {
    Padded(d.year, 4) + "-" + Padded(d.month, 2) + "-" + Padded(d.day, 2)
  }

  function ParseIso(s: string): Option<Date> {
    if |s| == 10 && s[4] == '-' && s[7] == '-' && AllDigits(s[..4]) && AllDigits(s[5..7]) && AllDigits(s[8..]) then
      ValueBound(s[..4]);
      assert Pow10(3) == 1000;
      MakeDate(Value(s[..4]), Value(s[5..7]), Value(s[8..]))
    else None
  }

  /** `%d<sep>%m<sep>%Y`, written with four digits of the year. */
  function DayFirstString(d: Date, sep: char): (s: string)
    ensures |s| == 10
  {
    Padded(d.day, 2) + [sep] + Padded(d.month, 2) + [sep] + Padded(d.year, 4)
  }

  /** `%d<sep>%m<sep>%Y`, read. The reader's `%Y` is also content with a year of two
      digits, which it takes as it stands. */
  function ParseDayFirst(s: string, sep: char): Option<Date> {
    if |s| in {8, 10} && s[2] == sep && s[5] == sep && AllDigits(s[..2]) && AllDigits(s[3..5]) && AllDigits(s[6..]) then
      YearFits(s[6..]);
      MakeDate(Value(s[6..]), Value(s[3..5]), Value(s[..2]))
    else None
  }

  lemma YearFits(digits: string)
    requires AllDigits(digits) && |digits| in {2, 4}
    ensures Value(digits) < 10000 && (|digits| == 2 ==> Value(digits) < 100)
  {
    ValueBound(digits);
    assert Pow10(2) == 100 && Pow10(4) == 100 * Pow10(2);
  }

  /** The century `%y` gives a two-digit year: 1970 to 2069. */
  function FullYear(yy: nat): (year: nat)
    requires yy < 100
    ensures 1970 <= year < 2070 && year % 100 == yy
  {
    if yy < 70 then 2000 + yy else 1900 + yy
  }

  /** `%d.%m.%y`, read. */
  function ParseShortYear(s: string): Option<Date> {
    if |s| == 8 && s[2] == '.' && s[5] == '.' && AllDigits(s[..2]) && AllDigits(s[3..5]) && AllDigits(s[6..]) then
      YearFits(s[6..]);
      MakeDate(FullYear(Value(s[6..])), Value(s[3..5]), Value(s[..2]))
    else None
  }

  /** A year and its last two digits are leap years together, from 1970 to 2069. */
  lemma LeapAlike(yy: nat)
    requires yy < 100
    ensures IsLeap(FullYear(yy)) == IsLeap(yy)
  {
  }

  /** Whatever the short format reads, the long one reads too - as a year of the first
      century. */
  lemma ShortYearsAreReadLong(s: string)
    requires ParseShortYear(s).Some?
    ensures ParseDayFirst(s, '.') == Some(ParseShortYear(s).value.(year := ParseShortYear(s).value.year % 100))
  {
    hide Value;
    YearFits(s[6..]);
    LeapAlike(Value(s[6..]));
  }

  lemma IsoRoundTrip(d: Date)
    ensures ParseIso(IsoString(d)) == Some(d)
  {
    var s := IsoString(d);
    assert Pow10(2) == 100 && Pow10(4) == 10000 by {
      assert Pow10(3) == 10 * Pow10(2);
    }
    ValueOfPadded(d.year, 4);
    ValueOfPadded(d.month, 2);
    ValueOfPadded(d.day, 2);
    assert s[..4] == Padded(d.year, 4) && s[5..7] == Padded(d.month, 2) && s[8..] == Padded(d.day, 2);
  }

  lemma DayFirstRoundTrip(d: Date, sep: char)
    ensures ParseDayFirst(DayFirstString(d, sep), sep) == Some(d)
  {
    var s := DayFirstString(d, sep);
    assert Pow10(2) == 100 && Pow10(4) == 10000 by {
      assert Pow10(3) == 10 * Pow10(2);
    }
    ValueOfPadded(d.year, 4);
    ValueOfPadded(d.month, 2);
    ValueOfPadded(d.day, 2);
    assert s[6..] == Padded(d.year, 4) && s[3..5] == Padded(d.month, 2) && s[..2] == Padded(d.day, 2);
  }
}
