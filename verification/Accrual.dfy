/** Spreading a total over the months from one to another. */
module Accrual {
  import opened Calendar
  import opened Rounding
  import opened Sums

  datatype Month = Month(year: int, month: int)

  type CalendarMonth = m: Month | 1 <= m.month <= 12 witness Month(1970, 1)

  datatype MonthRow = MonthRow(year: int, month: int, date: CivilDate, amountOre: int)

  function MonthCount(from: CalendarMonth, to: CalendarMonth): int {
    (to.year - from.year) * 12 + to.month - from.month + 1
  }

  /** The amount for month `monthNo` (from 1) of `count`. */
  function MonthlyAmount(totalOre: int, count: int, monthNo: int): int
    requires 1 <= monthNo <= count
  {
    var base := TruncDiv(totalOre, count);
    if monthNo < count then base else totalOre - base * (count - 1)
  }

  function MonthEnd(m: CalendarMonth): CivilDate {
    DayBefore(if m.month == 12 then CivilDate(m.year + 1, 1, 1) else CivilDate(m.year, m.month + 1, 1))
  }

  function MonthPlus(from: CalendarMonth, step: int): CalendarMonth {
    var total := from.year * 12 + from.month - 1 + step;
    Month(total / 12, total % 12 + 1)
  }

  function Plan(totalOre: int, from: CalendarMonth, to: CalendarMonth): (rows: seq<MonthRow>)
    ensures |rows| == if MonthCount(from, to) <= 0 then 0 else MonthCount(from, to)
  {
    var count := MonthCount(from, to);
    if count <= 0 then []
    else seq(count, i requires 0 <= i < count => RowAt(MonthPlus(from, i), MonthlyAmount(totalOre, count, i + 1)))
  }

  function RowAt(m: CalendarMonth, amountOre: int): MonthRow {
    MonthRow(m.year, m.month, MonthEnd(m), amountOre)
  }

  // ---------- The months ----------

  /** The month after a month, by the calendar. */
  function NextMonth(m: CalendarMonth): CalendarMonth {
    if m.month == 12 then Month(m.year + 1, 1) else Month(m.year, m.month + 1)
  }

  /** Every month from first to last, once, in calendar order. */
  lemma PlanListsTheMonths(totalOre: int, from: CalendarMonth, to: CalendarMonth)
    requires MonthCount(from, to) > 0
    ensures
      var rows := Plan(totalOre, from, to);
      && Month(rows[0].year, rows[0].month) == from
      && Month(rows[|rows| - 1].year, rows[|rows| - 1].month) == to
      && (forall i | 0 <= i < |rows| :: 1 <= rows[i].month <= 12)
      && (forall i | 0 < i < |rows| ::
            Month(rows[i].year, rows[i].month) == NextMonth(Month(rows[i - 1].year, rows[i - 1].month)))
  {
    var count := MonthCount(from, to);
    StepsAreMonths(from, count - 1);
    LastStep(from, to);
    forall i | 0 < i < count ensures MonthPlus(from, i) == NextMonth(MonthPlus(from, i - 1)) {
      StepsAreMonths(from, i - 1);
    }
    MonthPlusNothing(from);
  }

  lemma MonthPlusNothing(from: CalendarMonth)
    ensures MonthPlus(from, 0) == from
  {
  }

  lemma StepsAreMonths(from: CalendarMonth, i: int)
    ensures MonthPlus(from, i + 1) == NextMonth(MonthPlus(from, i))
  {
    var total := from.year * 12 + from.month - 1 + i;
    assert (total + 1) / 12 == total / 12 + (if total % 12 == 11 then 1 else 0);
  }

  lemma LastStep(from: CalendarMonth, to: CalendarMonth)
    ensures MonthPlus(from, MonthCount(from, to) - 1) == to
  {
  }

  /** Vouchers are dated on the last day of their month, later month by month. */
  lemma MonthEndIsTheLastDay(m: CalendarMonth)
    ensures MonthEnd(m) == CivilDate(m.year, m.month, DaysInMonth(m.year, m.month))
  {
  }

  lemma {:induction false} DatesIncrease(totalOre: int, from: CalendarMonth, to: CalendarMonth, i: nat, j: nat)
    requires i < j < |Plan(totalOre, from, to)|
    ensures Before(Plan(totalOre, from, to)[i].date, Plan(totalOre, from, to)[j].date)
  {
    PlanListsTheMonths(totalOre, from, to);
    var rows := Plan(totalOre, from, to);
    MonthEndIsTheLastDay(Month(rows[j].year, rows[j].month));
    MonthEndIsTheLastDay(Month(rows[j - 1].year, rows[j - 1].month));
    MonthEndIsTheLastDay(Month(rows[i].year, rows[i].month));
    if i < j - 1 {
      DatesIncrease(totalOre, from, to, i, j - 1);
    }
    hide MonthEnd, DaysInMonth, MonthPlus, MonthlyAmount;
  }

  // ---------- The amounts ----------

  lemma BaseBounds(total: int, count: int)
    requires count > 0
    ensures
      var rest := total - TruncDiv(total, count) * count;
      && -count < rest < count
      && (total >= 0 ==> rest >= 0 && TruncDiv(total, count) >= 0)
      && (total <= 0 ==> rest <= 0 && TruncDiv(total, count) <= 0)
  {
    QuotientBounds(if total >= 0 then total else -total, count);
  }

  function Amount(row: MonthRow): int {
    row.amountOre
  }

  lemma {:induction false} FirstMonthsAreEven(totalOre: int, from: CalendarMonth, to: CalendarMonth, k: nat)
    requires k < |Plan(totalOre, from, to)|
    ensures SumBy(Amount, Plan(totalOre, from, to)[..k]) == k * TruncDiv(totalOre, MonthCount(from, to))
  {
    hide TruncDiv, MonthPlus, MonthEnd;
    var rows := Plan(totalOre, from, to);
    if k > 0 {
      FirstMonthsAreEven(totalOre, from, to, k - 1);
      assert rows[..k] == rows[..k - 1] + [rows[k - 1]];
      SumByOne(Amount, rows[..k - 1], rows[k - 1]);
    }
  }

  /** The parts of a plan add up to the total, to the øre, for either sign. */
  lemma PlanSumsToTheTotal(totalOre: int, from: CalendarMonth, to: CalendarMonth)
    requires MonthCount(from, to) > 0
    ensures SumBy(Amount, Plan(totalOre, from, to)) == totalOre
  {
    var rows := Plan(totalOre, from, to);
    var k := |rows| - 1;
    LastRow(totalOre, from, to);
    FirstMonthsAreEven(totalOre, from, to, k);
    hide Plan, SumBy, TruncDiv;
    assert rows == rows[..k] + [rows[k]];
    SumByOne(Amount, rows[..k], rows[k]);
  }

  lemma LastRow(totalOre: int, from: CalendarMonth, to: CalendarMonth)
    requires MonthCount(from, to) > 0
    ensures
      var rows, count := Plan(totalOre, from, to), MonthCount(from, to);
      rows[count - 1].amountOre == totalOre - (count - 1) * TruncDiv(totalOre, count)
  {
    hide TruncDiv, MonthPlus, MonthEnd;
  }

  /** The plan in figures: as many rows as there are months from first to last, each but
      the last the total over their number, rounded toward zero; the last takes what is
      left. */
  lemma PlanInFigures(totalOre: int, from: CalendarMonth, to: CalendarMonth)
    ensures
      var rows, n := Plan(totalOre, from, to), (12 * to.year + to.month) - (12 * from.year + from.month) + 1;
      var share := if n <= 0 then 0 else if totalOre >= 0 then totalOre / n else -((-totalOre) / n);
      && |rows| == (if n > 0 then n else 0)
      && (forall i | 0 <= i < |rows| - 1 :: rows[i].amountOre == share)
      && (n > 0 ==> rows[n - 1].amountOre == totalOre - (n - 1) * share)
  {
    hide MonthPlus, MonthEnd;
    if MonthCount(from, to) > 0 {
      LastRow(totalOre, from, to);
    }
  }

  /** `a` lies between nothing and `total`, on either side of zero. */
  predicate IsPartOf(a: int, total: int) {
    if total >= 0 then 0 <= a <= total else total <= a <= 0
  }

  lemma PartBounds(total: int, count: int, i: int)
    requires 1 <= i <= count
    ensures IsPartOf(MonthlyAmount(total, count, i), total)
    ensures
      var excess := MonthlyAmount(total, count, i) - TruncDiv(total, count);
      -count < excess < count && (total >= 0 ==> excess >= 0) && (total <= 0 ==> excess <= 0)
  {
    BaseBounds(total, count);
    var base := TruncDiv(total, count);
    hide TruncDiv;
    assert base * (count - 1) == base * count - base;
    ScaledPart(total, base, count, 1);
    ScaledPart(total, base, count, count - 1);
  }

  /** No month turns against the total and no two months differ by `count` øre or
      more. */
  lemma PartsAreFair(totalOre: int, from: CalendarMonth, to: CalendarMonth, i: nat, j: nat)
    requires
      var n := |Plan(totalOre, from, to)|;
      i < n && j < n
    ensures
      var rows := Plan(totalOre, from, to);
      && IsPartOf(rows[i].amountOre, totalOre)
      && -|rows| < rows[i].amountOre - rows[j].amountOre < |rows|
  {
    var count := MonthCount(from, to);
    PartBounds(totalOre, count, i + 1);
    PartBounds(totalOre, count, j + 1);
    hide TruncDiv, MonthPlus, MonthEnd, MonthlyAmount;
  }

  /** What has been taken after any number of months never overshoots the total. */
  lemma PlanNeverOvershoots(totalOre: int, from: CalendarMonth, to: CalendarMonth, k: nat)
    requires k <= |Plan(totalOre, from, to)|
    ensures IsPartOf(SumBy(Amount, Plan(totalOre, from, to)[..k]), totalOre)
  {
    var rows, count := Plan(totalOre, from, to), MonthCount(from, to);
    if k < |rows| {
      BaseBounds(totalOre, count);
      FirstMonthsAreEven(totalOre, from, to, k);
      ScaledPart(totalOre, TruncDiv(totalOre, count), count, k);
    } else if k > 0 {
      PlanSumsToTheTotal(totalOre, from, to);
      assert rows[..k] == rows;
    } else {
      assert rows[..k] == [];
    }
    hide TruncDiv, Plan, SumBy;
  }

  lemma ScaledPart(total: int, base: int, count: int, k: int)
    requires 0 <= k <= count
    requires total >= 0 ==> base >= 0 && base * count <= total
    requires total <= 0 ==> base <= 0 && total <= base * count
    ensures IsPartOf(k * base, total)
  {
    assert base * count == k * base + (count - k) * base;
  }
}
