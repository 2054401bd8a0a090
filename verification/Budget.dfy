/** The budget report: budget against actuals, section by section and month by
    month. */
module Budget {
  import opened Wrappers
  import opened Decimal
  import opened Rounding
  import opened Sorting
  import opened Sums

  type Months = s: seq<int> | |s| == 12 witness seq(12, _ => 0)

  datatype AccountFigures = AccountFigures(number: string, name: string, budget: Months, actual: Months)

  datatype VarianceLine = VarianceLine(
    number: string,
    name: string,
    budgetYtdOre: int,
    actualYtdOre: int,
    varianceYtdOre: int,
    budgetYearOre: int,
    budgetMonths: Months,
    actualMonths: Months)

  datatype VarianceSection = VarianceSection(
    heading: string,
    lines: seq<VarianceLine>,
    budgetYtdOre: int,
    actualYtdOre: int,
    varianceYtdOre: int,
    budgetYearOre: int)

  datatype VarianceReport = VarianceReport(
    throughMonth: nat,
    sections: seq<VarianceSection>,
    resultBudgetYtdOre: int,
    resultActualYtdOre: int,
    resultVarianceYtdOre: int,
    resultBudgetYearOre: int,
    resultBudgetMonths: Months,
    resultActualMonths: Months)

  const HEADINGS := ["Driftsinntekter", "Varekostnad", "Lønnskostnad", "Annen driftskostnad",
                     "Finansposter, skatt m.m."]
  const CLASSES: seq<seq<nat>> := [[3], [4], [5], [6, 7], [8]]

  /** The account class: the first digit of the number. */
  function ClassOf(number: string): Option<nat> {
    if number != "" && IsDigit(number[0]) then Some(DigitValue(number[0])) else None
  }

  function PresentationSign(number: string): int {
    if ClassOf(number) == Some(3) then 1 else -1
  }

  function Clamped(throughMonth: nat): (through: nat)
    ensures 1 <= through <= 12
  {
    if throughMonth < 1 then 1 else if throughMonth > 12 then 12 else throughMonth
  }

  function Figure(amount: int): int {
    amount
  }

  function YearToDate(months: Months, through: nat): int
    requires through <= 12
  {
    SumBy(Figure, months[..through])
  }

  // ---------- Sections ----------

  predicate IsInSection(a: AccountFigures, section: nat)
    requires section < 5
  {
    ClassOf(a.number).Some? && ClassOf(a.number).value in CLASSES[section]
  }

  predicate HasFigures(a: AccountFigures) {
    (exists m | 0 <= m < 12 :: a.budget[m] != 0) || exists m | 0 <= m < 12 :: a.actual[m] != 0
  }

  function LineOf(a: AccountFigures, through: nat): VarianceLine
    requires through <= 12
  {
    var budgetYtd, actualYtd := YearToDate(a.budget, through), YearToDate(a.actual, through);
    VarianceLine(a.number, a.name, budgetYtd, actualYtd, actualYtd - budgetYtd, SumBy(Figure, a.budget), a.budget,
                 a.actual)
  }

  function LinesOf(accounts: seq<AccountFigures>, through: nat): (lines: seq<VarianceLine>)
    requires through <= 12
    ensures |lines| == |accounts|
  {
    seq(|accounts|, i requires 0 <= i < |accounts| => LineOf(accounts[i], through))
  }

  predicate Belongs(a: AccountFigures, section: nat)
    requires section < 5
  {
    IsInSection(a, section) && HasFigures(a)
  }

  /** Strings as Rust orders them, by code point. */
  predicate TextLe(a: string, b: string) {
    a == "" || (b != "" && (a[0] < b[0] || (a[0] == b[0] && TextLe(a[1..], b[1..]))))
  }

  predicate LineLe(a: VarianceLine, b: VarianceLine) {
    TextLe(a.number, b.number)
  }

  function AccountsIn(figures: seq<AccountFigures>, section: nat): seq<AccountFigures>
    requires section < 5
  {
    Filter((a: AccountFigures) => Belongs(a, section), figures)
  }

  function SectionLines(figures: seq<AccountFigures>, section: nat, through: nat): seq<VarianceLine>
    requires section < 5 && through <= 12
  {
    Sort(LineLe, LinesOf(AccountsIn(figures, section), through))
  }

  function BudgetYtd(line: VarianceLine): int {
    line.budgetYtdOre
  }

  function ActualYtd(line: VarianceLine): int {
    line.actualYtdOre
  }

  function BudgetYear(line: VarianceLine): int {
    line.budgetYearOre
  }

  function SectionOf(figures: seq<AccountFigures>, section: nat, through: nat): VarianceSection
    requires section < 5 && through <= 12
  {
    var lines := SectionLines(figures, section, through);
    VarianceSection(HEADINGS[section], lines, SumBy(BudgetYtd, lines), SumBy(ActualYtd, lines),
                    SumBy(ActualYtd, lines) - SumBy(BudgetYtd, lines), SumBy(BudgetYear, lines))
  }

  /** The lines of the first `k` sections, in the order they are printed. */
  function AllLines(figures: seq<AccountFigures>, through: nat, k: nat): seq<VarianceLine>
    requires through <= 12 && k <= 5
  {
    if k == 0 then [] else AllLines(figures, through, k - 1) + SectionLines(figures, k - 1, through)
  }

  /** A line's budget in month `m`, as it counts in the result. */
  function SignedBudget(m: nat): VarianceLine -> int
    requires m < 12
  {
    (line: VarianceLine) => PresentationSign(line.number) * line.budgetMonths[m]
  }

  function SignedActual(m: nat): VarianceLine -> int
    requires m < 12
  {
    (line: VarianceLine) => PresentationSign(line.number) * line.actualMonths[m]
  }

  function SignedYear(line: VarianceLine): int {
    PresentationSign(line.number) * line.budgetYearOre
  }

  ghost predicate HoldsMonths(months: seq<int>, lines: seq<VarianceLine>, budget: bool) {
    && |months| == 12
    && forall m | 0 <= m < 12 :: months[m] == if budget then SumBy(SignedBudget(m), lines)
      else SumBy(SignedActual(m), lines)
  }

  // ---------- The report ----------

  method Variance(figures: seq<AccountFigures>, throughMonth: nat) returns (report: VarianceReport)
    ensures report.throughMonth == Clamped(throughMonth)
    ensures throughMonth == 0 ==> report.throughMonth == 1
    ensures 1 <= throughMonth <= 12 ==> report.throughMonth == throughMonth
    ensures throughMonth > 12 ==> report.throughMonth == 12
    ensures |report.sections| == 5
    ensures forall k | 0 <= k < 5 :: report.sections[k] == SectionOf(figures, k, Clamped(throughMonth))
    ensures HoldsMonths(report.resultBudgetMonths, AllLines(figures, Clamped(throughMonth), 5), true)
    ensures HoldsMonths(report.resultActualMonths, AllLines(figures, Clamped(throughMonth), 5), false)
    ensures report.resultBudgetYtdOre == YearToDate(report.resultBudgetMonths, Clamped(throughMonth))
    ensures report.resultActualYtdOre == YearToDate(report.resultActualMonths, Clamped(throughMonth))
    ensures report.resultVarianceYtdOre == report.resultActualYtdOre - report.resultBudgetYtdOre
    ensures report.resultBudgetYearOre == SumBy(SignedYear, AllLines(figures, Clamped(throughMonth), 5))
  {
    hide SectionLines, HoldsMonths, SumBy;
    var through := Clamped(throughMonth);
    var sections: seq<VarianceSection> := [];
    var budgetMonths := new int[12](_ => 0);
    var actualMonths := new int[12](_ => 0);
    var budgetYear := 0;
    NothingHeld(budgetMonths[..], actualMonths[..]);
    for k := 0 to 5
      invariant |sections| == k && forall i | 0 <= i < k :: sections[i] == SectionOf(figures, i, through)
      invariant HoldsMonths(budgetMonths[..], AllLines(figures, through, k), true)
      invariant HoldsMonths(actualMonths[..], AllLines(figures, through, k), false)
      invariant budgetYear == SumBy(SignedYear, AllLines(figures, through, k))
    {
      var lines := SectionLines(figures, k, through);
      budgetYear := AddLines(AllLines(figures, through, k), lines, budgetMonths, actualMonths, budgetYear);
      sections := sections + [SectionOf(figures, k, through)];
    }
    var budget, actual := budgetMonths[..], actualMonths[..];
    report := VarianceReport(through, sections, YearToDate(budget, through), YearToDate(actual, through),
                             YearToDate(actual, through) - YearToDate(budget, through), budgetYear, budget, actual);
  }

  lemma NothingHeld(budget: seq<int>, actual: seq<int>)
    requires |budget| == |actual| == 12 && forall m | 0 <= m < 12 :: budget[m] == actual[m] == 0
    ensures HoldsMonths(budget, [], true) && HoldsMonths(actual, [], false)
    ensures SumBy(SignedYear, []) == 0
  {
  }

  lemma OneMoreLine(lines: seq<VarianceLine>, line: VarianceLine, m: nat)
    requires m < 12
    ensures SumBy(SignedBudget(m), lines + [line]) == SumBy(SignedBudget(m), lines)
      + PresentationSign(line.number) * line.budgetMonths[m]
    ensures SumBy(SignedActual(m), lines + [line]) == SumBy(SignedActual(m), lines)
      + PresentationSign(line.number) * line.actualMonths[m]
    ensures SumBy(SignedYear, lines + [line]) == SumBy(SignedYear, lines) + SignedYear(line)
  {
    SumByOne(SignedBudget(m), lines, line);
    SumByOne(SignedActual(m), lines, line);
    SumByOne(SignedYear, lines, line);
  }

  /** The inner loops: each line's months, signed, into the two result rows. */
  method AddLines(ghost before: seq<VarianceLine>, lines: seq<VarianceLine>, budgetMonths: array<int>,
                  actualMonths: array<int>, budgetYear: int)
    returns (year: int)
    requires budgetMonths != actualMonths
    requires HoldsMonths(budgetMonths[..], before, true) && HoldsMonths(actualMonths[..], before, false)
    requires budgetYear == SumBy(SignedYear, before)
    modifies budgetMonths, actualMonths
    ensures HoldsMonths(budgetMonths[..], before + lines, true)
    ensures HoldsMonths(actualMonths[..], before + lines, false)
    ensures year == SumBy(SignedYear, before + lines)
  {
    hide SumBy, PresentationSign;
    year := budgetYear;
    assert before + lines[..0] == before;
    for i := 0 to |lines|
      invariant HoldsMonths(budgetMonths[..], before + lines[..i], true)
      invariant HoldsMonths(actualMonths[..], before + lines[..i], false)
      invariant year == SumBy(SignedYear, before + lines[..i])
    {
      var line := lines[i];
      var sign := PresentationSign(line.number);
      ghost var done := before + lines[..i];
      AddMonths(done, line, sign, budgetMonths, actualMonths);
      year := year + sign * line.budgetYearOre;
      OneMoreLine(done, line, 0);
      assert before + lines[..i + 1] == done + [line];
    }
    assert lines[..|lines|] == lines;
  }

  method AddMonths(ghost done: seq<VarianceLine>, line: VarianceLine, sign: int, budgetMonths: array<int>,
                   actualMonths: array<int>)
    requires budgetMonths != actualMonths && sign == PresentationSign(line.number)
    requires HoldsMonths(budgetMonths[..], done, true) && HoldsMonths(actualMonths[..], done, false)
    modifies budgetMonths, actualMonths
    ensures HoldsMonths(budgetMonths[..], done + [line], true)
    ensures HoldsMonths(actualMonths[..], done + [line], false)
  {
    hide SumBy, PresentationSign;
    for m := 0 to 12
      invariant budgetMonths.Length == actualMonths.Length == 12
      invariant forall j | 0 <= j < 12 ::
        budgetMonths[j] == SumBy(SignedBudget(j), if j < m then done + [line] else done)
      invariant forall j | 0 <= j < 12 ::
        actualMonths[j] == SumBy(SignedActual(j), if j < m then done + [line] else done)
    {
      OneMoreLine(done, line, m);
      budgetMonths[m] := budgetMonths[m] + sign * line.budgetMonths[m];
      actualMonths[m] := actualMonths[m] + sign * line.actualMonths[m];
    }
  }

  // ---------- Sections are disjoint and leave nothing out ----------

  function SectionFor(number: string): Option<nat> {
    match ClassOf(number)
    case Some(c) =>
      if c == 3 then Some(0) else if c == 4 then Some(1) else if c == 5 then Some(2)
      else if c == 6 || c == 7 then Some(3) else if c == 8 then Some(4) else None
    case None => None
  }

  /** An account is in a section if and only if its class says so: classes 3 to 8 have
      exactly one section each, all other accounts have none. */
  lemma OneSectionPerClass(a: AccountFigures, section: nat)
    requires section < 5
    ensures IsInSection(a, section) <==> SectionFor(a.number) == Some(section)
    ensures SectionFor(a.number).Some? <==> ClassOf(a.number).Some? && 3 <= ClassOf(a.number).value <= 8
  {
  }

  lemma {:induction false} TextLeTotal(a: string, b: string)
    ensures TextLe(a, b) || TextLe(b, a)
  {
    if a != "" && b != "" {
      TextLeTotal(a[1..], b[1..]);
    }
  }

  lemma {:induction false} TextLeTransitive(a: string, b: string, c: string)
    requires TextLe(a, b) && TextLe(b, c)
    ensures TextLe(a, c)
  {
    if a != "" && a[0] == b[0] == c[0] {
      TextLeTransitive(a[1..], b[1..], c[1..]);
    }
  }

  /** The order of the lines: one number is the beginning of the other, or the first
      character in which they differ decides. */
  lemma {:induction false} TextLeIsLexicographic(a: string, b: string)
    ensures TextLe(a, b) <==> a <= b || exists i | 0 <= i < |a| && i < |b| :: a[..i] == b[..i] && a[i] < b[i]
  {
    if a != "" && b != "" {
      TextLeIsLexicographic(a[1..], b[1..]);
      assert a == [a[0]] + a[1..] && b == [b[0]] + b[1..];
      if a[0] == b[0] && TextLe(a[1..], b[1..]) && !(a[1..] <= b[1..]) {
        var i :| 0 <= i < |a[1..]| && i < |b[1..]| && a[1..][..i] == b[1..][..i] && a[1..][i] < b[1..][i];
        assert a[..i + 1] == [a[0]] + a[1..][..i] && b[..i + 1] == [b[0]] + b[1..][..i];
        assert a[i + 1] < b[i + 1];
      }
      if i :| 0 <= i < |a| && i < |b| && a[..i] == b[..i] && a[i] < b[i] {
        if i > 0 {
          assert a[0] == a[..i][0] == b[..i][0] == b[0];
          assert a[1..][..i - 1] == a[..i][1..] && b[1..][..i - 1] == b[..i][1..];
          assert a[1..][i - 1] < b[1..][i - 1];
        } else {
          assert a[0] < b[0];
        }
      } else if a <= b {
        assert a[0] == b[0] && a[1..] <= b[1..];
      }
    }
  }

  lemma LineOrder()
    ensures TotalPreorder(LineLe)
  {
    forall a, b ensures LineLe(a, b) || LineLe(b, a) {
      TextLeTotal(a.number, b.number);
    }
    forall a, b, c | LineLe(a, b) && LineLe(b, c) ensures LineLe(a, c) {
      TextLeTransitive(a.number, b.number, c.number);
    }
  }

  lemma SectionLinesAreSorted(figures: seq<AccountFigures>, section: nat, through: nat)
    requires section < 5 && through <= 12
    ensures SortedBy(LineLe, SectionLines(figures, section, through))
    ensures multiset(SectionLines(figures, section, through))
      == multiset(LinesOf(AccountsIn(figures, section), through))
  {
    LineOrder();
    hide TotalPreorder, SortedBy, Sort;
    SortIsSorted(LineLe, LinesOf(AccountsIn(figures, section), through));
  }

  /** The accounts the report is about. */
  predicate IsReported(a: AccountFigures) {
    SectionFor(a.number).Some? && HasFigures(a)
  }

  function Reported(figures: seq<AccountFigures>): seq<AccountFigures> {
    Filter(IsReported, figures)
  }

  function UnsortedLines(figures: seq<AccountFigures>, through: nat, k: nat): multiset<VarianceLine>
    requires through <= 12 && k <= 5
  {
    if k == 0 then multiset{}
    else UnsortedLines(figures, through, k - 1) + multiset(LinesOf(AccountsIn(figures, k - 1), through))
  }

  lemma {:induction false} AllLinesAreUnsorted(figures: seq<AccountFigures>, through: nat, k: nat)
    requires through <= 12 && k <= 5
    ensures multiset(AllLines(figures, through, k)) == UnsortedLines(figures, through, k)
  {
    hide SectionLines, LinesOf, AccountsIn;
    if k > 0 {
      AllLinesAreUnsorted(figures, through, k - 1);
      SectionLinesAreSorted(figures, k - 1, through);
    }
  }

  lemma LinesOfOne(accounts: seq<AccountFigures>, a: AccountFigures, through: nat)
    requires through <= 12
    ensures LinesOf(accounts + [a], through) == LinesOf(accounts, through) + [LineOf(a, through)]
  {
  }

  lemma {:induction false} OneAccountOneLine(front: seq<AccountFigures>, a: AccountFigures, through: nat, k: nat)
    requires through <= 12 && k <= 5
    ensures UnsortedLines(front + [a], through, k)
         == UnsortedLines(front, through, k)
          + if IsReported(a) && SectionFor(a.number).value < k then multiset{LineOf(a, through)} else multiset{}
  {
    hide LinesOf, HasFigures, LineOf, SectionFor, AccountsIn, Filter;
    if k > 0 {
      OneAccountOneLine(front, a, through, k - 1);
      OneAccountInSection(front, a, through, k - 1);
    }
  }

  lemma OneAccountInSection(front: seq<AccountFigures>, a: AccountFigures, through: nat, section: nat)
    requires through <= 12 && section < 5
    ensures multiset(LinesOf(AccountsIn(front + [a], section), through))
         == multiset(LinesOf(AccountsIn(front, section), through))
          + if IsReported(a) && SectionFor(a.number).value == section then multiset{LineOf(a, through)} else multiset{}
  {
    hide LinesOf, HasFigures, LineOf, SectionFor, IsInSection;
    OneSectionPerClass(a, section);
    FilterOne((b: AccountFigures) => Belongs(b, section), front, a);
    if Belongs(a, section) {
      LinesOfOne(AccountsIn(front, section), a, through);
    } else {
      assert AccountsIn(front, section) + [] == AccountsIn(front, section);
    }
  }

  /** Every account of classes 3 to 8 with a figure on either side has exactly one line
      in the report, and no other account has any. */
  lemma {:induction false} EveryAccountHasOneLine(figures: seq<AccountFigures>, through: nat)
    requires through <= 12
    ensures multiset(AllLines(figures, through, 5)) == multiset(LinesOf(Reported(figures), through))
  {
    AllLinesAreUnsorted(figures, through, 5);
    UnsortedIsReported(figures, through);
  }

  lemma {:induction false} UnsortedIsReported(figures: seq<AccountFigures>, through: nat)
    requires through <= 12
    ensures UnsortedLines(figures, through, 5) == multiset(LinesOf(Reported(figures), through))
  {
    if figures == [] {
      NoAccounts(through, 5);
    } else {
      hide UnsortedLines, LineOf, HasFigures, SectionFor;
      var front, last := figures[..|figures| - 1], figures[|figures| - 1];
      assert figures == front + [last];
      UnsortedIsReported(front, through);
      OneAccountOneLine(front, last, through, 5);
      ReportedFits(last);
      if IsReported(last) {
        LinesOfOne(Reported(front), last, through);
        assert Reported(figures) == Reported(front) + [last];
      } else {
        assert Reported(figures) == Reported(front) + [] == Reported(front);
      }
    }
  }

  lemma ReportedFits(a: AccountFigures)
    ensures IsReported(a) ==> SectionFor(a.number).value < 5
  {
  }

  lemma {:induction false} NoAccounts(through: nat, k: nat)
    requires through <= 12 && k <= 5
    ensures UnsortedLines([], through, k) == multiset{}
  {
    if k > 0 {
      NoAccounts(through, k - 1);
    }
  }

  // ---------- The result, by two routes ----------

  /** A line's year-to-date figures are those of its own months. */
  ghost predicate IsComputed(line: VarianceLine, through: nat)
    requires through <= 12
  {
    && line.budgetYtdOre == YearToDate(line.budgetMonths, through)
    && line.actualYtdOre == YearToDate(line.actualMonths, through)
    && line.budgetYearOre == SumBy(Figure, line.budgetMonths)
  }

  lemma {:induction false} YearToDatePlus(a: Months, b: Months, c: Months, sign: int, through: nat)
    requires through <= 12 && forall m | 0 <= m < 12 :: c[m] == a[m] + sign * b[m]
    ensures YearToDate(c, through) == YearToDate(a, through) + sign * YearToDate(b, through)
    decreases through
  {
    if through > 0 {
      YearToDatePlus(a, b, c, sign, through - 1);
      YearToDateOne(a, through);
      YearToDateOne(b, through);
      YearToDateOne(c, through);
      hide YearToDate;
      assert sign * (YearToDate(b, through - 1) + b[through - 1]) == sign * YearToDate(b, through - 1)
        + sign * b[through - 1];
    }
  }

  lemma YearToDateOne(months: Months, through: nat)
    requires 0 < through <= 12
    ensures YearToDate(months, through) == YearToDate(months, through - 1) + months[through - 1]
  {
    assert months[..through] == months[..through - 1] + [months[through - 1]];
    SumByOne(Figure, months[..through - 1], months[through - 1]);
  }

  function SignedYtd(budget: bool): VarianceLine -> int {
    (line: VarianceLine) => PresentationSign(line.number) * if budget then line.budgetYtdOre else line.actualYtdOre
  }

  function ResultMonths(lines: seq<VarianceLine>, budget: bool): Months {
    seq(12, m requires 0 <= m < 12 => if budget then SumBy(SignedBudget(m), lines) else SumBy(SignedActual(m), lines))
  }

  /** Month by month and then to date is line by line to date. */
  lemma {:induction false} MonthsThenLines(lines: seq<VarianceLine>, through: nat, budget: bool)
    requires through <= 12 && forall line | line in lines :: IsComputed(line, through)
    ensures YearToDate(ResultMonths(lines, budget), through) == SumBy(SignedYtd(budget), lines)
  {
    if lines == [] {
      ZerosToDate(ResultMonths(lines, budget), through);
    } else {
      var front, last := lines[..|lines| - 1], lines[|lines| - 1];
      assert lines == front + [last];
      MonthsThenLines(front, through, budget);
      var months, sign := if budget then last.budgetMonths else last.actualMonths, PresentationSign(last.number);
      forall m | 0 <= m < 12 ensures ResultMonths(lines, budget)[m] == ResultMonths(front, budget)[m]
        + sign * months[m] {
        OneMoreLine(front, last, m);
      }
      assert IsComputed(last, through);
      YearToDatePlus(ResultMonths(front, budget), months, ResultMonths(lines, budget), sign, through);
      SumByOne(SignedYtd(budget), front, last);
      hide YearToDate, SumBy, ResultMonths, PresentationSign;
    }
  }

  lemma {:induction false} ZerosToDate(months: Months, through: nat)
    requires through <= 12 && forall m | 0 <= m < 12 :: months[m] == 0
    ensures YearToDate(months, through) == 0
    decreases through
  {
    if through > 0 {
      ZerosToDate(months, through - 1);
      YearToDateOne(months, through);
    }
  }

  lemma SectionLinesAreComputed(figures: seq<AccountFigures>, section: nat, through: nat, line: VarianceLine)
    requires section < 5 && through <= 12 && line in SectionLines(figures, section, through)
    ensures IsComputed(line, through) && PresentationSign(line.number) == if section == 0 then 1 else -1
  {
    SectionLinesAreSorted(figures, section, through);
    var accounts := AccountsIn(figures, section);
    assert line in multiset(LinesOf(accounts, through));
    var i :| 0 <= i < |accounts| && LinesOf(accounts, through)[i] == line;
    FilterMembers((a: AccountFigures) => Belongs(a, section), figures);
    assert accounts[i] in accounts;
    OneSectionPerClass(accounts[i], section);
    hide SectionLines, Filter, HasFigures, YearToDate, SumBy;
  }

  lemma {:induction false} AllLinesAreComputed(figures: seq<AccountFigures>, through: nat, k: nat)
    requires through <= 12 && k <= 5
    ensures forall line | line in AllLines(figures, through, k) :: IsComputed(line, through)
  {
    hide SectionLines, IsComputed;
    if k > 0 {
      AllLinesAreComputed(figures, through, k - 1);
      forall line | line in SectionLines(figures, k - 1, through) ensures IsComputed(line, through) {
        SectionLinesAreComputed(figures, k - 1, through, line);
      }
    }
  }

  /** What a section adds to the result: its total, with its sign. */
  lemma SectionCounts(figures: seq<AccountFigures>, section: nat, through: nat)
    requires section < 5 && through <= 12
    ensures
      var lines, sign := SectionLines(figures, section, through), if section == 0 then 1 else -1;
      && SumBy(SignedYtd(true), lines) == sign * SumBy(BudgetYtd, lines)
      && SumBy(SignedYtd(false), lines) == sign * SumBy(ActualYtd, lines)
      && SumBy(SignedYear, lines) == sign * SumBy(BudgetYear, lines)
  {
    var lines, sign := SectionLines(figures, section, through), if section == 0 then 1 else -1;
    forall line | line in lines ensures PresentationSign(line.number) == sign {
      SectionLinesAreComputed(figures, section, through, line);
    }
    hide SectionLines, PresentationSign;
    SumByScale(sign, BudgetYtd, SignedYtd(true), lines);
    SumByScale(sign, ActualYtd, SignedYtd(false), lines);
    SumByScale(sign, BudgetYear, SignedYear, lines);
  }

  /** Income less the four kinds of cost. */
  function NetOfSections(sections: seq<VarianceSection>, total: VarianceSection -> int): int
    requires |sections| == 5
  {
    total(sections[0]) - total(sections[1]) - total(sections[2]) - total(sections[3]) - total(sections[4])
  }

  function Sections(figures: seq<AccountFigures>, through: nat): (sections: seq<VarianceSection>)
    requires through <= 12
    ensures |sections| == 5
  {
    [SectionOf(figures, 0, through), SectionOf(figures, 1, through), SectionOf(figures, 2, through),
     SectionOf(figures, 3, through), SectionOf(figures, 4, through)]
  }

  lemma SumOverSections(f: VarianceLine -> int, figures: seq<AccountFigures>, through: nat)
    requires through <= 12
    ensures SumBy(f, AllLines(figures, through, 5))
         == SumBy(f, SectionLines(figures, 0, through)) + SumBy(f, SectionLines(figures, 1, through))
          + SumBy(f, SectionLines(figures, 2, through)) + SumBy(f, SectionLines(figures, 3, through))
          + SumBy(f, SectionLines(figures, 4, through))
  {
    hide SectionLines;
    NextSection(f, figures, through, 1);
    NextSection(f, figures, through, 2);
    NextSection(f, figures, through, 3);
    NextSection(f, figures, through, 4);
    NextSection(f, figures, through, 5);
    assert AllLines(figures, through, 0) == [];
    hide AllLines;
  }

  lemma NextSection(f: VarianceLine -> int, figures: seq<AccountFigures>, through: nat, k: nat)
    requires through <= 12 && 0 < k <= 5
    ensures SumBy(f, AllLines(figures, through, k))
         == SumBy(f, AllLines(figures, through, k - 1)) + SumBy(f, SectionLines(figures, k - 1, through))
  {
    hide SectionLines;
    SumByAppend(f, AllLines(figures, through, k - 1), SectionLines(figures, k - 1, through));
  }

  /** The two routes to the result agree, for budget, actuals and the full year: the
      monthly results added up to date, and the income section less the cost
      sections. Hence the variances agree too. */
  lemma ResultsAgree(figures: seq<AccountFigures>, through: nat, budgetMonths: Months, actualMonths: Months)
    requires 1 <= through <= 12
    requires HoldsMonths(budgetMonths, AllLines(figures, through, 5), true)
    requires HoldsMonths(actualMonths, AllLines(figures, through, 5), false)
    ensures
      var sections := Sections(figures, through);
      && YearToDate(budgetMonths, through) == NetOfSections(sections, (s: VarianceSection) => s.budgetYtdOre)
      && YearToDate(actualMonths, through) == NetOfSections(sections, (s: VarianceSection) => s.actualYtdOre)
      && YearToDate(actualMonths, through) - YearToDate(budgetMonths, through)
         == NetOfSections(sections, (s: VarianceSection) => s.varianceYtdOre)
      && SumBy(SignedYear, AllLines(figures, through, 5))
         == NetOfSections(sections, (s: VarianceSection) => s.budgetYearOre)
  {
    hide SectionLines, AllLines, SumBy, YearToDate, ResultMonths, IsComputed, HoldsMonths;
    var lines := AllLines(figures, through, 5);
    AllLinesAreComputed(figures, through, 5);
    HeldMonths(budgetMonths, lines, true);
    HeldMonths(actualMonths, lines, false);
    MonthsThenLines(lines, through, true);
    MonthsThenLines(lines, through, false);
    SectionsCount(figures, through);
  }

  lemma HeldMonths(months: Months, lines: seq<VarianceLine>, budget: bool)
    requires HoldsMonths(months, lines, budget)
    ensures months == ResultMonths(lines, budget)
  {
    hide SumBy;
  }

  lemma SectionsCount(figures: seq<AccountFigures>, through: nat)
    requires through <= 12
    ensures
      var lines, sections := AllLines(figures, through, 5), Sections(figures, through);
      && SumBy(SignedYtd(true), lines) == NetOfSections(sections, (s: VarianceSection) => s.budgetYtdOre)
      && SumBy(SignedYtd(false), lines) == NetOfSections(sections, (s: VarianceSection) => s.actualYtdOre)
      && SumBy(SignedYear, lines) == NetOfSections(sections, (s: VarianceSection) => s.budgetYearOre)
  {
    hide SectionLines, AllLines, SumBy;
    SumOverSections(SignedYtd(true), figures, through);
    SumOverSections(SignedYtd(false), figures, through);
    SumOverSections(SignedYear, figures, through);
    SectionCounts(figures, 0, through);
    SectionCounts(figures, 1, through);
    SectionCounts(figures, 2, through);
    SectionCounts(figures, 3, through);
    SectionCounts(figures, 4, through);
  }

  // ---------- A budget from last year ----------

  function ScaleOre(amountOre: int, scaleBp: int): int {
    HalfAway(amountOre * (10_000 + scaleBp), 10_000)
  }

  /** Within half an øre of the exact share, the same for income and cost, and nothing
      changes at zero percent. */
  lemma ScalingIsExactToHalfAnOre(amountOre: int, scaleBp: int)
    ensures -5_000 <= 10_000 * ScaleOre(amountOre, scaleBp) - amountOre * (10_000 + scaleBp) <= 5_000
    ensures ScaleOre(-amountOre, scaleBp) == -ScaleOre(amountOre, scaleBp)
    ensures ScaleOre(amountOre, 0) == amountOre
  {
    hide HalfAway;
    HalfAwayIsNearest(amountOre * (10_000 + scaleBp), 10_000);
    HalfAwayIsOdd(amountOre * (10_000 + scaleBp), 10_000);
    assert (-amountOre) * (10_000 + scaleBp) == -(amountOre * (10_000 + scaleBp));
    NearestIsUnique(amountOre * 10_000, 10_000, amountOre);
  }
}
