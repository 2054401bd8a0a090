/** The budget report on the figures it was made from: every number in it as a sum over the
    accounts. */
module BudgetFigures {
  import opened Sums
  import opened Sorting
  import opened Decimal
  import opened Budget

  function Total(months: seq<int>): int {
    SumBy((ore: int) => ore, months)
  }

  /** The section an account stands in, by the first character of its number. */
  predicate StandsIn(a: AccountFigures, section: nat)
    requires section < 5
  {
    && a.number != ""
    && (if section == 0 then a.number[0] == '3'
        else if section == 1 then a.number[0] == '4'
        else if section == 2 then a.number[0] == '5'
        else if section == 3 then a.number[0] == '6' || a.number[0] == '7'
        else a.number[0] == '8')
  }

  lemma StandingIsBelonging(a: AccountFigures, section: nat)
    requires section < 5
    ensures StandsIn(a, section) <==> IsInSection(a, section)
  {
    OneSectionPerClass(a, section);
    hide IsInSection;
  }

  lemma {:induction false} TotalsAgree(months: seq<int>)
    ensures SumBy(Figure, months) == Total(months)
  {
    SumByAgree(Figure, (ore: int) => ore, months);
  }

  lemma NothingSums(months: seq<int>)
    requires forall ore | ore in months :: ore == 0
    ensures Total(months) == 0
  {
    SumOfZero((ore: int) => ore, months);
  }

  /** Over a section's lines, summing what a line says is summing what its account says,
      with nothing for the accounts that are elsewhere or have no figures. */
  lemma SumOverSection(f: VarianceLine -> int, g: AccountFigures -> int, figures: seq<AccountFigures>, section: nat,
                       through: nat)
    requires section < 5 && through <= 12
    requires forall a | a in figures :: g(a) == if Belongs(a, section) then f(LineOf(a, through)) else 0
    ensures SumBy(f, SectionLines(figures, section, through)) == SumBy(g, figures)
  {
    hide LineOf, Belongs, SectionLines;
    var accounts := AccountsIn(figures, section);
    SectionLinesAreSorted(figures, section, through);
    SumByPermutation(f, SectionLines(figures, section, through), LinesOf(accounts, through));
    SumOverLines(f, accounts, through);
    SumByFilter((a: AccountFigures) => f(LineOf(a, through)), (a: AccountFigures) => Belongs(a, section), g, figures);
  }

  lemma {:induction false} SumOverLines(f: VarianceLine -> int, accounts: seq<AccountFigures>, through: nat)
    requires through <= 12
    ensures SumBy(f, LinesOf(accounts, through)) == SumBy((a: AccountFigures) => f(LineOf(a, through)), accounts)
  {
    hide LineOf;
    if accounts != [] {
      var front, last := accounts[..|accounts| - 1], accounts[|accounts| - 1];
      SumOverLines(f, front, through);
      assert LinesOf(accounts, through) == LinesOf(front, through) + [LineOf(last, through)];
      SumByOne(f, LinesOf(front, through), LineOf(last, through));
    }
  }

  /** What one account counts for, whether or not it has any figures. */
  lemma AccountCounts(a: AccountFigures, section: nat, through: nat)
    requires section < 5 && through <= 12
    ensures
      var line := LineOf(a, through);
      && (if StandsIn(a, section) then Total(a.budget[..through]) else 0)
        == (if Belongs(a, section) then line.budgetYtdOre else 0)
      && (if StandsIn(a, section) then Total(a.actual[..through]) else 0)
        == (if Belongs(a, section) then line.actualYtdOre else 0)
      && (if StandsIn(a, section) then Total(a.budget) else 0)
        == (if Belongs(a, section) then line.budgetYearOre else 0)
  {
    StandingIsBelonging(a, section);
    TotalsAgree(a.budget[..through]);
    TotalsAgree(a.actual[..through]);
    TotalsAgree(a.budget);
    hide SumBy, StandsIn, IsInSection, Total;
    if !HasFigures(a) {
      NothingSums(a.budget[..through]);
      NothingSums(a.actual[..through]);
      NothingSums(a.budget);
    }
  }

  /** Every section of the report: its heading, and its figures as sums over the accounts
      whose numbers start with its digits. */
  lemma SectionOnFigures(figures: seq<AccountFigures>, section: nat, through: nat)
    requires section < 5 && through <= 12
    ensures
      var s := SectionOf(figures, section, through);
      && s.heading == ["Driftsinntekter", "Varekostnad", "Lønnskostnad", "Annen driftskostnad",
                       "Finansposter, skatt m.m."][section]
      && s.budgetYtdOre == SumBy((a: AccountFigures) => if StandsIn(a, section) then Total(a.budget[..through])
                                 else 0, figures)
      && s.actualYtdOre == SumBy((a: AccountFigures) => if StandsIn(a, section) then Total(a.actual[..through])
                                 else 0, figures)
      && s.varianceYtdOre == s.actualYtdOre - s.budgetYtdOre
      && s.budgetYearOre == SumBy((a: AccountFigures) => if StandsIn(a, section) then Total(a.budget) else 0, figures)
  {
    hide SectionLines, SumBy, Total, StandsIn, Belongs, LineOf;
    forall a | a in figures
      ensures
        var line := LineOf(a, through);
        && (if StandsIn(a, section) then Total(a.budget[..through]) else 0)
          == (if Belongs(a, section) then BudgetYtd(line) else 0)
        && (if StandsIn(a, section) then Total(a.actual[..through]) else 0)
          == (if Belongs(a, section) then ActualYtd(line) else 0)
        && (if StandsIn(a, section) then Total(a.budget) else 0)
          == (if Belongs(a, section) then BudgetYear(line) else 0)
    {
      AccountCounts(a, section, through);
    }
    SumOverSection(BudgetYtd, (a: AccountFigures) => if StandsIn(a, section) then Total(a.budget[..through]) else 0,
                   figures, section, through);
    SumOverSection(ActualYtd, (a: AccountFigures) => if StandsIn(a, section) then Total(a.actual[..through]) else 0,
                   figures, section, through);
    SumOverSection(BudgetYear, (a: AccountFigures) => if StandsIn(a, section) then Total(a.budget) else 0, figures,
                   section, through);
  }

  /** Every line of a section, and only they: an account of the section with some figure, its
      months, its sums to date and for the year, and the variance as actual less budget. */
  lemma LinesOnFigures(figures: seq<AccountFigures>, section: nat, through: nat, line: VarianceLine)
    requires section < 5 && through <= 12
    ensures line in SectionOf(figures, section, through).lines <==>
      exists a | a in figures && StandsIn(a, section) ::
        && (exists m | 0 <= m < 12 :: a.budget[m] != 0 || a.actual[m] != 0)
        && line == VarianceLine(a.number, a.name, Total(a.budget[..through]), Total(a.actual[..through]),
                                Total(a.actual[..through]) - Total(a.budget[..through]), Total(a.budget), a.budget,
                                  a.actual)
  {
    hide SumBy, Sort, Filter, StandsIn, IsInSection;
    SectionLinesAreSorted(figures, section, through);
    var accounts := AccountsIn(figures, section);
    FilterMembers((a: AccountFigures) => Belongs(a, section), figures);
    assert line in SectionLines(figures, section, through) <==> line in multiset(LinesOf(accounts, through));
    forall a: AccountFigures
      ensures StandsIn(a, section) <==> IsInSection(a, section)
      ensures LineOf(a, through)
           == VarianceLine(a.number, a.name, Total(a.budget[..through]), Total(a.actual[..through]),
                           Total(a.actual[..through]) - Total(a.budget[..through]), Total(a.budget), a.budget, a.actual)
    {
      StandingIsBelonging(a, section);
      TotalsAgree(a.budget[..through]);
      TotalsAgree(a.actual[..through]);
      TotalsAgree(a.budget);
    }
    hide SectionLines, Total, LineOf;
    if line in LinesOf(accounts, through) {
      var i :| 0 <= i < |accounts| && LinesOf(accounts, through)[i] == line;
      assert accounts[i] in accounts;
    }
    forall a | a in accounts && LineOf(a, through) == line ensures line in LinesOf(accounts, through) {
      var i :| 0 <= i < |accounts| && accounts[i] == a;
      assert LinesOf(accounts, through)[i] == line;
    }
  }

  /** What a line counts for in the result: income adds, cost subtracts. */
  function InResult(number: string, ore: int): int {
    if number != "" && number[0] == '3' then ore else if number != "" && '4' <= number[0] <= '8' then -ore else 0
  }

  /** The accounts of the first `k` sections. */
  predicate StandsBefore(a: AccountFigures, k: nat)
    requires k <= 5
  {
    exists section: nat | section < k :: StandsIn(a, section)
  }

  lemma {:induction false} SumOverAll(f: VarianceLine -> int, g: AccountFigures -> int, figures: seq<AccountFigures>,
                                      through: nat, k: nat)
    requires through <= 12 && k <= 5
    requires forall a, section: nat | a in figures && section < 5 && StandsIn(a, section) ::
               g(a) == if Belongs(a, section) then f(LineOf(a, through)) else 0
    ensures SumBy(f, AllLines(figures, through, k))
         == SumBy((a: AccountFigures) => if StandsBefore(a, k) then g(a) else 0, figures)
    decreases k
  {
    hide LineOf, Belongs, SectionLines, StandsIn, SumBy;
    if k == 0 {
      NothingBefore(f, g, figures);
    } else {
      SumOverAll(f, g, figures, through, k - 1);
      NextSection(f, figures, through, k);
      var here := (a: AccountFigures) => if StandsIn(a, k - 1) then g(a) else 0;
      forall a | a in figures ensures here(a) == if Belongs(a, k - 1) then f(LineOf(a, through)) else 0 {
        BelongingStands(a, k - 1);
      }
      SumOverSection(f, here, figures, k - 1, through);
      forall a | a in figures
        ensures (if StandsBefore(a, k) then g(a) else 0) == (if StandsBefore(a, k - 1) then g(a) else 0) + here(a)
      {
        StandsOnce(a, k);
      }
      SumByPlus((a: AccountFigures) => if StandsBefore(a, k - 1) then g(a) else 0, here,
                (a: AccountFigures) => if StandsBefore(a, k) then g(a) else 0, figures);
    }
  }

  lemma NothingBefore(f: VarianceLine -> int, g: AccountFigures -> int, figures: seq<AccountFigures>)
    ensures SumBy(f, []) == 0 == SumBy((a: AccountFigures) => if StandsBefore(a, 0) then g(a) else 0, figures)
  {
    SumOfZero((a: AccountFigures) => if StandsBefore(a, 0) then g(a) else 0, figures);
  }

  lemma BelongingStands(a: AccountFigures, section: nat)
    requires section < 5
    ensures Belongs(a, section) ==> StandsIn(a, section)
  {
    StandingIsBelonging(a, section);
    hide IsInSection, StandsIn;
  }

  lemma StandsOnce(a: AccountFigures, k: nat)
    requires 0 < k <= 5
    ensures StandsBefore(a, k) <==> StandsBefore(a, k - 1) || StandsIn(a, k - 1)
    ensures !(StandsBefore(a, k - 1) && StandsIn(a, k - 1))
  {
  }

  lemma StandsSomewhere(a: AccountFigures)
    ensures StandsBefore(a, 5) <==> a.number != "" && '3' <= a.number[0] <= '8'
  {
    if a.number != "" {
      var c := a.number[0];
      assert c == '3' ==> StandsIn(a, 0);
      assert c == '4' ==> StandsIn(a, 1);
      assert c == '5' ==> StandsIn(a, 2);
      assert c == '6' || c == '7' ==> StandsIn(a, 3);
      assert c == '8' ==> StandsIn(a, 4);
    }
  }

  /** A line's sign is its account's. */
  lemma SignOf(a: AccountFigures, section: nat, ore: int)
    requires section < 5 && StandsIn(a, section)
    ensures InResult(a.number, ore) == PresentationSign(a.number) * ore
  {
    assert IsDigit(a.number[0]);
  }

  lemma MonthCounts(a: AccountFigures, section: nat, through: nat, m: nat)
    requires section < 5 && through <= 12 && m < 12 && StandsIn(a, section)
    ensures InResult(a.number, a.budget[m]) == if Belongs(a, section) then SignedBudget(m)(LineOf(a, through)) else 0
    ensures InResult(a.number, a.actual[m]) == if Belongs(a, section) then SignedActual(m)(LineOf(a, through)) else 0
    ensures InResult(a.number, Total(a.budget)) == if Belongs(a, section) then SignedYear(LineOf(a, through)) else 0
  {
    StandingIsBelonging(a, section);
    SignOf(a, section, a.budget[m]);
    SignOf(a, section, a.actual[m]);
    SignOf(a, section, Total(a.budget));
    TotalsAgree(a.budget);
    hide SumBy, StandsIn, IsInSection, Total, PresentationSign, YearToDate;
    if !HasFigures(a) {
      NothingSums(a.budget);
    }
  }

  lemma EverywhereOrNothing(a: AccountFigures, ore: int)
    ensures (if StandsBefore(a, 5) then InResult(a.number, ore) else 0) == InResult(a.number, ore)
  {
    StandsSomewhere(a);
    hide StandsBefore;
  }

  /** The monthly results and the year's: over all accounts, what is income counts for and
      what is cost counts against, by the first character of the number. */
  lemma ResultOnFigures(figures: seq<AccountFigures>, through: nat, budgetMonths: Months, actualMonths: Months, m: nat)
    requires through <= 12 && m < 12
    requires HoldsMonths(budgetMonths, AllLines(figures, through, 5), true)
    requires HoldsMonths(actualMonths, AllLines(figures, through, 5), false)
    ensures budgetMonths[m] == SumBy((a: AccountFigures) => InResult(a.number, a.budget[m]), figures)
    ensures actualMonths[m] == SumBy((a: AccountFigures) => InResult(a.number, a.actual[m]), figures)
    ensures SumBy(SignedYear, AllLines(figures, through, 5))
      == SumBy((a: AccountFigures) => InResult(a.number, Total(a.budget)), figures)
  {
    hide SumBy, AllLines, Total, StandsIn, Belongs, LineOf, InResult, SignedBudget, SignedActual, SignedYear,
      StandsBefore;
    forall a, section: nat | a in figures && section < 5 && StandsIn(a, section)
      ensures InResult(a.number, a.budget[m]) == if Belongs(a, section) then SignedBudget(m)(LineOf(a, through)) else 0
      ensures InResult(a.number, a.actual[m]) == if Belongs(a, section) then SignedActual(m)(LineOf(a, through)) else 0
      ensures InResult(a.number, Total(a.budget)) == if Belongs(a, section) then SignedYear(LineOf(a, through)) else 0
    {
      MonthCounts(a, section, through, m);
    }
    EverySection(SignedBudget(m), (a: AccountFigures) => InResult(a.number, a.budget[m]),
                 (a: AccountFigures) => a.budget[m], figures, through);
    EverySection(SignedActual(m), (a: AccountFigures) => InResult(a.number, a.actual[m]),
                 (a: AccountFigures) => a.actual[m], figures, through);
    EverySection(SignedYear, (a: AccountFigures) => InResult(a.number, Total(a.budget)),
                 (a: AccountFigures) => Total(a.budget), figures, through);
  }

  lemma EverySection(f: VarianceLine -> int, g: AccountFigures -> int, ore: AccountFigures -> int,
                     figures: seq<AccountFigures>, through: nat)
    requires through <= 12
    requires forall a | a in figures :: g(a) == InResult(a.number, ore(a))
    requires forall a, section: nat | a in figures && section < 5 && StandsIn(a, section) ::
               g(a) == if Belongs(a, section) then f(LineOf(a, through)) else 0
    ensures SumBy(f, AllLines(figures, through, 5)) == SumBy(g, figures)
  {
    hide SumBy, AllLines, StandsIn, Belongs, LineOf, InResult, StandsBefore;
    SumOverAll(f, g, figures, through, 5);
    forall a | a in figures ensures (if StandsBefore(a, 5) then g(a) else 0) == g(a) {
      EverywhereOrNothing(a, ore(a));
    }
    SumByAgree((a: AccountFigures) => if StandsBefore(a, 5) then g(a) else 0, g, figures);
  }
}
