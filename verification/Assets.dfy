/** The fixed asset register: straight-line depreciation and the tax saldo. */
module Assets {
  import opened Rounding
  import opened Sums
  import Accrual

  function MonthlyAmount(costOre: int, residualOre: int, lifeMonths: int, monthNo: int): int
    requires 1 <= monthNo <= lifeMonths
  {
    var depreciable := costOre - residualOre;
    var base := TruncDiv(depreciable, lifeMonths);
    if monthNo < lifeMonths then base else depreciable - base * (lifeMonths - 1)
  }

  /** The asset's whole life is one accrual plan over the depreciable amount, whatever
      month it starts in. */
  lemma AssetPlanIsAnAccrualPlan(costOre: int, residualOre: int, from: Accrual.CalendarMonth, to: Accrual.CalendarMonth,
                                 monthNo: int)
    requires 1 <= monthNo <= Accrual.MonthCount(from, to)
    ensures MonthlyAmount(costOre, residualOre, Accrual.MonthCount(from, to), monthNo)
         == Accrual.Plan(costOre - residualOre, from, to)[monthNo - 1].amountOre
    ensures SumBy(Accrual.Amount, Accrual.Plan(costOre - residualOre, from, to)) == costOre - residualOre
  {
    Accrual.PlanSumsToTheTotal(costOre - residualOre, from, to);
  }

  // ---------- The tax saldo ----------

  datatype TaxDepreciationYear = TaxDepreciationYear(basisOre: int, depreciationOre: int, closingOre: int)

  function TaxYear(openingOre: int, additionsOre: int, proceedsOre: int, rateBp: int): TaxDepreciationYear {
    var basis := openingOre + additionsOre - proceedsOre;
    var depreciation := if basis > 0 then TruncDiv(basis * rateBp + 5000, 10000) else 0;
    TaxDepreciationYear(basis, depreciation, basis - depreciation)
  }

  datatype YearInput = YearInput(additionsOre: int, proceedsOre: int, rateBp: int)

  /** Year after year, each opening with the closing saldo of the one before. */
  function TaxYears(openingOre: int, years: seq<YearInput>): (rows: seq<TaxDepreciationYear>)
    ensures |rows| == |years|
  {
    if years == [] then []
    else
      var front, last := TaxYears(openingOre, years[..|years| - 1]), years[|years| - 1];
      front + [TaxYear(Closing(openingOre, front), last.additionsOre, last.proceedsOre, last.rateBp)]
  }

  function Closing(openingOre: int, rows: seq<TaxDepreciationYear>): int {
    if rows == [] then openingOre else rows[|rows| - 1].closingOre
  }

  function Depreciation(row: TaxDepreciationYear): int {
    row.depreciationOre
  }

  function NetAdditions(year: YearInput): int {
    year.additionsOre - year.proceedsOre
  }

  /** Nothing appears or disappears over any number of years: what was depreciated and
      what is left is what was there and what was added, less what was sold. */
  lemma {:induction false} SaldoIsConserved(openingOre: int, years: seq<YearInput>)
    ensures SumBy(Depreciation, TaxYears(openingOre, years)) + Closing(openingOre, TaxYears(openingOre, years))
         == openingOre + SumBy(NetAdditions, years)
  {
    if years != [] {
      var front, last := years[..|years| - 1], years[|years| - 1];
      SaldoIsConserved(openingOre, front);
      var rows := TaxYears(openingOre, front);
      SumByOne(Depreciation, rows, TaxYear(Closing(openingOre, rows), last.additionsOre, last.proceedsOre,
                                           last.rateBp));
    }
  }

  /** With a rate from nothing to everything, each year writes off no less than nothing
      and no more than the basis, within half an øre of the exact rate; a basis that
      is not positive is carried on untouched. */
  lemma YearIsWithinItsBasis(openingOre: int, additionsOre: int, proceedsOre: int, rateBp: int)
    requires 0 <= rateBp <= 10000
    ensures
      var year := TaxYear(openingOre, additionsOre, proceedsOre, rateBp);
      && year.basisOre == openingOre + additionsOre - proceedsOre
      && year.closingOre == year.basisOre - year.depreciationOre
      && if year.basisOre > 0 then
        && 0 <= year.depreciationOre <= year.basisOre && 0 <= year.closingOre <= year.basisOre
        && -5000 < 10000 * year.depreciationOre - year.basisOre * rateBp <= 5000
        && (rateBp == 10000 ==> year.closingOre == 0)
      else
        year.depreciationOre == 0 && year.closingOre == year.basisOre
  {
    var basis := openingOre + additionsOre - proceedsOre;
    if basis > 0 {
      var exact := basis * rateBp;
      ShareOfBasis(basis, rateBp);
      QuotientBounds(exact + 5000, 10000);
    }
  }

  lemma ShareOfBasis(basis: int, rateBp: int)
    requires basis > 0 && 0 <= rateBp <= 10000
    ensures 0 <= basis * rateBp <= basis * 10000
  {
  }
}
