/**
 * The static 2024 rate tables the calculator reads: the income-tax brackets with
 * the basic allowance and the solidarity-surcharge parameters, the social
 * contribution rates (total rates, split half and half between employer and
 * employee) with the west and east contribution ceilings, and the names of the
 * six tax classes.
 */
module Settings {

  /** Upper end of a bracket: a last whole euro, or no limit at all. */
  datatype Limit = UpTo(last: int) | Unbounded

  /** A bracket's rate: a flat percentage, or the progressive zone formula. */
  datatype Rate = Percent(percent: int) | Progressive

  /** Taxable incomes `from` to `to` (both inclusive, whole euros) share one formula. */
  datatype Bracket = Bracket(from: int, to: Limit, rate: Rate)

  /** Grundfreibetrag: the taxable income that stays free of income tax. */
  const BasicAllowance: int := 11604

  const TaxBrackets: seq<Bracket> := [
    Bracket(0, UpTo(11604), Percent(0)),
    Bracket(11605, UpTo(17005), Progressive),
    Bracket(17006, UpTo(66760), Progressive),
    Bracket(66761, UpTo(277825), Percent(42)),
    Bracket(277826, Unbounded, Percent(45))
  ]

  const SolidaritySurchargeThreshold: real := 18130.0
  /** In percent of the income tax. */
  const SolidaritySurchargeRate: real := 5.5
  /** The table's default church-tax rate in percent; the calculator hard-codes 8 or 9 by state. */
  const ChurchTaxRate: int := 8

  /** Total contribution rates in percent; the employee pays half of each. */
  const HealthInsurance: real := 14.6
  const PensionInsurance: real := 18.6
  const UnemploymentInsurance: real := 2.6
  const CareInsurance: real := 3.4
  /** Beitragsbemessungsgrenze (annual): west, and east. */
  const ContributionCeiling: real := 62100.0
  const ContributionCeilingEast: real := 58800.0

  const TaxClasses: map<int, string> := map[
    1 := "Single, divorced, widowed",
    2 := "Single parent",
    3 := "Married, higher income",
    4 := "Married, similar income",
    5 := "Married, lower income",
    6 := "Second job"
  ]

  /** The whole-euro income `zvE` lies in bracket `b`. */
  predicate InBracket(b: Bracket, zvE: int) {
    b.from <= zvE && (b.to.UpTo? ==> zvE <= b.to.last)
  }

  /** The bracket that holds a non-negative taxable income: there is one, and only one. */
  function BracketIndex(zvE: int): (i: nat)
    requires zvE >= 0
    ensures i < |TaxBrackets| && InBracket(TaxBrackets[i], zvE)
    ensures forall j :: 0 <= j < |TaxBrackets| && InBracket(TaxBrackets[j], zvE) ==> j == i
  {
    if zvE <= 11604 then 0
    else if zvE <= 17005 then 1
    else if zvE <= 66760 then 2
    else if zvE <= 277825 then 3
    else 4
  }

  /** The zero-rate bracket ends exactly at the basic allowance. */
  lemma BasicAllowanceEndsZeroBracket()
    ensures TaxBrackets[0].from == 0
    ensures TaxBrackets[0].to == UpTo(BasicAllowance) && TaxBrackets[0].rate == Percent(0)
  {
  }

  /** Each bracket starts one euro after the previous one ends; only the last is open-ended. */
  lemma BracketsContiguous()
    ensures forall i :: 0 <= i < |TaxBrackets| - 1 ==>
      TaxBrackets[i].to.UpTo? && TaxBrackets[i + 1].from == TaxBrackets[i].to.last + 1
    ensures forall i :: 0 <= i < |TaxBrackets| && TaxBrackets[i].to.UpTo? ==>
      TaxBrackets[i].from <= TaxBrackets[i].to.last
    ensures TaxBrackets[|TaxBrackets| - 1].to == Unbounded
  {
  }

  /** The east ceiling is the lower one. */
  lemma EastCeilingBelowWest()
    ensures 0.0 < ContributionCeilingEast < ContributionCeiling
  {
  }

  /** Halving the total rates gives the employee shares 7.3, 9.3, 1.3 and 1.7 percent. */
  lemma EmployeeShares()
    ensures HealthInsurance / 2.0 == 7.3 && PensionInsurance / 2.0 == 9.3
    ensures UnemploymentInsurance / 2.0 == 1.3 && CareInsurance / 2.0 == 1.7
  {
  }

  /** Exactly the tax classes 1 to 6 have a name. */
  lemma TaxClassKeys()
    ensures TaxClasses.Keys == {1, 2, 3, 4, 5, 6}
  {
  }
}
