/**
 * The older, stand-alone monthly calculator of the first bot version: tax class 1,
 * no children, statutory health insurance, no church tax. It has its own contribution
 * rates, separate monthly ceilings for pension/unemployment and for health/care,
 * its own tariff coefficients, and it neither rounds nor floors anything.
 */
module LegacyCalculator {

  /** Monthly ceilings. */
  const PensionUnemploymentCeiling: real := 7550.0
  const HealthCareCeiling: real := 5175.0
  /** Employee rates as fractions. */
  const PensionRate: real := 0.093
  const UnemploymentRate: real := 0.013
  /** 7.3 percent plus half of an average 1.7 percent additional contribution. */
  const HealthInsuranceRate: real := 0.0815
  /** 1.7 percent plus the 0.6 percent surcharge for the childless over 23. */
  const CareInsuranceRate: real := 0.023
  /** Arbeitnehmerpauschbetrag and Sonderausgabenpauschale, per year. */
  const EmployeeLumpSum: real := 1230.0
  const SpecialExpensesLumpSum: real := 36.0

  datatype LegacyResult = LegacyResult(
    netMonthly: real,
    incomeTax: real,
    solidaritySurcharge: real,
    pensionInsurance: real,
    unemploymentInsurance: real,
    healthInsurance: real,
    careInsurance: real,
    totalSocialContributions: real)

  function Min(a: real, b: real): real {
    if a <= b then a else b
  }

  /** The four monthly contribution lines, in the order pension, unemployment, health, care. */
  datatype Contributions = Contributions(pension: real, unemployment: real, health: real, care: real)

  /** Pension and unemployment on the gross capped at 7550, health and care on the gross capped at 5175. */
  function MonthlyContributions(grossMonthly: real): (c: Contributions)
    requires grossMonthly >= 0.0
    ensures 0.0 <= c.pension <= PensionUnemploymentCeiling * PensionRate
    ensures 0.0 <= c.unemployment <= PensionUnemploymentCeiling * UnemploymentRate
    ensures 0.0 <= c.health <= HealthCareCeiling * HealthInsuranceRate
    ensures 0.0 <= c.care <= HealthCareCeiling * CareInsuranceRate
    ensures grossMonthly <= HealthCareCeiling ==>
      c.pension + c.unemployment + c.health + c.care == grossMonthly * 0.2105
  {
    var pensionBase := Min(grossMonthly, PensionUnemploymentCeiling);
    var healthBase := Min(grossMonthly, HealthCareCeiling);
    Contributions(
      pensionBase * PensionRate,
      pensionBase * UnemploymentRate,
      healthBase * HealthInsuranceRate,
      healthBase * CareInsuranceRate)
  }

  /** Annual taxable income: twelve months of gross minus contributions, minus the two lump sums; not floored. */
  function TaxableIncome(grossMonthly: real, totalSocial: real): (t: real)
    ensures t + 12.0 * totalSocial + 1266.0 == 12.0 * grossMonthly
  {
    grossMonthly * 12.0 - totalSocial * 12.0 - EmployeeLumpSum - SpecialExpensesLumpSum
  }

  /** This file's tariff: the 2024 zone limits with its own coefficients, on an unfloored income. */
  function Tariff(taxable: real): (tax: real)
    ensures tax >= 0.0
    ensures tax == 0.0 <==> taxable <= 11604.0
  {
    if taxable <= 11604.0 then 0.0
    else if taxable <= 17005.0 then
      var y := (taxable - 11604.0) / 10000.0;
      (1088.67 * y + 1400.0) * y
    else if taxable <= 66760.0 then
      var x := (taxable - 17005.0) / 10000.0;
      (206.43 * x + 2397.0) * x + 938.24
    else if taxable <= 277825.0 then 0.42 * taxable - 10253.36
    else 0.45 * taxable - 18588.11
  }

  /** 5.5 percent of the annual income tax, only when that tax is strictly above 18130. */
  function SolidaritySurcharge(incomeTaxAnnual: real): (soli: real)
    ensures soli != 0.0 <==> incomeTaxAnnual > 18130.0
    ensures soli == 0.0 || soli > 997.15
  {
    if incomeTaxAnnual > 18130.0 then incomeTaxAnnual * 0.055 else 0.0
  }

  /** The monthly breakdown. The bot rejects a negative gross before calling it. */
  function NetIncome(grossMonthly: real): (r: LegacyResult)
    requires grossMonthly >= 0.0
    ensures var c := MonthlyContributions(grossMonthly);
      && r.pensionInsurance == c.pension && r.unemploymentInsurance == c.unemployment
      && r.healthInsurance == c.health && r.careInsurance == c.care
    ensures r.totalSocialContributions ==
      r.pensionInsurance + r.unemploymentInsurance + r.healthInsurance + r.careInsurance
    ensures 12.0 * r.incomeTax == Tariff(TaxableIncome(grossMonthly, r.totalSocialContributions))
    ensures 12.0 * r.solidaritySurcharge == SolidaritySurcharge(12.0 * r.incomeTax)
    ensures r.netMonthly ==
      grossMonthly - r.totalSocialContributions - r.incomeTax - r.solidaritySurcharge
    ensures r.incomeTax >= 0.0 && r.solidaritySurcharge >= 0.0
  {
    var c := MonthlyContributions(grossMonthly);
    var totalSocial := c.pension + c.unemployment + c.health + c.care;
    var incomeTaxAnnual := Tariff(TaxableIncome(grossMonthly, totalSocial));
    var soliAnnual := SolidaritySurcharge(incomeTaxAnnual);
    var incomeTaxMonthly := incomeTaxAnnual / 12.0;
    var soliMonthly := soliAnnual / 12.0;
    var totalTax := incomeTaxMonthly + soliMonthly;
    LegacyResult(
      grossMonthly - totalSocial - totalTax,
      incomeTaxMonthly,
      soliMonthly,
      c.pension,
      c.unemployment,
      c.health,
      c.care,
      totalSocial)
  }

  /** The annual taxable income for a monthly gross, with that gross's own contributions. */
  function AnnualTaxable(grossMonthly: real): real
    requires grossMonthly >= 0.0
  {
    var c := MonthlyContributions(grossMonthly);
    TaxableIncome(grossMonthly, c.pension + c.unemployment + c.health + c.care)
  }

  /**
   * Up to 5175 EUR a month, 78.95 percent of each month's gross is taxable (9.474
   * times the monthly gross a year) less the 1266 EUR of lump sums; from 7550 EUR on
   * every further euro is taxable in full, as the contributions no longer grow.
   */
  lemma TaxableIncomeByBand(grossMonthly: real)
    requires grossMonthly >= 0.0
    ensures grossMonthly <= HealthCareCeiling ==> AnnualTaxable(grossMonthly) == grossMonthly * 9.474 - 1266.0
    ensures grossMonthly >= PensionUnemploymentCeiling ==>
      AnnualTaxable(grossMonthly) == grossMonthly * 12.0 - 17359.05
  {
    var c := MonthlyContributions(grossMonthly);
    if grossMonthly >= PensionUnemploymentCeiling {
      assert c == Contributions(7550.0 * 0.093, 7550.0 * 0.013, 5175.0 * 0.0815, 5175.0 * 0.023);
    }
  }

  /** From 7550 EUR a month on, every contribution line is fixed. */
  lemma ContributionsCapped(g1: real, g2: real)
    requires PensionUnemploymentCeiling <= g1 && PensionUnemploymentCeiling <= g2
    ensures var r1, r2 := NetIncome(g1), NetIncome(g2);
      && r1.pensionInsurance == r2.pensionInsurance
      && r1.unemploymentInsurance == r2.unemploymentInsurance
      && r1.healthInsurance == r2.healthInsurance
      && r1.careInsurance == r2.careInsurance
      && r1.totalSocialContributions == r2.totalSocialContributions
  {
    assert MonthlyContributions(g1) == MonthlyContributions(g2);
  }

  /** Health and care are already fixed from 5175 EUR on, while pension still grows up to 7550. */
  lemma HealthCareCappedFirst()
    ensures NetIncome(5175.0).healthInsurance == NetIncome(7550.0).healthInsurance
    ensures NetIncome(5175.0).careInsurance == NetIncome(7550.0).careInsurance
    ensures NetIncome(5175.0).pensionInsurance < NetIncome(7550.0).pensionInsurance
  {
  }

  /** Up to 1358 EUR a month no income tax is due and only contributions (21.05 percent) are deducted. */
  lemma TaxFreeUpTo1358(grossMonthly: real)
    requires 0.0 <= grossMonthly <= 1358.0
    ensures var r := NetIncome(grossMonthly);
      r.incomeTax == 0.0 && r.solidaritySurcharge == 0.0
      && r.netMonthly == grossMonthly - grossMonthly * 0.2105
  {
    TaxableIncomeByBand(grossMonthly);
  }

  /**
   * The coefficients do not fit the zone limits: the tax falls by more than 135 EUR
   * just past 17005 and by more than 188 EUR just past 66760, so a higher taxable
   * income can owe less tax. At the 277825 limit the two formulas meet.
   */
  lemma TariffDropsAtZoneLimits()
    ensures Tariff(17005.0) - Tariff(17005.5) > 135.0
    ensures Tariff(66760.0) - Tariff(66761.0) > 188.0
    ensures Tariff(277825.0) == 0.45 * 277825.0 - 18588.11
  {
  }
}
