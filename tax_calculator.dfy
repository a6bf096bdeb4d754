/**
 * The net-income engine of the bot (`GermanTaxCalculator`): the 2024 income-tax
 * tariff on a floored taxable income, the tax-class multipliers, the solidarity
 * surcharge, the church tax, the capped social contributions, and the aggregate
 * that rounds each sub-result to cents.
 *
 * The calculator object only holds the year and the two rate tables, set once and
 * never changed, so every operation is a function here; the year it echoes is a
 * parameter of `NetIncome`.
 */
module TaxCalculator {
  import opened Money
  import Settings

  /** The year the bot's single calculator instance is built with. */
  const DefaultYear: int := 2024

  /** Upper ends of tariff zones 1 to 3, hard-coded in the calculator. */
  const Zone1Limit: int := 17005
  const Zone2Limit: int := 66760
  const Zone3Limit: int := 277825

  /** Single-parent relief that class 2 subtracts from a local copy of the income only. */
  const SingleParentRelief: real := 4260.0

  function Max(a: real, b: real): real {
    if a >= b then a else b
  }

  function Min(a: real, b: real): real {
    if a <= b then a else b
  }

  /** Zone 1, from 14 to 24 percent: a quadratic in y = (zvE - 11604) / 10000. */
  function Zone1Tax(zvE: int): real {
    var y := (zvE - 11604) as real / 10000.0;
    (922.98 * y + 1400.0) * y
  }

  /** Zone 2, from 24 to 42 percent: a quadratic in z = (zvE - 17005) / 10000. */
  function Zone2Tax(zvE: int): real {
    var z := (zvE - 17005) as real / 10000.0;
    (181.19 * z + 2397.0) * z + 1025.38
  }

  /** Zone 3: flat 42 percent. */
  function Zone3Tax(zvE: int): real {
    0.42 * zvE as real - 10602.13
  }

  /** Zone 4: top rate of 45 percent. */
  function Zone4Tax(zvE: int): real {
    0.45 * zvE as real - 18936.88
  }

  /**
   * The income-tax formula on the whole-euro taxable income zvE (before the
   * tax-class adjustment): nothing up to the basic allowance, positive beyond it.
   */
  function Tariff(zvE: int): (tax: real)
    ensures tax >= 0.0
    ensures tax == 0.0 <==> zvE <= Settings.BasicAllowance
  {
    if zvE <= Settings.BasicAllowance then 0.0
    else if zvE <= Zone1Limit then Zone1Tax(zvE)
    else if zvE <= Zone2Limit then Zone2Tax(zvE)
    else if zvE <= Zone3Limit then Zone3Tax(zvE)
    else Zone4Tax(zvE)
  }

  /** The multiplier each tax class applies to a non-negative tariff amount. */
  function ClassFactor(taxClass: int): (f: real)
    ensures 0.85 <= f <= 1.2
  {
    match taxClass
    case 2 => 0.95
    case 3 => 0.85
    case 5 => 1.15
    case 6 => 1.2
    case _ => 1.0
  }

  /**
   * The tax-class adjustment. `income` is taken but cannot change the result: class 2
   * subtracts the relief from its own copy and then only scales the tax.
   */
  function ApplyTaxClassAdjustment(baseTax: real, taxClass: int, income: real): (tax: real)
    ensures baseTax >= 0.0 ==> tax == baseTax * ClassFactor(taxClass)
    ensures baseTax >= 0.0 ==> 0.85 * baseTax <= tax <= 1.2 * baseTax
    ensures taxClass == 2 ==> tax >= 0.0
  {
    if taxClass == 2 then
      var relievedIncome := income - SingleParentRelief;
      Max(0.0, baseTax * 0.95)
    else if taxClass == 3 then baseTax * 0.85
    else if taxClass == 5 then baseTax * 1.15
    else if taxClass == 6 then baseTax * 1.20
    else baseTax
  }

  /** Taxable income after the basic allowance, never negative. */
  function TaxableIncome(annualIncome: real): (t: real)
    ensures t >= 0.0 && t >= annualIncome - Settings.BasicAllowance as real
    ensures t == 0.0 || t == annualIncome - Settings.BasicAllowance as real
  {
    Max(0.0, annualIncome - Settings.BasicAllowance as real)
  }

  /**
   * Annual income tax. The allowance is subtracted here and the floored result is
   * then compared with the allowance again inside `Tariff`, so it is in effect
   * taken off twice.
   */
  function IncomeTax(annualIncome: real, taxClass: int): (tax: real)
    ensures tax >= 0.0 && IsCents(tax)
  {
    var taxable := TaxableIncome(annualIncome);
    if taxable == 0.0 then 0.0
    else
      var zvE := taxable.Floor;
      var adjusted := ApplyTaxClassAdjustment(Tariff(zvE), taxClass, annualIncome);
      Round2Bounds(adjusted);
      Round2NonNegative(adjusted);
      Round2(adjusted)
  }

  /**
   * Solidarity surcharge: nothing up to and including the threshold, and above it
   * 5.5 percent of the whole income tax at once (no phase-in), to the cent.
   */
  function SolidaritySurcharge(incomeTax: real): (soli: real)
    ensures IsCents(soli) && soli >= 0.0
    ensures soli > 0.0 <==> incomeTax > Settings.SolidaritySurchargeThreshold
    ensures incomeTax > Settings.SolidaritySurchargeThreshold ==>
      soli >= 997.15 && incomeTax * 0.055 - 0.005 < soli <= incomeTax * 0.055 + 0.005
  {
    if incomeTax <= Settings.SolidaritySurchargeThreshold then
      assert 0.0 * 100.0 == 0.0;
      0.0
    else
      var rate := Settings.SolidaritySurchargeRate / 100.0;
      Round2Bounds(incomeTax * rate);
      Round2Monotone(997.15, incomeTax * rate);
      Round2OfCents(997.15);
      Round2(incomeTax * rate)
  }

  /** Church-tax rate in percent: 8 in Baden-Wuerttemberg and Bavaria, 9 elsewhere. */
  function ChurchRate(state: string): (rate: int)
    ensures rate == 8 <==> state == "BW" || state == "BY"
    ensures rate == 8 || rate == 9
  {
    if state in ["BW", "BY"] then 8 else 9
  }

  /** Church tax: the state's rate applied to the income tax, to the cent. */
  function ChurchTax(incomeTax: real, state: string): (church: real)
    ensures IsCents(church)
    ensures var exact := incomeTax * ChurchRate(state) as real / 100.0;
      exact - 0.005 < church <= exact + 0.005
    ensures incomeTax >= 0.0 ==> church >= 0.0
  {
    var rate := ChurchRate(state);
    var exact := incomeTax * (rate as real / 100.0);
    Round2Bounds(exact);
    if incomeTax >= 0.0 then Round2NonNegative(exact); Round2(exact) else Round2(exact)
  }

  /** The employee's four contribution lines and their total, per year. */
  datatype SocialContributions = SocialContributions(
    health: real, pension: real, unemployment: real, care: real, total: real)

  /** The annual ceiling up to which income is subject to contributions. */
  function Ceiling(isEast: bool): (c: real)
    ensures c == Settings.ContributionCeilingEast || c == Settings.ContributionCeiling
    ensures isEast <==> c < Settings.ContributionCeiling
  {
    if isEast then Settings.ContributionCeilingEast else Settings.ContributionCeiling
  }

  /** The income contributions are computed on: the gross income, capped at the ceiling. */
  function ContributableIncome(annualIncome: real, isEast: bool): (base: real)
    ensures base <= Ceiling(isEast) && base <= annualIncome
    ensures base == annualIncome || base == Ceiling(isEast)
  {
    Min(annualIncome, Ceiling(isEast))
  }

  /** Employee share of a total rate in percent, as a fraction: rate / 2 / 100. */
  function EmployeeShare(ratePercent: real): real {
    ratePercent / 2.0 / 100.0
  }

  /**
   * Social contributions. Each line is the employee share of the capped income,
   * rounded to the cent; the total rounds the sum of the four UNROUNDED lines.
   */
  function SocialSecurity(annualIncome: real, isEast: bool): (s: SocialContributions)
    ensures IsCents(s.health) && IsCents(s.pension) && IsCents(s.unemployment)
    ensures IsCents(s.care) && IsCents(s.total)
    ensures var base := ContributableIncome(annualIncome, isEast);
      && base * 0.073 - 0.005 < s.health <= base * 0.073 + 0.005
      && base * 0.093 - 0.005 < s.pension <= base * 0.093 + 0.005
      && base * 0.013 - 0.005 < s.unemployment <= base * 0.013 + 0.005
      && base * 0.017 - 0.005 < s.care <= base * 0.017 + 0.005
      && base * 0.196 - 0.005 < s.total <= base * 0.196 + 0.005
  {
    var base := ContributableIncome(annualIncome, isEast);
    var health := base * EmployeeShare(Settings.HealthInsurance);
    var pension := base * EmployeeShare(Settings.PensionInsurance);
    var unemployment := base * EmployeeShare(Settings.UnemploymentInsurance);
    var care := base * EmployeeShare(Settings.CareInsurance);
    Round2Bounds(health);
    Round2Bounds(pension);
    Round2Bounds(unemployment);
    Round2Bounds(care);
    Round2Bounds(health + pension + unemployment + care);
    SocialContributions(
      Round2(health), Round2(pension), Round2(unemployment), Round2(care),
      Round2(health + pension + unemployment + care))
  }

  /** The full breakdown the bot displays and stores. */
  datatype NetIncomeResult = NetIncomeResult(
    grossAnnual: real,
    incomeTax: real,
    solidaritySurcharge: real,
    churchTax: real,
    healthInsurance: real,
    pensionInsurance: real,
    unemploymentInsurance: real,
    careInsurance: real,
    totalDeductions: real,
    netAnnual: real,
    grossMonthly: real,
    netMonthly: real,
    taxClass: int,
    children: int,
    year: int)

  /**
   * Net income with every deduction. Sub-results are rounded where they are
   * computed; the net amounts are rounded from the unrounded difference.
   */
  function NetIncome(annualGross: real, taxClass: int, children: int, churchTax: bool,
                     state: string, isEast: bool, year: int): (r: NetIncomeResult)
    ensures r.totalDeductions ==
      r.incomeTax + r.solidaritySurcharge + r.churchTax + SocialSecurity(annualGross, isEast).total
    ensures r.netAnnual == r.grossAnnual - r.totalDeductions
    ensures -0.01 < r.netMonthly - r.netAnnual / 12.0 < 0.01
    ensures -0.01 < r.grossMonthly - r.grossAnnual / 12.0 < 0.01
    ensures r.grossAnnual == Round2(annualGross)
    ensures r.incomeTax == IncomeTax(annualGross, taxClass)
    ensures r.solidaritySurcharge == SolidaritySurcharge(r.incomeTax)
    ensures churchTax ==> r.churchTax == ChurchTax(r.incomeTax, state)
    ensures r.churchTax == 0.0 <== !churchTax
    ensures var s := SocialSecurity(annualGross, isEast);
      && r.healthInsurance == s.health && r.pensionInsurance == s.pension
      && r.unemploymentInsurance == s.unemployment && r.careInsurance == s.care
    ensures r.taxClass == taxClass && r.children == children && r.year == year
  {
    var incomeTax := IncomeTax(annualGross, taxClass);
    var soli := SolidaritySurcharge(incomeTax);
    var church := if churchTax then ChurchTax(incomeTax, state) else 0.0;
    var social := SocialSecurity(annualGross, isEast);
    var totalTax := incomeTax + soli + church;
    var totalDeductions := totalTax + social.total;
    var netAnnual := annualGross - totalDeductions;
    NetIncomeFacts(annualGross, incomeTax, soli, church, social.total);
    NetIncomeResult(
      Round2(annualGross),
      Round2(incomeTax),
      Round2(soli),
      Round2(church),
      social.health,
      social.pension,
      social.unemployment,
      social.care,
      Round2(totalDeductions),
      Round2(netAnnual),
      Round2(annualGross / 12.0),
      Round2(netAnnual / 12.0),
      taxClass,
      children,
      year)
  }

  /** The arithmetic behind `NetIncome`'s contract: every deduction is whole cents. */
  lemma NetIncomeFacts(gross: real, tax: real, soli: real, church: real, social: real)
    requires IsCents(tax) && IsCents(soli) && IsCents(church) && IsCents(social)
    ensures var d := tax + soli + church + social;
      && Round2(tax) == tax && Round2(soli) == soli && Round2(church) == church
      && Round2(d) == d
      && Round2(gross - d) == Round2(gross) - d
      && -0.01 < Round2((gross - d) / 12.0) - Round2(gross - d) / 12.0 < 0.01
      && -0.01 < Round2(gross / 12.0) - Round2(gross) / 12.0 < 0.01
  {
    var d := tax + soli + church + social;
    CentsAdd(tax, soli);
    CentsAdd(tax + soli, church);
    CentsAdd(tax + soli + church, social);
    Round2OfCents(tax);
    Round2OfCents(soli);
    Round2OfCents(church);
    Round2OfCents(d);
    CentsAdd(0.0, d);
    assert gross - d == gross + (0.0 - d);
    Round2AddCents(gross, 0.0 - d);
    Round2Bounds(gross);
    Round2Bounds((gross - d) / 12.0);
    Round2Bounds(gross / 12.0);
  }
}
