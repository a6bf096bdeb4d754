/**
 * Properties of the net-income engine: the shape of the tariff and its agreement
 * with the bracket table, where income tax starts, how the tax classes order the
 * result, the contribution ceiling, the church-tax switch, and the outcomes the
 * calculator's test cases expect.
 */
module TaxCalculatorLemmas {
  import opened Money
  import opened Settings
  import opened TaxCalculator

  // ---------------------------------------------------------------------------
  // The tariff

  /** Zone 1 grows with the income: the difference of the quadratic factors into two non-negative terms. */
  lemma Zone1Increasing(a: int, b: int)
    requires BasicAllowance <= a <= b <= Zone1Limit
    ensures Zone1Tax(a) <= Zone1Tax(b)
  {
    var ya, yb := (a - 11604) as real / 10000.0, (b - 11604) as real / 10000.0;
    assert Zone1Tax(b) - Zone1Tax(a) == (yb - ya) * (922.98 * (ya + yb) + 1400.0);
    MulNonNegative(yb - ya, 922.98 * (ya + yb) + 1400.0);
  }

  /** Zone 2 grows with the income. */
  lemma Zone2Increasing(a: int, b: int)
    requires Zone1Limit <= a <= b <= Zone2Limit
    ensures Zone2Tax(a) <= Zone2Tax(b)
  {
    var za, zb := (a - 17005) as real / 10000.0, (b - 17005) as real / 10000.0;
    assert Zone2Tax(b) - Zone2Tax(a) == (zb - za) * (181.19 * (za + zb) + 2397.0);
    MulNonNegative(zb - za, 181.19 * (za + zb) + 2397.0);
  }

  lemma MulMonotone(x: real, y: real, f: real)
    requires x <= y && f >= 0.0
    ensures x * f <= y * f
  {
    MulNonNegative(y - x, f);
  }

  lemma MulNonNegative(x: real, y: real)
    requires x >= 0.0 && y >= 0.0
    ensures x * y >= 0.0
  {
  }

  /** The tariff never decreases from one whole euro of taxable income to the next, across zone limits too. */
  lemma {:induction false} TariffMonotone(a: int, b: int)
    requires a <= b
    ensures Tariff(a) <= Tariff(b)
    decreases b - a
  {
    if a <= BasicAllowance {
    } else if b <= Zone1Limit {
      Zone1Increasing(a, b);
    } else if a <= Zone1Limit {
      Zone1Increasing(a, Zone1Limit);
      assert Tariff(Zone1Limit) <= Tariff(Zone1Limit + 1);
      TariffMonotone(Zone1Limit + 1, b);
    } else if b <= Zone2Limit {
      Zone2Increasing(a, b);
    } else if a <= Zone2Limit {
      Zone2Increasing(a, Zone2Limit);
      assert Tariff(Zone2Limit) <= Tariff(Zone2Limit + 1);
      TariffMonotone(Zone2Limit + 1, b);
    } else if b <= Zone3Limit {
    } else if a <= Zone3Limit {
      assert Tariff(Zone3Limit) <= Tariff(Zone3Limit + 1);
      TariffMonotone(Zone3Limit + 1, b);
    }
  }

  /** The zone limits hard-coded in the calculator are the ends of the table's brackets. */
  lemma ZoneLimitsMatchBrackets()
    ensures TaxBrackets[1].to == UpTo(Zone1Limit)
    ensures TaxBrackets[2].to == UpTo(Zone2Limit)
    ensures TaxBrackets[3].to == UpTo(Zone3Limit)
    ensures TaxBrackets[0].to == UpTo(BasicAllowance)
  {
  }

  /**
   * From one euro to the next inside a bracket, the tariff rises by the bracket's
   * flat rate, or, in the two progressive brackets, by 14 to 24 and by 24 to 42 percent.
   */
  lemma MarginalRateFollowsBracket(zvE: int)
    requires zvE >= 0 && BracketIndex(zvE) == BracketIndex(zvE + 1)
    ensures var b := TaxBrackets[BracketIndex(zvE)];
      var step := Tariff(zvE + 1) - Tariff(zvE);
      && (b.rate.Percent? ==> step == b.rate.percent as real / 100.0)
      && (BracketIndex(zvE) == 1 ==> 0.14 < step < 0.24)
      && (BracketIndex(zvE) == 2 ==> 0.2397 < step < 0.4201)
  {
    var i := BracketIndex(zvE);
    if i == 1 {
      var y := (zvE - 11604) as real / 10000.0;
      assert Zone1Tax(zvE + 1) - Zone1Tax(zvE) == 0.0001 * (922.98 * (2.0 * y + 0.0001) + 1400.0);
    } else if i == 2 {
      var z := (zvE - 17005) as real / 10000.0;
      assert Zone2Tax(zvE + 1) - Zone2Tax(zvE) == 0.0001 * (181.19 * (2.0 * z + 0.0001) + 2397.0);
    }
  }

  // ---------------------------------------------------------------------------
  // Income tax

  /** More gross income never means less income tax, in every tax class. */
  lemma IncomeTaxMonotone(g1: real, g2: real, taxClass: int)
    requires g1 <= g2
    ensures IncomeTax(g1, taxClass) <= IncomeTax(g2, taxClass)
  {
    var t1, t2 := TaxableIncome(g1), TaxableIncome(g2);
    if t1 != 0.0 {
      assert t2 != 0.0 && t1.Floor <= t2.Floor;
      TariffMonotone(t1.Floor, t2.Floor);
      var a1 := ApplyTaxClassAdjustment(Tariff(t1.Floor), taxClass, g1);
      var a2 := ApplyTaxClassAdjustment(Tariff(t2.Floor), taxClass, g2);
      MulMonotone(Tariff(t1.Floor), Tariff(t2.Floor), ClassFactor(taxClass));
      Round2Monotone(a1, a2);
      assert IncomeTax(g1, taxClass) == Round2(a1);
      assert IncomeTax(g2, taxClass) == Round2(a2);
    }
  }

  /**
   * Because the allowance is taken off twice, income tax is owed exactly from a
   * gross income of 23209 (twice 11604, plus one euro) on, in every tax class.
   */
  lemma IncomeTaxStartsAt23209(gross: real, taxClass: int)
    ensures IncomeTax(gross, taxClass) > 0.0 <==> gross >= 23209.0
  {
    var taxable := TaxableIncome(gross);
    if gross >= 23209.0 {
      var zvE := taxable.Floor;
      assert zvE >= 11605;
      TariffMonotone(11605, zvE);
      assert Tariff(11605) > 0.14;
      var adjusted := ApplyTaxClassAdjustment(Tariff(zvE), taxClass, gross);
      assert adjusted >= 0.85 * 0.14;
      Round2Bounds(adjusted);
    } else if taxable != 0.0 {
      assert taxable.Floor <= BasicAllowance;
    }
  }

  /** The tax classes order the income tax: 3, then 2, then 1 and 4 alike, then 5, then 6. */
  lemma TaxClassOrder(gross: real)
    ensures IncomeTax(gross, 3) <= IncomeTax(gross, 2) <= IncomeTax(gross, 1)
    ensures IncomeTax(gross, 1) == IncomeTax(gross, 4)
    ensures IncomeTax(gross, 1) <= IncomeTax(gross, 5) <= IncomeTax(gross, 6)
  {
    var taxable := TaxableIncome(gross);
    if taxable != 0.0 {
      var t := Tariff(taxable.Floor);
      Round2Monotone(t * 0.85, t * 0.95);
      Round2Monotone(t * 0.95, t * 1.0);
      Round2Monotone(t * 1.0, t * 1.15);
      Round2Monotone(t * 1.15, t * 1.2);
    }
  }

  /** The income passed to the class adjustment (and the class-2 relief) never changes its result. */
  lemma AdjustmentIgnoresIncome(baseTax: real, taxClass: int, i1: real, i2: real)
    ensures ApplyTaxClassAdjustment(baseTax, taxClass, i1) == ApplyTaxClassAdjustment(baseTax, taxClass, i2)
  {
  }

  /**
   * Income tax depends on the gross income only through its whole-euro part: it is
   * the rounded, class-adjusted tariff of that part minus the allowance (a negative
   * argument lands in the tariff's zero zone).
   */
  lemma IncomeTaxOfWholeEuros(gross: real, taxClass: int)
    ensures IncomeTax(gross, taxClass) ==
      Round2(ApplyTaxClassAdjustment(Tariff(gross.Floor - BasicAllowance), taxClass, gross))
  {
    var taxable := TaxableIncome(gross);
    if taxable == 0.0 {
      assert gross.Floor - BasicAllowance <= 0;
      assert ApplyTaxClassAdjustment(0.0, taxClass, gross) == 0.0;
      assert Round2(0.0) == 0.0;
    } else {
      assert taxable == gross - BasicAllowance as real;
      assert taxable.Floor == gross.Floor - BasicAllowance;
    }
  }

  /**
   * Income tax is a step function of the gross income: two incomes with the same
   * whole-euro part pay the same in every tax class.
   */
  lemma IncomeTaxStepFunction(g1: real, g2: real, taxClass: int)
    requires g1.Floor == g2.Floor
    ensures IncomeTax(g1, taxClass) == IncomeTax(g2, taxClass)
  {
    IncomeTaxOfWholeEuros(g1, taxClass);
    IncomeTaxOfWholeEuros(g2, taxClass);
    AdjustmentIgnoresIncome(Tariff(g1.Floor - BasicAllowance), taxClass, g1, g2);
  }

  /** So income tax does not rise strictly with the income: 30000 and 30000.50 pay the same. */
  lemma IncomeTaxNotStrictlyIncreasing()
    ensures IncomeTax(30000.0, 1) == IncomeTax(30000.5, 1)
  {
    IncomeTaxStepFunction(30000.0, 30000.5, 1);
  }

  // ---------------------------------------------------------------------------
  // Surcharges and contributions

  /** Bavaria and Baden-Wuerttemberg never charge more church tax than the other states. */
  lemma ChurchTaxLowerInSouth(incomeTax: real, state: string, other: string)
    requires incomeTax >= 0.0 && (state == "BW" || state == "BY")
    ensures ChurchTax(incomeTax, state) <= ChurchTax(incomeTax, other)
  {
    Round2Monotone(incomeTax * (8.0 / 100.0), incomeTax * (ChurchRate(other) as real / 100.0));
  }

  /** Above the ceiling every contribution line, and the total, is what it is at the ceiling. */
  lemma SocialSecurityCapped(income: real, isEast: bool)
    requires income >= Ceiling(isEast)
    ensures SocialSecurity(income, isEast) == SocialSecurity(Ceiling(isEast), isEast)
  {
    assert ContributableIncome(income, isEast) == ContributableIncome(Ceiling(isEast), isEast);
  }

  /** Contributions never fall as the income rises. */
  lemma SocialSecurityMonotone(i1: real, i2: real, isEast: bool)
    requires 0.0 <= i1 <= i2
    ensures var s1, s2 := SocialSecurity(i1, isEast), SocialSecurity(i2, isEast);
      s1.health <= s2.health && s1.pension <= s2.pension && s1.unemployment <= s2.unemployment
      && s1.care <= s2.care && s1.total <= s2.total
  {
    var b1, b2 := ContributableIncome(i1, isEast), ContributableIncome(i2, isEast);
    assert b1 <= b2;
    Round2Monotone(b1 * EmployeeShare(HealthInsurance), b2 * EmployeeShare(HealthInsurance));
    Round2Monotone(b1 * EmployeeShare(PensionInsurance), b2 * EmployeeShare(PensionInsurance));
    Round2Monotone(b1 * EmployeeShare(UnemploymentInsurance), b2 * EmployeeShare(UnemploymentInsurance));
    Round2Monotone(b1 * EmployeeShare(CareInsurance), b2 * EmployeeShare(CareInsurance));
    var sum1 := b1 * EmployeeShare(HealthInsurance) + b1 * EmployeeShare(PensionInsurance)
      + b1 * EmployeeShare(UnemploymentInsurance) + b1 * EmployeeShare(CareInsurance);
    var sum2 := b2 * EmployeeShare(HealthInsurance) + b2 * EmployeeShare(PensionInsurance)
      + b2 * EmployeeShare(UnemploymentInsurance) + b2 * EmployeeShare(CareInsurance);
    Round2Monotone(sum1, sum2);
  }

  /**
   * The total rounds the unrounded lines, so it can differ from the sum of the
   * rounded lines, by at most two and a half cents; at 20002 EUR it is one cent lower
   * (no line, and not the total, lies on a half-cent tie there).
   */
  lemma SocialTotalDrift(income: real, isEast: bool)
    ensures var s := SocialSecurity(income, isEast);
      -0.025 <= s.total - (s.health + s.pension + s.unemployment + s.care) <= 0.025
    ensures var s := SocialSecurity(20002.0, false);
      s.total == s.health + s.pension + s.unemployment + s.care - 0.01
  {
    var s := SocialSecurity(20002.0, false);
    assert s.health == 1460.15;
    assert s.pension == 1860.19;
    assert s.unemployment == 260.03;
    assert s.care == 340.03;
    assert s.total == 3920.39;
  }

  // ---------------------------------------------------------------------------
  // The aggregate

  /**
   * Switching church tax on changes only the church tax and what follows from it:
   * total deductions rise and the net annual income falls by exactly that amount.
   */
  lemma ChurchTaxSwitch(gross: real, taxClass: int, children: int, state: string, isEast: bool, year: int)
    ensures var on := NetIncome(gross, taxClass, children, true, state, isEast, year);
      var off := NetIncome(gross, taxClass, children, false, state, isEast, year);
      && on.churchTax == ChurchTax(on.incomeTax, state) && off.churchTax == 0.0
      && on.totalDeductions == off.totalDeductions + on.churchTax
      && on.netAnnual == off.netAnnual - on.churchTax
      && on.netAnnual <= off.netAnnual
      && on.grossAnnual == off.grossAnnual && on.grossMonthly == off.grossMonthly
      && on.incomeTax == off.incomeTax && on.solidaritySurcharge == off.solidaritySurcharge
      && on.healthInsurance == off.healthInsurance && on.pensionInsurance == off.pensionInsurance
      && on.unemploymentInsurance == off.unemploymentInsurance && on.careInsurance == off.careInsurance
  {
    var tax := IncomeTax(gross, taxClass);
    Round2OfCents(ChurchTax(tax, state));
    Round2OfCents(tax);
  }

  /** Below 23209 EUR nothing but social contributions is deducted. */
  lemma OnlyContributionsBelow23209(gross: real, taxClass: int, children: int, churchTax: bool,
                                    state: string, isEast: bool, year: int)
    requires gross < 23209.0
    ensures var r := NetIncome(gross, taxClass, children, churchTax, state, isEast, year);
      && r.incomeTax == 0.0 && r.solidaritySurcharge == 0.0 && r.churchTax == 0.0
      && r.totalDeductions == SocialSecurity(gross, isEast).total
  {
    IncomeTaxStartsAt23209(gross, taxClass);
    var tax := IncomeTax(gross, taxClass);
    assert tax == 0.0;
    assert ChurchTax(0.0, state) == 0.0 by {
      assert 0.0 * (ChurchRate(state) as real / 100.0) == 0.0;
    }
    assert Round2(0.0) == 0.0;
  }

  // ---------------------------------------------------------------------------
  // The calculator's test scenarios (class 1, no children, state BW, west)

  function Class1(gross: real, churchTax: bool): NetIncomeResult {
    NetIncome(gross, 1, 0, churchTax, "BW", false, DefaultYear)
  }

  /** 10000 EUR: no income tax, no solidarity surcharge. */
  lemma LowIncomeScenario()
    ensures Class1(10000.0, false).incomeTax == 0.0 && Class1(10000.0, false).solidaritySurcharge == 0.0
  {
    OnlyContributionsBelow23209(10000.0, 1, 0, false, "BW", false, DefaultYear);
  }

  /** 45000 EUR: income tax and all four contributions are positive, and 0 < net < gross. */
  lemma MiddleIncomeScenario()
    ensures var r := Class1(45000.0, false);
      && r.incomeTax > 0.0
      && r.healthInsurance > 0.0 && r.pensionInsurance > 0.0
      && r.unemploymentInsurance > 0.0 && r.careInsurance > 0.0
      && 0.0 < r.netAnnual < r.grossAnnual
  {
    IncomeTaxStartsAt23209(45000.0, 1);
    var r := Class1(45000.0, false);
    var tax := IncomeTax(45000.0, 1);
    assert Tariff(33396) < 5500.0;
    Round2Bounds(Tariff(33396));
    Round2OfCents(45000.0);
    assert tax < 5500.01;
  }

  /** 100000 EUR: more than 20000 EUR income tax, hence a solidarity surcharge. */
  lemma HighIncomeScenario()
    ensures Class1(100000.0, false).incomeTax > 20000.0
    ensures Class1(100000.0, false).solidaritySurcharge > 0.0
  {
    var tax := IncomeTax(100000.0, 1);
    assert Tariff(88396) == 26524.19;
    Round2Bounds(26524.19);
    assert tax > 20000.0;
    Round2OfCents(tax);
  }

  /** 50000 EUR: church tax is positive when liable, and the net income is then lower. */
  lemma ChurchTaxScenario()
    ensures Class1(50000.0, true).churchTax > 0.0
    ensures Class1(50000.0, false).churchTax == 0.0
    ensures Class1(50000.0, true).netAnnual < Class1(50000.0, false).netAnnual
  {
    ChurchTaxSwitch(50000.0, 1, 0, "BW", false, DefaultYear);
    Class1IncomeTax(50000.0, true);
    IncomeTaxAt50000();
    var on := Class1(50000.0, true);
    ChurchTaxPositive(on.incomeTax);
    assert on.churchTax > 0.0;
  }

  lemma ChurchTaxPositive(incomeTax: real)
    requires incomeTax > 6899.0
    ensures ChurchTax(incomeTax, "BW") > 0.0
  {
  }

  /** The income tax a result shows is the computed one: it is already whole cents. */
  lemma Class1IncomeTax(gross: real, churchTax: bool)
    ensures Class1(gross, churchTax).incomeTax == IncomeTax(gross, 1)
  {
    Round2OfCents(IncomeTax(gross, 1));
  }

  lemma IncomeTaxAt50000()
    ensures IncomeTax(50000.0, 1) > 6899.0
  {
    assert TaxableIncome(50000.0) == 38396.0;
    assert Tariff(38396) > 6900.0;
    Round2Bounds(Tariff(38396));
  }

  lemma IncomeTaxAt30000()
    ensures IncomeTax(30000.0, 1) < 1401.0
  {
    assert TaxableIncome(30000.0) == 18396.0;
    assert Tariff(18396) < 1400.0;
    Round2Bounds(Tariff(18396));
  }

  lemma IncomeTaxAt60000()
    ensures IncomeTax(60000.0, 1) > 9999.0
  {
    assert TaxableIncome(60000.0) == 48396.0;
    assert Tariff(48396) > 10000.0;
    Round2Bounds(Tariff(48396));
  }

  /** 200000 EUR: the health line stays below 5000 EUR because of the ceiling. */
  lemma CeilingScenario()
    ensures Class1(200000.0, false).healthInsurance < 5000.0
  {
  }

  /** 60000 EUR pays a higher effective rate than 30000 EUR. */
  lemma ProgressiveScenario()
    ensures Class1(60000.0, false).incomeTax / 60000.0 > Class1(30000.0, false).incomeTax / 30000.0
  {
    Class1IncomeTax(30000.0, false);
    Class1IncomeTax(60000.0, false);
    IncomeTaxAt30000();
    IncomeTaxAt60000();
    var low, high := IncomeTax(30000.0, 1), IncomeTax(60000.0, 1);
    assert high / 60000.0 > 0.16 > low / 30000.0;
  }

  /** 50000 EUR: every tax class owes income tax. */
  lemma AllClassesTaxedScenario(taxClass: int)
    requires 1 <= taxClass <= 6
    ensures NetIncome(50000.0, taxClass, 0, false, "BW", false, DefaultYear).incomeTax > 0.0
  {
    IncomeTaxStartsAt23209(50000.0, taxClass);
    Round2OfCents(IncomeTax(50000.0, taxClass));
  }
}
