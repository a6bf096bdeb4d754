# German net-income bot: a verified model of its core

This project models, in Dafny, the computational core of a Telegram bot that works
out German net income from gross income for 2024 and watches official sources for
tax news:

- **the net-income engine** (`GermanTaxCalculator`). It computes the income-tax
  tariff on a floored taxable income, the tax-class multipliers, the solidarity
  surcharge, the church tax by federal state, and the employee's social contributions
  capped at the west or east ceiling. It adds these up into a breakdown whose amounts
  are rounded to the cent (`tax_calculator.dfy`, properties in
  `tax_calculator_lemmas.dfy`, money rounding in `money.dfy`);
- **the 2024 rate tables** the engine reads. These are the brackets, the
  basic allowance, the surcharge parameters, the contribution rates and ceilings,
  and the tax-class names (`settings.dfy`);
- **the older monthly calculator** of the first bot version. It has its own rates,
  its own monthly ceilings and its own tariff coefficients, and it does no rounding
  (`legacy_calculator.dfy`);
- **the update monitor's pure logic**. This covers the keyword test for tax news,
  the classification into tax rate, allowance, social security, tax law or general,
  the completion of relative links, and the loops of the RSS and news-page paths
  that keep and classify tax-related items (`update_monitor.dfy`);
- **the error tracker's read side**. This covers the last `limit` lines of the
  JSON-lines error log and the statistics over the last 100 records (`error_tracker.dfy`).

Money is modelled as exact `real` numbers, and rounding to the cent as an explicit
half-up rounding (`Money.Round2`). The calculator object only holds its year and two
constant tables, so its operations are functions. The two monitor loops and the two
error-tracker loops are methods with loop invariants. Each is proved equal to a
recursive specification function, and the properties are proved about those functions.

The model follows the code where it departs from the tax law and from what its comments and tests suggest:

- The basic allowance of 11604 EUR is subtracted from the gross income. The floored
  remainder is then compared with 11604 again inside the tariff. Income tax therefore
  starts only at a gross income of 23209 EUR (`IncomeTaxStartsAt23209`).
- Tax class 2 subtracts the single-parent relief from a local copy of the income
  that is never used. The class only multiplies the tax by 0.95 (`AdjustmentIgnoresIncome`).
- The social-contribution total rounds the sum of the unrounded lines. It can
  differ from the sum of the displayed lines by up to 2.5 cents (`SocialTotalDrift`).
- The solidarity surcharge has no phase-in band. It is 5.5 percent of the whole tax
  as soon as the tax exceeds 18130 EUR, so it jumps from 0 to more than 997 EUR.
- The tests expect `gross_monthly == gross_annual / 12` exactly. The code rounds
  both values separately, so the model proves the two agree only within one cent.
- The legacy calculator's coefficients do not match its zone limits, so its tariff
  falls at 17005 and at 66760 (`LegacyCalculator.TariffDropsAtZoneLimits`).

## Model

| member | source | states |
|---|---|---|
| Settings.BracketIndex | config/settings.py:62-70 | every non-negative taxable income lies in exactly one of the five brackets |
| Settings.BasicAllowanceEndsZeroBracket | config/settings.py:62-65 | the zero-rate bracket runs from 0 to the basic allowance of 11604 |
| Settings.BracketsContiguous | config/settings.py:64-70 | each bracket starts one euro after the previous one ends; only the last is open-ended |
| Settings.EastCeilingBelowWest | config/settings.py:82-83 | the east contribution ceiling (58800) is positive and below the west one (62100) |
| Settings.EmployeeShares | config/settings.py:78-81 | half of each total rate is the employee share 7.3, 9.3, 1.3 and 1.7 percent |
| Settings.TaxClassKeys | config/settings.py:87-94 | exactly the tax classes 1 to 6 have a name |
| TaxCalculator.Tariff | bot/services/tax_calculator.py:40-59 | the tariff on whole-euro income is never negative, and is zero exactly up to the basic allowance |
| TaxCalculator.ClassFactor | bot/services/tax_calculator.py:66-84 | every tax class scales the tax by a factor between 0.85 and 1.2 |
| TaxCalculator.ApplyTaxClassAdjustment | bot/services/tax_calculator.py:66-84 | a non-negative tax is multiplied by the class factor (2: 0.95, 3: 0.85, 5: 1.15, 6: 1.2, otherwise 1) and stays within 0.85 to 1.2 times itself; class 2 never yields a negative tax |
| TaxCalculator.TaxableIncome | bot/services/tax_calculator.py:31-32 | taxable income is the gross minus the allowance of 11604 when that is positive, and 0 otherwise |
| TaxCalculator.IncomeTax | bot/services/tax_calculator.py:19-64 | income tax is non-negative and a whole number of cents |
| TaxCalculator.SolidaritySurcharge | bot/services/tax_calculator.py:86-105 | the surcharge is whole cents; it is positive exactly when the tax exceeds 18130, and is then 5.5 percent of the tax to within half a cent and at least 997.15 |
| TaxCalculator.ChurchRate | bot/services/tax_calculator.py:119-120 | the rate is 8 exactly for BW and BY, and 9 otherwise |
| TaxCalculator.ChurchTax | bot/services/tax_calculator.py:107-123 | church tax is the state's rate of the income tax to within half a cent, whole cents, and non-negative for a non-negative tax |
| TaxCalculator.Ceiling | bot/services/tax_calculator.py:140-143 | the ceiling is the east one exactly when employed in the east, which is the lower one |
| TaxCalculator.ContributableIncome | bot/services/tax_calculator.py:145-146 | the contribution base is the gross or the ceiling, whichever is smaller |
| TaxCalculator.SocialSecurity | bot/services/tax_calculator.py:125-160 | each line is whole cents and within half a cent of 7.3, 9.3, 1.3 and 1.7 percent of the capped income; the total is within half a cent of 19.6 percent of it |
| TaxCalculator.NetIncome | bot/services/tax_calculator.py:162-221 | the reported gross is the gross rounded to cents; the income tax, surcharge, church tax (only with the flag, at the state's rate) and the four contribution lines are exactly what the separate calculations give; total deductions are their sum; net annual is gross minus deductions; the monthly amounts are within a cent of a twelfth; class, children and year are echoed |
| TaxCalculatorLemmas.Zone1Increasing | bot/services/tax_calculator.py:44-48 | the zone-1 quadratic never decreases on its zone |
| TaxCalculatorLemmas.Zone2Increasing | bot/services/tax_calculator.py:49-53 | the zone-2 quadratic never decreases on its zone |
| TaxCalculatorLemmas.TariffMonotone | bot/services/tax_calculator.py:40-59 | a larger whole-euro income never has a smaller tariff, across all zone limits |
| TaxCalculatorLemmas.ZoneLimitsMatchBrackets | bot/services/tax_calculator.py:41-55 | the zone limits written in the formula are the ends of the table's brackets |
| TaxCalculatorLemmas.MarginalRateFollowsBracket | bot/services/tax_calculator.py:40-59 | within a bracket one more euro costs the bracket's flat rate, or 14 to 24 percent in zone 1 and 24 to 42 percent in zone 2 |
| TaxCalculatorLemmas.IncomeTaxMonotone | bot/services/tax_calculator.py:19-64 | in every tax class, more gross income never means less income tax |
| TaxCalculatorLemmas.IncomeTaxStartsAt23209 | bot/services/tax_calculator.py:31-42 | income tax is positive exactly from a gross income of 23209, because the allowance is taken off twice |
| TaxCalculatorLemmas.TaxClassOrder | bot/services/tax_calculator.py:66-84 | for the same gross income, class 3 pays least, then 2, then 1 and 4 equally, then 5, then 6 |
| TaxCalculatorLemmas.AdjustmentIgnoresIncome | bot/services/tax_calculator.py:68-73 | the income given to the adjustment, and the class-2 relief applied to it, never change its result |
| TaxCalculatorLemmas.IncomeTaxOfWholeEuros | bot/services/tax_calculator.py:31-42 | income tax depends on the gross only through its whole-euro part: it is the rounded, class-adjusted tariff of the floored gross less the allowance |
| TaxCalculatorLemmas.IncomeTaxStepFunction | bot/services/tax_calculator.py:37-38 | any two incomes with the same whole-euro part pay the same income tax in every class |
| TaxCalculatorLemmas.IncomeTaxNotStrictlyIncreasing | bot/services/tax_calculator.py:37-38 | an example of the step: 30000 and 30000.50 pay the same tax in class 1 |
| TaxCalculatorLemmas.ChurchTaxLowerInSouth | bot/services/tax_calculator.py:119-123 | BW and BY never charge more church tax than any other state |
| TaxCalculatorLemmas.SocialSecurityCapped | bot/services/tax_calculator.py:140-146 | above the ceiling every contribution line and the total equal their value at the ceiling |
| TaxCalculatorLemmas.SocialSecurityMonotone | bot/services/tax_calculator.py:125-160 | no contribution line and not the total falls when the income rises |
| TaxCalculatorLemmas.SocialTotalDrift | bot/services/tax_calculator.py:154-160 | the total differs from the sum of the rounded lines by at most 2.5 cents, and at 20002, where no amount is a half-cent tie, it is one cent below it |
| TaxCalculatorLemmas.ChurchTaxSwitch | bot/services/tax_calculator.py:191-203 | turning church tax on adds exactly the church tax to the deductions and takes it off the net income; nothing else changes |
| TaxCalculatorLemmas.OnlyContributionsBelow23209 | bot/services/tax_calculator.py:185-203 | below 23209 the only deduction is the contribution total |
| TaxCalculatorLemmas.LowIncomeScenario | tests/test_tax_calculator.py:20-34 | at 10000 there is neither income tax nor surcharge |
| TaxCalculatorLemmas.MiddleIncomeScenario | tests/test_tax_calculator.py:37-61 | at 45000 the tax and all four contributions are positive, and the net income is between 0 and the gross |
| TaxCalculatorLemmas.HighIncomeScenario | tests/test_tax_calculator.py:64-79 | at 100000 the tax exceeds 20000 and a surcharge is due |
| TaxCalculatorLemmas.ChurchTaxScenario | tests/test_tax_calculator.py:82-107 | at 50000 church tax is positive when due, zero otherwise, and lowers the net income |
| TaxCalculatorLemmas.AllClassesTaxedScenario | tests/test_tax_calculator.py:110-126 | at 50000 every class from 1 to 6 owes income tax |
| TaxCalculatorLemmas.CeilingScenario | tests/test_tax_calculator.py:129-143 | at 200000 the health line stays below 5000 |
| TaxCalculatorLemmas.ProgressiveScenario | tests/test_tax_calculator.py:164-187 | 60000 pays a higher effective rate than 30000 |
| LegacyCalculator.MonthlyContributions | german_tax_bot/main.py:9-24 | every line is non-negative and at most its rate times its ceiling; up to 5175 the lines add up to 21.05 percent of the gross |
| LegacyCalculator.TaxableIncomeByBand | german_tax_bot/main.py:17-30 | the annual taxable income is 9.474 times the monthly gross less 1266 up to the health ceiling, and 12 times it less 17359.05 from the pension ceiling on |
| LegacyCalculator.Tariff | german_tax_bot/main.py:32-44 | the legacy tariff is non-negative and zero exactly up to 11604 |
| LegacyCalculator.SolidaritySurcharge | german_tax_bot/main.py:46-48 | the surcharge is nonzero exactly when the annual tax exceeds 18130, and is then above 997.15 |
| LegacyCalculator.NetIncome | german_tax_bot/main.py:7-65 | the four contribution lines are the capped monthly contributions and the total is their sum; twelve times the monthly tax is the tariff of the taxable income; twelve times the monthly surcharge is the surcharge on the annual tax; net is gross minus contributions, tax and surcharge |
| LegacyCalculator.ContributionsCapped | german_tax_bot/main.py:17-24 | from 7550 a month every contribution line is fixed |
| LegacyCalculator.HealthCareCappedFirst | german_tax_bot/main.py:17-24 | health and care are already fixed at 5175 while pension still grows up to 7550 |
| LegacyCalculator.TaxFreeUpTo1358 | german_tax_bot/main.py:27-54 | up to 1358 a month no tax or surcharge is due and the net is the gross less 21.05 percent |
| LegacyCalculator.TariffDropsAtZoneLimits | german_tax_bot/main.py:32-44 | the tariff falls by more than 135 past 17005 and by more than 188 past 66760; the last two zones meet at 277825 |
| UpdateMonitor.LowerNormalises | bot/services/tax_update_monitor.py:225 | lower-casing leaves no upper-case letter, leaves a text unchanged exactly when it has none, and is idempotent |
| UpdateMonitor.IsTaxRelated | bot/services/tax_update_monitor.py:206-226 | an item is tax-related exactly when one of the 8 essential keywords occurs in the lower-cased title and description |
| UpdateMonitor.KeywordMatchesAnyCase | bot/services/tax_update_monitor.py:217-226 | a keyword written in any mix of cases in the title makes the item tax-related |
| UpdateMonitor.EssentialKeywordsSuffice | bot/services/tax_update_monitor.py:217-226 | the 15 keywords accept exactly the texts the 8 keywords that contain no other keyword accept |
| UpdateMonitor.KeywordInEitherPart | bot/services/tax_update_monitor.py:206-226 | a keyword in the title alone or in the description alone, in any case, makes the item tax-related |
| UpdateMonitor.ClassifyUpdate | bot/services/tax_update_monitor.py:228-250 | the type is tax rate, allowance, social security or tax law exactly when that word group occurs and no earlier group does, and general exactly when none occurs |
| UpdateMonitor.LabelsDistinct | bot/services/tax_update_monitor.py:240-250 | the five stored labels are distinct |
| UpdateMonitor.PhraseAcrossTitleAndDescription | bot/services/tax_update_monitor.py:238-241 | a phrase split between title and description ("Neuer Tax" / "Rate 2025") still classifies as a tax-rate update |
| UpdateMonitor.ContainsTransitive | bot/services/tax_update_monitor.py:226 | an occurrence inside an occurrence is an occurrence |
| UpdateMonitor.LastIndexOf | bot/services/tax_update_monitor.py:182-183 | the index is -1 exactly when the character is absent, and otherwise holds the character with none after it |
| UpdateMonitor.BeforeLastSlash | bot/services/tax_update_monitor.py:183 | the result is a prefix that ends just before the last slash, or the whole address when it has no slash |
| UpdateMonitor.ResolveLink | bot/services/tax_update_monitor.py:180-183 | the link is a suffix of the result; empty links and links starting with "http" are unchanged; other links get the page address up to its last slash and a slash in front |
| UpdateMonitor.ResolveLinkIdempotent | bot/services/tax_update_monitor.py:182-183 | on a page whose base starts with "http", completing a link twice is completing it once |
| UpdateMonitor.RelativeLinkBesidePage | bot/services/tax_update_monitor.py:182-183 | a relative link on page dir/page resolves to dir/link |
| UpdateMonitor.Collect | bot/services/tax_update_monitor.py:127-139 | no more updates than items; each is tax-related, carries its item's classification and is tagged with the feed's key and name |
| UpdateMonitor.CollectSoundAndComplete | bot/services/tax_update_monitor.py:127-139 | every reported update is tax-related, classified and tagged with its source, and every tax-related item is reported |
| UpdateMonitor.CheckRssItems | bot/services/tax_update_monitor.py:120-139 | the RSS loop reports exactly the collected, classified tax-related items, in feed order |
| UpdateMonitor.ScrapeArticles | bot/services/tax_update_monitor.py:176-199 | the news-page loop completes each link and reports exactly the collected tax-related articles, in page order |
| ErrorTracker.LastLines | bot/utils/error_tracker.py:153 | a positive limit keeps the last min(limit, n) lines; 0 keeps all of them; a negative limit drops the first -limit lines |
| ErrorTracker.Parsed | bot/utils/error_tracker.py:153-157 | parsing never yields more records than lines |
| ErrorTracker.ParsedContents | bot/utils/error_tracker.py:153-157 | a record is returned exactly when some line parses to it |
| ErrorTracker.GetRecentErrors | bot/utils/error_tracker.py:143-163 | the loop returns the parsed records of the last `limit` lines, in order |
| ErrorTracker.RecentErrorsBounded | bot/utils/error_tracker.py:143-163 | with a positive limit at most `limit` records come back, all from the last `limit` lines |
| ErrorTracker.IndexOfKey | bot/utils/error_tracker.py:179-184 | the position holds the key, and it is -1 exactly when the key is absent |
| ErrorTracker.Bump | bot/utils/error_tracker.py:179-184 | counting a key adds one to the total count |
| ErrorTracker.BumpKeys | bot/utils/error_tracker.py:179-184 | counting a known key keeps the keys and their order; a new key is appended at the end |
| ErrorTracker.BumpCount | bot/utils/error_tracker.py:179-184 | counting a key adds one to its count and to no other |
| ErrorTracker.BumpShape | bot/utils/error_tracker.py:179-184 | counting a key keeps the keys distinct |
| ErrorTracker.TallyOf | bot/utils/error_tracker.py:177-184 | the dict built by counting has each key once |
| ErrorTracker.TallyOfCorrect | bot/utils/error_tracker.py:177-184 | counting a sequence gives distinct keys in first-seen order, each with its number of occurrences, summing to the length |
| ErrorTracker.FirstMaxIndex | bot/utils/error_tracker.py:196-197 | the chosen entry has the largest count and every earlier entry a smaller one (first on ties) |
| ErrorTracker.MostCommon | bot/utils/error_tracker.py:196-197 | there is a most common key exactly when the dict is not empty |
| ErrorTracker.StatisticsOf | bot/utils/error_tracker.py:169-170 | there are no statistics exactly when there are no records |
| ErrorTracker.UsersBounded | bot/utils/error_tracker.py:187-195 | no more users are affected than there are records |
| ErrorTracker.StatisticsConsistent | bot/utils/error_tracker.py:165-198 | the total is the number of records; both dicts count every record once, under "Unknown"/"unknown" when the key is missing, in first-seen order; at most that many users; a most common type and operation exist |
| ErrorTracker.MostCommonIsFirstMaximal | bot/utils/error_tracker.py:177-197 | the key `max` picks from the counted dict occurs at least as often as any other, and every other key occurring as often was first seen after it |
| ErrorTracker.MostCommonAreFirstMaximal | bot/utils/error_tracker.py:196-197 | the most common error type and the most problematic operation each occur at least as often as any other of their kind, and any other occurring as often was first seen later |
| ErrorTracker.FirstMaxOfTally | bot/utils/error_tracker.py:196-197 | on a dict with distinct keys the chosen count bounds every count, and keys with an equal count stand after it |
| ErrorTracker.CountErrors | bot/utils/error_tracker.py:177-189 | the loop's two dicts are the counts of the error types and of the operations, and its user dict has exactly the records' truthy user ids as keys |
| ErrorTracker.GetErrorStatistics | bot/utils/error_tracker.py:165-198 | the result is the statistics of the parsed last 100 lines of the log |

## Left out

- Fetching feeds and pages, the 30-second timeouts, the HTTP status check, XML and HTML parsing with BeautifulSoup, and the limit of 5 items per page: the loops receive the items already extracted.
- `check_for_updates`, `_check_source` (the RSS-then-page fallback per source), `extract_changes` and the timestamp `detected_at` (clock): orchestration, I/O and a placeholder with no logic of its own.
- The exception handlers that log and return an empty list: I/O failures are not modelled.
- UpdateMonitor.Lower: only ASCII letters are lowered; Python's full Unicode lower-casing (for example of "Ä") is not modelled.
- Error tracking on the write side (`track_error`, traceback extraction, log formatting, JSONL writes, logger setup): I/O and formatting only.
- GetRecentErrors: reading the file, a missing file and read errors (which return an empty list) are left out; the lines arrive already parsed or marked unparseable.
- ErrorTracker.ErrorRecord: a JSON value that is not an object, or an `error_type`/`operation` present with a non-string value such as `null`, is not modelled; a field is a string or absent, and `user_id` is an integer or absent.
- Money: Python's binary floating point and its round-half-even `round` are modelled as exact reals with half-up rounding to the cent.
- The calculator's `children` argument is only echoed, as in the code. The code has no child allowance, age-group care surcharge, insurer-specific rate or employment type, so the model has none either.
- The global calculator and tracker instances and `validate_config`: module-level wiring and environment reading.
- The environment-driven settings (bot token, database URL, source URLs, log paths, language list): configuration read from the process environment, not used by the core.
