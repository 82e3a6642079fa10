# Portuguese net-salary engine, 2026 rules

This project is a Dafny model of the calculation engine of a Portuguese
take-home-pay calculator. The engine takes one input record:
- a gross salary, given per payment or per year;
- the number of payments per year;
- the employment type (employee or self-employed);
- the tax regime (standard or NHR, the non-habitual-resident flat rate);
- the marital status, the number of dependents, and a disability flag.

It returns the full breakdown:
- social-security contribution, with the self-employed ceiling of 12 × IAS;
- taxable income;
- IRS income tax, either from the nine progressive 2026 brackets (with joint taxation for a married sole earner) or at the NHR flat 20%;
- dependent and disability credits;
- the two-tier solidarity surtax;
- annual and monthly net pay, and the effective rates.

Modules:

- `TaxTables` (`TaxTables.dfy`): the 2026 bracket table and the rate, threshold and credit constants. `WellFormed` is the shape the resolver relies on, and `TableWellFormed` proves the 2026 table has it.
- `ProgressiveResolver` (`ProgressiveTax.dfy`): the progressive resolver.
  - `Resolve` is its specification.
  - `CalculateProgressiveTax` is the loop the calculator runs: a scan that breaks at the first covering bracket, then a fallback to the last bracket. It is proved equal to `Resolve`.
  - The lemmas state the exemption cliff, the first-fit choice of bracket, and the bounds on the tax.
- `TaxEngine` (`TaxEngine.dfy`): the input and result records and the engine, `CalculateTaxes`. The engine is composed from one function per stage:
  - normalising gross;
  - the contribution;
  - the regime tax after credits;
  - the solidarity surtax;
  - aggregation.
- `TaxProperties` (`TaxProperties.dfy`): what the engine promises. Stage lemmas are stated over the values each stage receives. `Composition`, `IncomeTaxComposition` and `BracketComposition` connect the fields of the result to those stages. The properties of `CalculateTaxes` as a whole follow from them.
- `TaxScenarios` (`TaxScenarios.dfy`): three worked inputs with their exact figures.

Money is `real`. Every amount is exact, so identities such as conservation hold with equality.

## Model

| member | source | states |
|---|---|---|
| TaxTables.TaxBrackets2026 | src/utils/taxCalculator.ts:3-13 | The 2026 table has nine brackets. |
| TaxTables.TableWellFormed | src/utils/taxCalculator.ts:3-13 | The table starts at 0. Each bracket's upper bound is the next one's lower bound, and only the last bracket is unbounded. Lower bounds and rates strictly rise, from 12.5% up to the 48% top rate. Each deduction is non-negative and at most the bracket's rate times its lower bound. |
| ProgressiveResolver.FirstCovering | src/utils/taxCalculator.ts:102-107 | The index the scan returns is inside the table. |
| ProgressiveResolver.FirstCoveringSpec | src/utils/taxCalculator.ts:102-107 | The returned bracket covers the income (income ≤ max) and no earlier bracket does. Nothing is returned only when no bracket covers. |
| ProgressiveResolver.CalculateProgressiveTax | src/utils/taxCalculator.ts:95-115 | The loop (exemption check, scan with `break`, fallback to the last bracket, `max(0, income*rate - deduction)`) returns exactly the tax and bracket of the specification `Resolve`, for any non-empty table. |
| ProgressiveResolver.ExemptionIff | src/utils/taxCalculator.ts:96-98 | No bracket is reported if and only if income ≤ 12880. At or below 12880 the tax is 0. |
| ProgressiveResolver.ScanMatches | src/utils/taxCalculator.ts:102-111 | On a well-formed table the scan always finds a bracket, so the fallback is never used. |
| ProgressiveResolver.FirstFit | src/utils/taxCalculator.ts:102-113 | Above 12880, the reported bracket is the first one whose max is ≥ income, every earlier bracket's max is < income, and the tax is `max(0, income*rate - deduction)` of that bracket. |
| ProgressiveResolver.InBracket | src/utils/taxCalculator.ts:102-113 | Above 12880, the reported bracket really contains the income (min < income ≤ max). The floor at 0 never applies: the tax equals the bracket formula and is positive. |
| ProgressiveResolver.TaxNonNegative | src/utils/taxCalculator.ts:113 | The progressive tax is never negative. |
| ProgressiveResolver.TaxBounds | src/utils/taxCalculator.ts:95-115 | On a well-formed table, for non-negative income, 0 ≤ tax ≤ 48% of income. |
| ProgressiveResolver.ProgressiveTaxBounds | src/utils/taxCalculator.ts:95-115 | The same bounds hold for the 2026 table that the engine uses. |
| ProgressiveResolver.BoundaryGap | src/utils/taxCalculator.ts:4-12 | At each of the eight bracket boundaries, the two adjoining brackets' formulas differ by at most 0.30. |
| TaxEngine.Share | src/utils/taxCalculator.ts:219-221 | The guarded effective-rate division: the rate times gross gives back the part when gross is positive, and the rate is 0 otherwise. |
| TaxProperties.GrossConsistent | src/utils/taxCalculator.ts:130-136 | For either input mode, annual gross is monthly gross times the payments. Both are non-negative for a non-negative salary. |
| TaxProperties.GrossNormalisation | src/utils/taxCalculator.ts:130-136 | Annual input: grossAnnual is the salary. Monthly input: grossMonthly is the salary. In both cases grossAnnual = grossMonthly × salaryMonths. |
| TaxProperties.Composition | src/utils/taxCalculator.ts:129-226 | The result's gross, contribution, taxable income, joint flag, credits, surtax, reported SS rate and self-employed flags are the values of the corresponding stages on the input. |
| TaxProperties.IncomeTaxComposition | src/utils/taxCalculator.ts:169-207 | The reported `irsAnnual` is the regime tax after credits plus the solidarity tax. |
| TaxProperties.BracketComposition | src/utils/taxCalculator.ts:157-187 | The reported bracket is the one the regime tax was resolved in. |
| TaxProperties.ContributionConsistent | src/utils/taxCalculator.ts:142-152 | For both employment types, the annual contribution is the monthly one times the payments. For non-negative gross it lies between 0 and 21.4% of annual gross. |
| TaxProperties.SocialSecurityRules | src/utils/taxCalculator.ts:142-152 | Employees pay 11% of annual and of monthly gross, uncapped. The self-employed pay 21.4% of min(grossMonthly, 6445.56) per payment. The capped flag holds exactly for a self-employed person with grossMonthly > 6445.56 (lines 224-226). The cap reported is 6445.56. |
| TaxProperties.TaxableIncomeBounds | src/utils/taxCalculator.ts:142-155 | For a non-negative salary, taxable income = gross − contribution, the contribution is at most 21.4% of gross, and 0 ≤ taxable ≤ gross. |
| TaxProperties.NhrRegime | src/utils/taxCalculator.ts:161-173 | Under NHR, income tax = taxable × 0.20, and credits, surtax and joint taxation are all absent. No bracket is reported. |
| TaxProperties.StandardTax | src/utils/taxCalculator.ts:174-191 | Standard regime. The tax before credits is the resolver on the full income, or for a married sole earner exactly 2 × the resolver on half the income, with the half's bracket reported. The tax after credits is `max(0, before − credits)`, so it is ≥ 0 and ≤ the tax before credits. |
| TaxProperties.CreditRules | src/utils/taxCalculator.ts:165-167 | Standard regime: credits are 600 × dependents plus 1900 with a disability. NHR: no credits. The total is their sum and is never negative. |
| TaxProperties.SolidarityTiers | src/utils/taxCalculator.ts:194-205 | The surtax is charged on the unsplit taxable income t. It is 0 under NHR or when t ≤ 80000, (t − 80000) × 2.5% up to 250000, and 170000 × 2.5% + (t − 250000) × 5% above. It is never negative. |
| TaxProperties.SolidarityMonotone | src/utils/taxCalculator.ts:194-205 | The surtax never decreases as taxable income rises. |
| TaxProperties.SolidarityBounds | src/utils/taxCalculator.ts:194-205 | For non-negative income the surtax is between 0 and 5% of it. |
| TaxProperties.RegimeTaxBounds | src/utils/taxCalculator.ts:161-191 | For non-negative income and credits, the regime tax after credits is between 0 and 48% of taxable income. |
| TaxProperties.StageTaxBounds | src/utils/taxCalculator.ts:161-207 | For non-negative income and credits, regime tax plus surtax is between 0 and 53% of taxable income. |
| TaxProperties.IncomeTaxBounds | src/utils/taxCalculator.ts:155-207 | For a non-negative salary, 0 ≤ irsAnnual ≤ 53% of taxable income. |
| TaxProperties.NetAnnualNonNegative | src/utils/taxCalculator.ts:210 | For a non-negative salary, net annual pay is never negative. |
| TaxProperties.AggregateIdentities | src/utils/taxCalculator.ts:207-220 | The aggregation stage, for any positive number of payments:<br>- irsAnnual is the income tax plus the surtax;<br>- net + contribution + income tax = gross;<br>- the withholding times the payments is irsAnnual;<br>- net monthly = gross monthly − contribution monthly − irsAnnual / payments;<br>- net monthly × payments = net annual when gross and contribution are per-payment figures times the payments;<br>- the reported SS rate is 0.11. |
| TaxProperties.AggregatePerPayment | src/utils/taxCalculator.ts:207-216 | Aggregation keeps gross, contribution, income tax and net each equal to its per-payment figure times the payments. |
| TaxProperties.Conservation | src/utils/taxCalculator.ts:207-216 | For every input with positive payments:<br>- netAnnual + socialSecurityAnnual + irsAnnual = grossAnnual;<br>- netMonthly = grossMonthly − socialSecurityMonthly − irsWithholdingMonthly;<br>- every annual figure is its monthly one times salaryMonths, so the withholding is irsAnnual spread evenly. |
| TaxProperties.ReportedSocialSecurityRate | src/utils/taxCalculator.ts:220 | `effectiveSSRate` is 0.11 for every input, whatever the employment type. |
| TaxProperties.EffectiveRates | src/utils/taxCalculator.ts:219-221 | The effective income-tax rate and the effective total rate are 0 when grossAnnual ≤ 0. Otherwise, times grossAnnual they give irsAnnual and socialSecurityAnnual + irsAnnual. |
| TaxScenarios.MonthlyEmployee | src/components/SalaryExamples.tsx:14-44 | 2500 a month, 14 payments, employee, standard, single: gross 35000, contribution 3850, taxable 31150 in the 34.9% bracket, tax 6661.41, no surtax, net 24488.59. |
| TaxScenarios.FlatRegime | src/utils/taxCalculator.ts:161-173 | 100000 a year under NHR, any marital status: contribution 11000, taxable 89000, tax 17800, net 71200, no bracket. |
| TaxScenarios.CappedSelfEmployed | src/utils/taxCalculator.ts:142-226 | Self-employed at 7000 a month: capped, monthly contribution 6445.56 × 0.214 = 1379.34984, annual 19310.89776. The reported SS rate is still 0.11, which is not the contribution's share of gross. |

## Left out

- `formatCurrency` and `formatPercent` (src/utils/taxCalculator.ts:253-268) are not modelled. They wrap a locale library (`Intl.NumberFormat`) and do no calculation.
- The React components and the language context are not part of this model. They gather the input and render the result.
- IEEE-754 doubles and their rounding are not modelled. Money is an exact `real`, and the unbounded top bracket's `Infinity` is `None`.
- Payment counts are not restricted to a fixed set. Both callers of the engine (src/App.tsx:25,38 and src/components/SalaryExamples.tsx:42) pass 12 or 14 payments. Every engine lemma holds for any positive `salaryMonths`, which covers both.
- TaxEngine.FormInput: the bounds lemmas (`TaxableIncomeBounds`, `IncomeTaxBounds`, `NetAnnualNonNegative`) assume a non-negative salary and positive payments. The calculator does not enforce this domain, so for a negative salary the model promises no bounds.
- `CalculateTaxes` requires `salaryMonths > 0`. The calculator does not check it and would divide by zero. The non-finite results it would then produce are not modelled.
- Input validation is not modelled, because the calculator has none:
  - `dependents` is a `nat`, so negative counts cannot occur;
  - a negative salary is accepted by the engine and by its callers. The salary field's `min="0"` (src/components/InputForm.tsx:51) only sets the spinner's floor: a typed negative value still reaches `calculateTaxes` (src/components/InputForm.tsx:50);
  - no error results exist.
- TaxEngine.TaxResult: `effectiveIRSRate` and `effectiveTotalRate` are not stored fields of the result. They are the member functions `EffectiveIRSRate()` and `EffectiveTotalRate()`, computed by the same guarded division (`Share`) from the stored figures. The values are the same; only where they are stored differs.
- ProgressiveResolver.CalculateProgressiveTax: the loop takes the bracket table as a parameter instead of reading the fixed 2026 table. This keeps its fallback branch reachable. The engine uses `ProgressiveTax`, which is `Resolve` on the 2026 table, and the method is proved equal to `Resolve` for every table, that one included.
- ProgressiveResolver.BoundaryGap: the tax is not proved continuous at bracket boundaries, because it is not. With the published deduction constants, the two adjoining formulas agree only to within 0.30 at each boundary (for example 1709.219 and 1709.184 at 12587), and that bound is what the lemma states.
- The employer rate (23.75%), the extended self-employed rate (25.2%) and the under-3 dependent credit (726) are declared but unused, as in the calculator. The model has no notion of a dependent's age.
- The monthly withholding is the annual tax divided by the number of payments, as in the calculator. No per-payment withholding table is modelled.
- The reported `effectiveSSRate` is always the employee rate (0.11), even for the self-employed. This is preserved as written (`ReportedSocialSecurityRate`, `CappedSelfEmployed`), not corrected.
