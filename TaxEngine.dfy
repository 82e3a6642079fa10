/**
 * The net-salary engine: from one input record to the full breakdown of
 * social security, income tax (progressive or NHR flat rate), credits,
 * solidarity surtax, net figures and effective rates.
 */
module TaxEngine {
  import opened Wrappers
  import opened TaxTables
  import opened ProgressiveResolver

  datatype SalaryInputType = Monthly | Annual
  datatype EmploymentType = Employee | SelfEmployed
  datatype TaxRegime = Standard | Nhr
  /** Single, married with one earner (joint taxation), married with two earners. */
  datatype MaritalStatus = Single | MarriedOne | MarriedTwo

  /**
   * The calculator's input. `grossSalary` is monthly or annual according to
   * `salaryInputType`; `salaryMonths` is the number of payments per year.
   */
  datatype TaxInput = TaxInput(
    grossSalary: real,
    salaryInputType: SalaryInputType,
    salaryMonths: real,
    employmentType: EmploymentType,
    taxRegime: TaxRegime,
    maritalStatus: MaritalStatus,
    dependents: nat,
    hasDisability: bool)

  datatype TaxResult = TaxResult(
    // monthly values
    grossMonthly: real,
    socialSecurityMonthly: real,
    irsWithholdingMonthly: real,
    netMonthly: real,
    // annual values
    grossAnnual: real,
    socialSecurityAnnual: real,
    irsAnnual: real,
    solidarityTax: real,
    netAnnual: real,
    // credits applied
    dependentDeduction: real,
    disabilityDeduction: real,
    totalDeductions: real,
    // effective rates (the income-tax and total rates are the members below)
    effectiveSSRate: real,
    // tax breakdown
    taxableIncome: real,
    appliedBracket: Option<Bracket>,
    isJointTaxation: bool,
    // self-employed specifics
    isSelfEmployed: bool,
    ssContributionCapped: bool,
    ssMonthlyCapAmount: real)
  {
    /** Share of annual gross taken by income tax (surtax included); 0 without positive gross. */
    function EffectiveIRSRate(): real {
      Share(irsAnnual, grossAnnual)
    }

    /** Share of annual gross taken by contribution and income tax; 0 without positive gross. */
    function EffectiveTotalRate(): real {
      Share(socialSecurityAnnual + irsAnnual, grossAnnual)
    }
  }

  /** Social-security contribution, per year and per payment. */
  datatype Contribution = Contribution(annual: real, monthly: real)

  /** Monthly contribution base ceiling of the self-employed: 12 × IAS. */
  const MonthlyContributionCap: real := SelfEmployedMonthlyCapIasMultiplier * Ias2026

  /**
   * Employees pay a flat rate on each gross figure, uncapped; the
   * self-employed pay their rate on the monthly gross capped at the ceiling,
   * and the annual amount is the monthly one times the number of payments.
   */
  function SocialSecurity(employmentType: EmploymentType, grossAnnual: real, grossMonthly: real, months: real): Contribution {
    match employmentType
    case SelfEmployed =>
      var monthly := Min(grossMonthly, MonthlyContributionCap) * SocialSecurityRateSelfEmployed;
      Contribution(monthly * months, monthly)
    case Employee =>
      Contribution(grossAnnual * SocialSecurityRateEmployee, grossMonthly * SocialSecurityRateEmployee)
  }

  /**
   * Standard-regime tax before credits. Under joint taxation the resolver runs
   * on half the income and the tax is doubled; the bracket reported is the one
   * chosen for the half.
   */
  function TaxBeforeCredits(isJointTaxation: bool, taxableIncome: real): Assessment {
    if isJointTaxation then
      var half := ProgressiveTax(taxableIncome / 2.0);
      Assessment(half.tax * 2.0, half.bracket)
    else
      ProgressiveTax(taxableIncome)
  }

  /** Income tax of the regime, after credits (standard) or flat (NHR, no bracket). */
  function RegimeTax(taxRegime: TaxRegime, isJointTaxation: bool, taxableIncome: real, totalDeductions: real): Assessment {
    match taxRegime
    case Nhr => Assessment(taxableIncome * NhrFlatRate, None)
    case Standard =>
      var before := TaxBeforeCredits(isJointTaxation, taxableIncome);
      Assessment(Max(0.0, before.tax - totalDeductions), before.bracket)
  }

  /** Two-tier solidarity surtax on the unsplit taxable income, standard regime only. */
  function SolidarityTax(taxRegime: TaxRegime, taxableIncome: real): real {
    if taxRegime == Standard && taxableIncome > SolidarityTaxThreshold1 then
      if taxableIncome > SolidarityTaxThreshold2 then
        (SolidarityTaxThreshold2 - SolidarityTaxThreshold1) * SolidarityTaxRate1
        + (taxableIncome - SolidarityTaxThreshold2) * SolidarityTaxRate2
      else
        (taxableIncome - SolidarityTaxThreshold1) * SolidarityTaxRate1
    else
      0.0
  }

  /** Gross income per year and per payment. */
  datatype Gross = Gross(annual: real, monthly: real)

  /** Normalises the salary from its input mode to annual and per-payment figures. */
  function NormaliseGross(salaryInputType: SalaryInputType, grossSalary: real, months: real): Gross
    requires months > 0.0
  {
    match salaryInputType
    case Annual => Gross(grossSalary, grossSalary / months)
    case Monthly => Gross(grossSalary * months, grossSalary)
  }

  /** Tax credits of the standard regime; none under NHR. */
  datatype Credits = Credits(dependent: real, disability: real, total: real)

  function TaxCredits(taxRegime: TaxRegime, dependents: nat, hasDisability: bool): Credits {
    var dependent := if taxRegime == Standard then dependents as real * DependentDeduction else 0.0;
    var disability := if taxRegime == Standard && hasDisability then DisabilityDeduction else 0.0;
    Credits(dependent, disability, dependent + disability)
  }

  /** The fraction of `whole` that `part` makes up; 0 when there is no positive whole. */
  function Share(part: real, whole: real): (rate: real)
    ensures whole > 0.0 ==> rate * whole == part
    ensures whole <= 0.0 ==> rate == 0.0
  {
    if whole > 0.0 then part / whole else 0.0
  }

  /** Final stage: net figures and the even monthly withholding. */
  function Aggregate(
    months: real, gross: Gross, ss: Contribution, taxableIncome: real, credits: Credits,
    incomeTax: Assessment, solidarityTax: real, isJointTaxation: bool, isSelfEmployed: bool): TaxResult
    requires months > 0.0
  {
    var totalIrsAnnual := incomeTax.tax + solidarityTax;
    var netAnnual := gross.annual - ss.annual - totalIrsAnnual;
    var irsWithholdingMonthly := totalIrsAnnual / months;
    var netMonthly := gross.monthly - ss.monthly - irsWithholdingMonthly;
    TaxResult(
      gross.monthly, ss.monthly, irsWithholdingMonthly, netMonthly,
      gross.annual, ss.annual, totalIrsAnnual, solidarityTax, netAnnual,
      credits.dependent, credits.disability, credits.total,
      SocialSecurityRateEmployee,
      taxableIncome, incomeTax.bracket, isJointTaxation,
      isSelfEmployed, isSelfEmployed && gross.monthly > MonthlyContributionCap, MonthlyContributionCap)
  }

  /**
   * The input domain the bounds lemmas assume: a positive number of payments
   * and a non-negative salary (dependents are a `nat` by type). Both callers
   * of the engine pass 12 or 14 payments; nothing in the calculator rejects a
   * negative salary.
   */
  predicate FormInput(input: TaxInput) {
    input.salaryMonths > 0.0 && input.grossSalary >= 0.0
  }

  /**
   * The whole engine: one result record per input record. The number of
   * payments must be positive, as it is a divisor.
   */
  function CalculateTaxes(input: TaxInput): TaxResult
    requires input.salaryMonths > 0.0
  {
    var months := input.salaryMonths;
    var gross := NormaliseGross(input.salaryInputType, input.grossSalary, months);
    var ss := SocialSecurity(input.employmentType, gross.annual, gross.monthly, months);
    var taxableIncome := gross.annual - ss.annual;
    var isJointTaxation := input.maritalStatus == MarriedOne && input.taxRegime == Standard;
    var credits := TaxCredits(input.taxRegime, input.dependents, input.hasDisability);
    var incomeTax := RegimeTax(input.taxRegime, isJointTaxation, taxableIncome, credits.total);
    var solidarityTax := SolidarityTax(input.taxRegime, taxableIncome);
    Aggregate(months, gross, ss, taxableIncome, credits, incomeTax, solidarityTax,
              isJointTaxation, input.employmentType == SelfEmployed)
  }
}
