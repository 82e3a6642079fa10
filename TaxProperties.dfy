/**
 * What the engine promises. Stage lemmas are stated over the values each
 * stage receives; the lemmas about `CalculateTaxes` as a whole reach them
 * through `Composition`, and hold for any positive number of payments.
 */
module TaxProperties {
  import opened Wrappers
  import opened TaxTables
  import opened ProgressiveResolver
  import opened TaxEngine

  /** An annual figure that is the per-payment figure times the number of payments. */
  predicate Spread(annual: real, perPayment: real, months: real) {
    annual == perPayment * months
  }

  /** Every annual figure of a result is its per-payment figure times the payments. */
  predicate PerPayment(r: TaxResult, months: real) {
    && Spread(r.grossAnnual, r.grossMonthly, months)
    && Spread(r.socialSecurityAnnual, r.socialSecurityMonthly, months)
    && Spread(r.irsAnnual, r.irsWithholdingMonthly, months)
    && Spread(r.netAnnual, r.netMonthly, months)
  }

  /** Whatever the input mode, annual gross is per-payment gross times the number of payments. */
  lemma GrossConsistent(salaryInputType: SalaryInputType, grossSalary: real, months: real)
    requires months > 0.0
    ensures var g := NormaliseGross(salaryInputType, grossSalary, months);
      && Spread(g.annual, g.monthly, months)
      && (grossSalary >= 0.0 ==> g.annual >= 0.0 && g.monthly >= 0.0)
  {
    if salaryInputType == Annual {
      DivMul(grossSalary, months);
      if grossSalary >= 0.0 {
        NonNegativeQuotient(grossSalary, months);
      }
    } else if grossSalary >= 0.0 {
      NonNegativeProduct(grossSalary, months);
    }
  }

  /** Gross is normalised from the input mode, and annual gross is always monthly gross times the payments. */
  lemma GrossNormalisation(input: TaxInput)
    requires input.salaryMonths > 0.0
    ensures var r := CalculateTaxes(input);
      && Spread(r.grossAnnual, r.grossMonthly, input.salaryMonths)
      && (input.salaryInputType == Annual ==> r.grossAnnual == input.grossSalary)
      && (input.salaryInputType == Monthly ==> r.grossMonthly == input.grossSalary)
  {
    Composition(input);
    GrossConsistent(input.salaryInputType, input.grossSalary, input.salaryMonths);
  }

  /**
   * How `CalculateTaxes` composes its stages: gross is normalised, the
   * contribution is taken from it, taxable income is what remains, joint
   * taxation applies to a married sole earner under the standard regime, and
   * the credits and the solidarity tax are computed from the regime and that
   * income.
   */
  lemma Composition(input: TaxInput)
    requires input.salaryMonths > 0.0
    ensures var r := CalculateTaxes(input);
      var months := input.salaryMonths;
      var gross := NormaliseGross(input.salaryInputType, input.grossSalary, months);
      var ss := SocialSecurity(input.employmentType, gross.annual, gross.monthly, months);
      var t := gross.annual - ss.annual;
      var credits := TaxCredits(input.taxRegime, input.dependents, input.hasDisability);
      && r.grossAnnual == gross.annual && r.grossMonthly == gross.monthly
      && r.socialSecurityAnnual == ss.annual && r.socialSecurityMonthly == ss.monthly
      && r.taxableIncome == t
      && r.isJointTaxation == (input.maritalStatus == MarriedOne && input.taxRegime == Standard)
      && r.dependentDeduction == credits.dependent && r.disabilityDeduction == credits.disability
      && r.totalDeductions == credits.total
      && r.solidarityTax == SolidarityTax(input.taxRegime, t)
      && r.effectiveSSRate == SocialSecurityRateEmployee
      && r.isSelfEmployed == (input.employmentType == SelfEmployed)
      && r.ssContributionCapped == (input.employmentType == SelfEmployed && gross.monthly > MonthlyContributionCap)
      && r.ssMonthlyCapAmount == MonthlyContributionCap
  {
    Unfold(input);
  }

  /**
   * The income tax reported is the regime's tax on taxable income, after the
   * credits, plus the solidarity tax.
   */
  lemma IncomeTaxComposition(input: TaxInput)
    requires input.salaryMonths > 0.0
    ensures var r := CalculateTaxes(input);
      r.irsAnnual == RegimeTax(input.taxRegime, r.isJointTaxation, r.taxableIncome, r.totalDeductions).tax + r.solidarityTax
  {
    Unfold(input);
  }

  /** The bracket reported is the one the regime's tax was resolved in. */
  lemma BracketComposition(input: TaxInput)
    requires input.salaryMonths > 0.0
    ensures var r := CalculateTaxes(input);
      r.appliedBracket == RegimeTax(input.taxRegime, r.isJointTaxation, r.taxableIncome, r.totalDeductions).bracket
  {
    Unfold(input);
  }

  /** One unfolding of `CalculateTaxes` into its final stage. */
  lemma Unfold(input: TaxInput)
    requires input.salaryMonths > 0.0
    ensures var months := input.salaryMonths;
      var gross := NormaliseGross(input.salaryInputType, input.grossSalary, months);
      var ss := SocialSecurity(input.employmentType, gross.annual, gross.monthly, months);
      var t := gross.annual - ss.annual;
      var joint := input.maritalStatus == MarriedOne && input.taxRegime == Standard;
      var credits := TaxCredits(input.taxRegime, input.dependents, input.hasDisability);
      CalculateTaxes(input)
        == Aggregate(months, gross, ss, t, credits, RegimeTax(input.taxRegime, joint, t, credits.total),
                     SolidarityTax(input.taxRegime, t), joint, input.employmentType == SelfEmployed)
  {
  }

  /**
   * When annual gross is per-payment gross times the payments, the annual
   * contribution is the per-payment one times the payments too, for both
   * employment types; for a non-negative gross it is non-negative and at most
   * 21.4% of annual gross.
   */
  lemma ContributionConsistent(employmentType: EmploymentType, gross: Gross, months: real)
    requires months > 0.0 && Spread(gross.annual, gross.monthly, months)
    ensures var ss := SocialSecurity(employmentType, gross.annual, gross.monthly, months);
      && Spread(ss.annual, ss.monthly, months)
      && (gross.monthly >= 0.0 ==> 0.0 <= ss.annual <= 0.214 * gross.annual)
  {
    match employmentType
    case Employee =>
      MulAssoc(gross.monthly, 0.11, months);
      if gross.monthly >= 0.0 {
        NonNegativeProduct(gross.monthly, months);
      }
    case SelfEmployed =>
      var base := Min(gross.monthly, MonthlyContributionCap);
      MulAssoc(base, 0.214, months);
      if gross.monthly >= 0.0 {
        MulMonotone(base, gross.monthly, months);
        NonNegativeProduct(base, months);
      }
  }

  /**
   * Employees pay 11% of each gross figure, uncapped; the self-employed pay
   * 21.4% of the monthly gross capped at 12 × IAS, once per payment; the
   * capped flag holds exactly for a self-employed person above the ceiling.
   * For both, the annual contribution is the per-payment one times the payments.
   */
  lemma SocialSecurityRules(input: TaxInput)
    requires input.salaryMonths > 0.0
    ensures var r := CalculateTaxes(input);
      && r.ssMonthlyCapAmount == MonthlyContributionCap == 6445.56
      && r.isSelfEmployed == (input.employmentType == SelfEmployed)
      && (r.ssContributionCapped <==> input.employmentType == SelfEmployed && r.grossMonthly > MonthlyContributionCap)
      && Spread(r.socialSecurityAnnual, r.socialSecurityMonthly, input.salaryMonths)
      && (input.employmentType == Employee ==>
            r.socialSecurityAnnual == 0.11 * r.grossAnnual && r.socialSecurityMonthly == 0.11 * r.grossMonthly)
      && (input.employmentType == SelfEmployed && r.ssContributionCapped ==>
            r.socialSecurityMonthly == 6445.56 * 0.214)
      && (input.employmentType == SelfEmployed && !r.ssContributionCapped ==>
            r.socialSecurityMonthly == r.grossMonthly * 0.214)
  {
    var months := input.salaryMonths;
    Composition(input);
    GrossConsistent(input.salaryInputType, input.grossSalary, months);
    ContributionConsistent(input.employmentType, NormaliseGross(input.salaryInputType, input.grossSalary, months), months);
  }

  /** For a non-negative salary the contribution is non-negative and taxable income lies between 0 and gross. */
  lemma TaxableIncomeBounds(input: TaxInput)
    requires FormInput(input)
    ensures var r := CalculateTaxes(input);
      && r.taxableIncome == r.grossAnnual - r.socialSecurityAnnual
      && 0.0 <= r.socialSecurityAnnual <= 0.214 * r.grossAnnual
      && 0.0 <= r.taxableIncome <= r.grossAnnual
  {
    var months := input.salaryMonths;
    GrossConsistent(input.salaryInputType, input.grossSalary, months);
    ContributionConsistent(input.employmentType, NormaliseGross(input.salaryInputType, input.grossSalary, months), months);
  }

  /**
   * NHR regime: a flat 20% of taxable income, with no credits, no solidarity
   * tax, no joint taxation and no bracket.
   */
  lemma NhrRegime(input: TaxInput)
    requires input.salaryMonths > 0.0 && input.taxRegime == Nhr
    ensures var r := CalculateTaxes(input);
      && r.irsAnnual == r.taxableIncome * 0.20
      && r.dependentDeduction == 0.0 && r.disabilityDeduction == 0.0 && r.totalDeductions == 0.0
      && r.solidarityTax == 0.0
      && !r.isJointTaxation
      && r.appliedBracket == None
  {
    Composition(input);
    IncomeTaxComposition(input);
    BracketComposition(input);
  }

  /**
   * Standard regime, for any taxable income and credits: the tax before
   * credits is the resolver on the full income, or under joint taxation twice
   * the resolver on half of it (with the half's bracket reported); the tax
   * after credits is floored at zero and never exceeds the tax before credits.
   */
  lemma StandardTax(isJointTaxation: bool, taxableIncome: real, totalDeductions: real)
    requires totalDeductions >= 0.0
    ensures var a := RegimeTax(Standard, isJointTaxation, taxableIncome, totalDeductions);
      var resolved := ProgressiveTax(if isJointTaxation then taxableIncome / 2.0 else taxableIncome);
      var before := if isJointTaxation then 2.0 * resolved.tax else resolved.tax;
      && a.bracket == resolved.bracket
      && a.tax == Max(0.0, before - totalDeductions)
      && 0.0 <= a.tax <= before
      && before - totalDeductions <= a.tax
  {
    TaxNonNegative(TaxBrackets2026(), if isJointTaxation then taxableIncome / 2.0 else taxableIncome);
  }

  /**
   * Credits: 600 per dependent plus 1900 for a disability under the standard
   * regime, none under NHR; the total is their sum.
   */
  lemma CreditRules(taxRegime: TaxRegime, dependents: nat, hasDisability: bool)
    ensures var c := TaxCredits(taxRegime, dependents, hasDisability);
      && c.dependent == (if taxRegime == Standard then 600.0 * dependents as real else 0.0)
      && c.disability == (if taxRegime == Standard && hasDisability then 1900.0 else 0.0)
      && c.total == c.dependent + c.disability
      && c.total >= 0.0
  {
  }

  /**
   * The solidarity tax is charged on the unsplit taxable income, in three
   * tiers, only under the standard regime, and is never negative.
   */
  lemma SolidarityTiers(input: TaxInput)
    requires input.salaryMonths > 0.0
    ensures var r := CalculateTaxes(input);
      var t := r.taxableIncome;
      && r.solidarityTax >= 0.0
      && (input.taxRegime == Nhr || t <= 80000.0 ==> r.solidarityTax == 0.0)
      && (input.taxRegime == Standard && 80000.0 < t <= 250000.0 ==>
            r.solidarityTax == (t - 80000.0) * 0.025)
      && (input.taxRegime == Standard && t > 250000.0 ==>
            r.solidarityTax == 170000.0 * 0.025 + (t - 250000.0) * 0.05)
  {
    Composition(input);
  }

  /** The solidarity tax never falls as taxable income rises. */
  lemma SolidarityMonotone(taxRegime: TaxRegime, t1: real, t2: real)
    requires t1 <= t2
    ensures SolidarityTax(taxRegime, t1) <= SolidarityTax(taxRegime, t2)
  {
  }

  /**
   * The aggregation stage for any positive number of payments: net,
   * contribution and income tax add up to gross; the monthly withholding is
   * the annual tax spread evenly over the payments; net monthly pay times the
   * payments is net annual pay whenever gross and contribution are themselves
   * per-payment figures times the payments; the reported social-security
   * rate is the employee rate.
   */
  lemma AggregateIdentities(
    months: real, gross: Gross, ss: Contribution, taxableIncome: real, credits: Credits,
    incomeTax: Assessment, solidarityTax: real, isJointTaxation: bool, isSelfEmployed: bool)
    requires months > 0.0
    ensures var r := Aggregate(months, gross, ss, taxableIncome, credits, incomeTax, solidarityTax,
                               isJointTaxation, isSelfEmployed);
      && r.irsAnnual == incomeTax.tax + solidarityTax
      && r.netAnnual + r.socialSecurityAnnual + r.irsAnnual == r.grossAnnual
      && r.irsWithholdingMonthly * months == r.irsAnnual
      && r.netMonthly == r.grossMonthly - r.socialSecurityMonthly - r.irsAnnual / months
      && (Spread(gross.annual, gross.monthly, months) && Spread(ss.annual, ss.monthly, months) ==>
            Spread(r.netAnnual, r.netMonthly, months))
      && r.effectiveSSRate == 0.11
  {
    var total := incomeTax.tax + solidarityTax;
    DivMul(total, months);
    Distribute3(gross.monthly, ss.monthly, total / months, months);
  }

  /**
   * The aggregation stage keeps every figure of a result per-payment times
   * the payments, once gross and contribution are.
   */
  lemma AggregatePerPayment(
    months: real, gross: Gross, ss: Contribution, taxableIncome: real, credits: Credits,
    incomeTax: Assessment, solidarityTax: real, isJointTaxation: bool, isSelfEmployed: bool)
    requires months > 0.0
    requires Spread(gross.annual, gross.monthly, months) && Spread(ss.annual, ss.monthly, months)
    ensures PerPayment(Aggregate(months, gross, ss, taxableIncome, credits, incomeTax, solidarityTax,
                               isJointTaxation, isSelfEmployed), months)
  {
    AggregateIdentities(months, gross, ss, taxableIncome, credits, incomeTax, solidarityTax, isJointTaxation, isSelfEmployed);
  }

  /**
   * Conservation: net, contribution and income tax add up to gross, and net
   * monthly pay is gross less contribution less the withholding. Every annual
   * figure is the per-payment one times the payments; in particular the
   * monthly withholding is the annual tax spread evenly over the payments.
   */
  lemma Conservation(input: TaxInput)
    requires input.salaryMonths > 0.0
    ensures var r := CalculateTaxes(input);
      && r.netAnnual + r.socialSecurityAnnual + r.irsAnnual == r.grossAnnual
      && r.netMonthly == r.grossMonthly - r.socialSecurityMonthly - r.irsWithholdingMonthly
      && PerPayment(r, input.salaryMonths)
  {
    var months := input.salaryMonths;
    var gross := NormaliseGross(input.salaryInputType, input.grossSalary, months);
    var ss := SocialSecurity(input.employmentType, gross.annual, gross.monthly, months);
    var t := gross.annual - ss.annual;
    var joint := input.maritalStatus == MarriedOne && input.taxRegime == Standard;
    var credits := TaxCredits(input.taxRegime, input.dependents, input.hasDisability);
    Unfold(input);
    GrossConsistent(input.salaryInputType, input.grossSalary, months);
    ContributionConsistent(input.employmentType, gross, months);
    AggregatePerPayment(months, gross, ss, t, credits, RegimeTax(input.taxRegime, joint, t, credits.total),
                        SolidarityTax(input.taxRegime, t), joint, input.employmentType == SelfEmployed);
  }

  /**
   * The reported social-security rate is always the employee rate, whatever
   * the employment type.
   */
  lemma ReportedSocialSecurityRate(input: TaxInput)
    requires input.salaryMonths > 0.0
    ensures CalculateTaxes(input).effectiveSSRate == 0.11
  {
    Composition(input);
  }

  /**
   * Effective rates of any result are the shares of annual gross taken by
   * income tax and by contribution plus income tax, and 0 without positive gross.
   */
  lemma EffectiveRates(r: TaxResult)
    ensures r.grossAnnual <= 0.0 ==> r.EffectiveIRSRate() == 0.0 && r.EffectiveTotalRate() == 0.0
    ensures r.grossAnnual > 0.0 ==>
      && r.EffectiveIRSRate() * r.grossAnnual == r.irsAnnual
      && r.EffectiveTotalRate() * r.grossAnnual == r.socialSecurityAnnual + r.irsAnnual
  {
  }

  /**
   * For a non-negative salary the income tax (surtax included) is
   * non-negative and takes at most 53% of taxable income (top rate 48% plus
   * top surtax rate 5%).
   */
  lemma IncomeTaxBounds(input: TaxInput)
    requires FormInput(input)
    ensures var r := CalculateTaxes(input);
      0.0 <= r.irsAnnual <= (TopRate + SolidarityTaxRate2) * r.taxableIncome
  {
    var r := CalculateTaxes(input);
    Composition(input);
    IncomeTaxComposition(input);
    TaxableIncomeBounds(input);
    CreditRules(input.taxRegime, input.dependents, input.hasDisability);
    StageTaxBounds(input.taxRegime, r.isJointTaxation, r.taxableIncome, r.totalDeductions);
  }

  /** Regime tax plus solidarity tax, for non-negative income and credits, is between 0 and 53% of the income. */
  lemma StageTaxBounds(taxRegime: TaxRegime, isJointTaxation: bool, taxableIncome: real, totalDeductions: real)
    requires taxableIncome >= 0.0 && totalDeductions >= 0.0
    ensures var tax := RegimeTax(taxRegime, isJointTaxation, taxableIncome, totalDeductions).tax
                       + SolidarityTax(taxRegime, taxableIncome);
      0.0 <= tax <= (TopRate + SolidarityTaxRate2) * taxableIncome
  {
    RegimeTaxBounds(taxRegime, isJointTaxation, taxableIncome, totalDeductions);
    SolidarityBounds(taxRegime, taxableIncome);
  }

  /** For a non-negative salary, net annual pay is never negative. */
  lemma NetAnnualNonNegative(input: TaxInput)
    requires FormInput(input)
    ensures CalculateTaxes(input).netAnnual >= 0.0
  {
    TaxableIncomeBounds(input);
    IncomeTaxBounds(input);
  }

  /** For non-negative income and credits, the regime's tax is between 0 and the top rate of the income. */
  lemma RegimeTaxBounds(taxRegime: TaxRegime, isJointTaxation: bool, taxableIncome: real, totalDeductions: real)
    requires taxableIncome >= 0.0 && totalDeductions >= 0.0
    ensures 0.0 <= RegimeTax(taxRegime, isJointTaxation, taxableIncome, totalDeductions).tax <= TopRate * taxableIncome
  {
    if taxRegime == Standard {
      ProgressiveTaxBounds(if isJointTaxation then taxableIncome / 2.0 else taxableIncome);
      StandardTax(isJointTaxation, taxableIncome, totalDeductions);
    }
  }

  /** For non-negative income the solidarity tax is between 0 and 5% of it. */
  lemma SolidarityBounds(taxRegime: TaxRegime, taxableIncome: real)
    requires taxableIncome >= 0.0
    ensures 0.0 <= SolidarityTax(taxRegime, taxableIncome) <= SolidarityTaxRate2 * taxableIncome
  {
  }

  // Arithmetic helpers for the non-linear steps above.

  lemma DivMul(x: real, y: real)
    requires y != 0.0
    ensures x / y * y == x
  {
  }

  lemma MulAssoc(x: real, y: real, z: real)
    ensures x * y * z == x * z * y
  {
  }

  lemma Distribute3(a: real, b: real, c: real, m: real)
    ensures (a - b - c) * m == a * m - b * m - c * m
  {
  }

  lemma NonNegativeProduct(x: real, y: real)
    requires 0.0 <= x && 0.0 <= y
    ensures 0.0 <= x * y
  {
  }

  lemma NonNegativeQuotient(x: real, y: real)
    requires 0.0 <= x && 0.0 < y
    ensures 0.0 <= x / y
  {
  }
}
