/**
 * Worked examples of the engine on concrete inputs, with the exact figures it
 * computes for them.
 */
module TaxScenarios {
  import opened Wrappers
  import opened TaxTables
  import opened ProgressiveResolver
  import opened TaxEngine
  import opened TaxProperties

  /**
   * 2500 a month over 14 payments, employee, standard regime, single: 35000
   * gross, 3850 contribution, 31150 taxable in the 34.9% bracket, 6661.41 tax
   * and 24488.59 net a year.
   */
  lemma MonthlyEmployee()
    ensures var r := CalculateTaxes(TaxInput(2500.0, Monthly, 14.0, Employee, Standard, Single, 0, false));
      && r.grossAnnual == 35000.0
      && r.socialSecurityAnnual == 3850.0
      && r.taxableIncome == 31150.0
      && r.appliedBracket == Some(TaxBrackets2026()[5])
      && r.solidarityTax == 0.0
      && r.irsAnnual == 6661.41
      && r.netAnnual == 24488.59
  {
    var input := TaxInput(2500.0, Monthly, 14.0, Employee, Standard, Single, 0, false);
    var bs := TaxBrackets2026();
    assert bs[5] == Bracket(29397.0, Some(43090.0), 0.349, 4209.94);
    FirstCoveringSpec(bs, 31150.0);
    assert FirstCovering(bs, 31150.0) == Some(5);
    assert ProgressiveTax(31150.0) == Assessment(6661.41, Some(bs[5]));
    Composition(input);
    IncomeTaxComposition(input);
    BracketComposition(input);
  }

  /**
   * 100000 a year under the NHR regime, whatever the marital status: 11000
   * contribution, 89000 taxable, 17800 tax, 71200 net, no bracket.
   */
  lemma FlatRegime(maritalStatus: MaritalStatus)
    ensures var r := CalculateTaxes(TaxInput(100000.0, Annual, 14.0, Employee, Nhr, maritalStatus, 0, false));
      && r.socialSecurityAnnual == 11000.0
      && r.taxableIncome == 89000.0
      && r.irsAnnual == 17800.0
      && r.netAnnual == 71200.0
      && r.appliedBracket == None
  {
  }

  /**
   * Self-employed at 7000 a month: the 6445.56 ceiling is exceeded, the
   * monthly contribution is 6445.56 × 21.4%, and the capped flag is set. The
   * reported social-security rate is still the employee rate, although the
   * contribution is not 11% of gross.
   */
  lemma CappedSelfEmployed()
    ensures var r := CalculateTaxes(TaxInput(7000.0, Monthly, 14.0, SelfEmployed, Standard, Single, 0, false));
      && r.ssContributionCapped
      && r.socialSecurityMonthly == 1379.34984
      && r.socialSecurityAnnual == 19310.89776
      && r.effectiveSSRate == 0.11
      && r.socialSecurityAnnual != r.effectiveSSRate * r.grossAnnual
  {
    var input := TaxInput(7000.0, Monthly, 14.0, SelfEmployed, Standard, Single, 0, false);
    assert MonthlyContributionCap == 6445.56;
    assert Min(7000.0, MonthlyContributionCap) == 6445.56;
  }
}
