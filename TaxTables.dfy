/**
 * The fixed 2026 configuration of the Portuguese net-salary calculator:
 * the nine income-tax (IRS) brackets, social-security rates, the flat rate of
 * the non-habitual-resident (NHR) regime, the solidarity-surtax tiers, the
 * minimum-subsistence exemption, the reference index (IAS) and the credits.
 * Money amounts are exact reals; the calculator's binary floating point is not modelled.
 */
module TaxTables {
  import opened Wrappers

  /**
   * One income-tax bracket. `max` is the inclusive upper bound of the bracket;
   * `None` marks the open-ended top bracket (`Infinity` in the calculator).
   * Tax in the bracket is `income * rate - deduction`.
   */
  datatype Bracket = Bracket(min: real, max: Option<real>, rate: real, deduction: real)

  const SocialSecurityRateEmployee: real := 0.11
  /** Declared by the calculator but never used in the computation. */
  const SocialSecurityRateEmployer: real := 0.2375
  const SocialSecurityRateSelfEmployed: real := 0.214
  /** Declared by the calculator but never used in the computation. */
  const SocialSecurityRateSelfEmployedExtended: real := 0.252
  const SelfEmployedMonthlyCapIasMultiplier: real := 12.0
  const NhrFlatRate: real := 0.20
  const SolidarityTaxThreshold1: real := 80000.0
  const SolidarityTaxRate1: real := 0.025
  const SolidarityTaxThreshold2: real := 250000.0
  const SolidarityTaxRate2: real := 0.05
  /** Mínimo de Existência: taxable income at or below it pays no progressive tax. */
  const MinimumSubsistence: real := 12880.0
  const Ias2026: real := 537.13
  const DependentDeduction: real := 600.0
  /** Declared by the calculator but never used: the model has no notion of a dependent's age. */
  const DependentDeductionUnder3: real := 726.0
  const DisabilityDeduction: real := 1900.0

  /** The highest marginal rate of the table. */
  const TopRate: real := 0.48

  function Max(a: real, b: real): real { if a >= b then a else b }
  function Min(a: real, b: real): real { if a <= b then a else b }

  /**
   * The table is ordered and contiguous: it starts at zero, each bracket ends
   * where the next one starts, only the last one is unbounded, the rates rise
   * and stay within (0, TopRate], and each deduction is non-negative and never
   * exceeds the bracket's tax at its own lower bound.
   */
  predicate WellFormed(bs: seq<Bracket>) {
    && |bs| > 0
    && bs[0].min == 0.0
    && bs[|bs| - 1].max == None
    && (forall k :: 0 <= k < |bs| - 1 ==>
          bs[k].max == Some(bs[k + 1].min) && bs[k].min < bs[k + 1].min && bs[k].rate < bs[k + 1].rate)
    && (forall k :: 0 <= k < |bs| ==>
          0.0 < bs[k].rate <= TopRate && 0.0 <= bs[k].deduction <= bs[k].min * bs[k].rate)
  }

  /** The 2026 income-tax brackets on annual taxable income. */
  function TaxBrackets2026(): (bs: seq<Bracket>)
    ensures |bs| == 9
  {
    [ Bracket(0.0,     Some(8342.0),  0.125, 0.0),
      Bracket(8342.0,  Some(12587.0), 0.157, 266.94),
      Bracket(12587.0, Some(17838.0), 0.212, 959.26),
      Bracket(17838.0, Some(23089.0), 0.241, 1476.45),
      Bracket(23089.0, Some(29397.0), 0.311, 3092.77),
      Bracket(29397.0, Some(43090.0), 0.349, 4209.94),
      Bracket(43090.0, Some(46566.0), 0.431, 7743.27),
      Bracket(46566.0, Some(86634.0), 0.446, 8441.48),
      Bracket(86634.0, None,          0.48,  11387.17) ]
  }

  /** The 2026 table starts at zero, ends unbounded, is contiguous, and its rates rise from 12.5% to 48%. */
  lemma TableWellFormed()
    ensures WellFormed(TaxBrackets2026())
    ensures TaxBrackets2026()[0].rate == 0.125 && TaxBrackets2026()[8].rate == TopRate
  {
    TableContiguous();
    TableRates();
  }

  lemma TableContiguous()
    ensures var bs := TaxBrackets2026();
      forall k :: 0 <= k < |bs| - 1 ==>
        bs[k].max == Some(bs[k + 1].min) && bs[k].min < bs[k + 1].min && bs[k].rate < bs[k + 1].rate
  {
  }

  lemma TableRates()
    ensures var bs := TaxBrackets2026();
      forall k :: 0 <= k < |bs| ==>
        0.0 < bs[k].rate <= TopRate && 0.0 <= bs[k].deduction <= bs[k].min * bs[k].rate
  {
  }
}
