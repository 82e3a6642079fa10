/**
 * The progressive income-tax resolver: exempt at or below the minimum
 * subsistence threshold, otherwise the first bracket whose upper bound is at
 * least the income decides the tax, floored at zero.
 */
module ProgressiveResolver {
  import opened Wrappers
  import opened TaxTables

  /** What the resolver reports: the tax and the bracket used (`None` when exempt). */
  datatype Assessment = Assessment(tax: real, bracket: Option<Bracket>)

  /** The bracket's upper bound admits `income`; the top bracket admits every income. */
  predicate Covers(b: Bracket, income: real) {
    match b.max
    case None => true
    case Some(m) => income <= m
  }

  /** Tax by the bracket's own formula, before the floor at zero. */
  function BracketTax(b: Bracket, income: real): real {
    income * b.rate - b.deduction
  }

  /** Index of the first bracket in `bs` that covers `income`, if any (see `FirstCoveringSpec`). */
  function FirstCovering(bs: seq<Bracket>, income: real): (r: Option<nat>)
    ensures r.Some? ==> r.value < |bs|
  {
    if |bs| == 0 then None
    else if Covers(bs[0], income) then Some(0)
    else
      match FirstCovering(bs[1..], income)
      case Some(k) => Some(k + 1)
      case None => None
  }

  /**
   * `FirstCovering` finds the first covering bracket: the index it returns
   * covers and no earlier one does, and it returns nothing only when no
   * bracket covers.
   */
  lemma {:induction false} FirstCoveringSpec(bs: seq<Bracket>, income: real)
    ensures var r := FirstCovering(bs, income);
      && (r.Some? ==> Covers(bs[r.value], income) && forall j :: 0 <= j < r.value ==> !Covers(bs[j], income))
      && (r.None? ==> forall j :: 0 <= j < |bs| ==> !Covers(bs[j], income))
  {
    if |bs| > 0 && !Covers(bs[0], income) {
      FirstCoveringSpec(bs[1..], income);
      assert forall j :: 1 <= j < |bs| ==> bs[j] == bs[1..][j - 1];
    }
  }

  /**
   * Specification of the resolver over a bracket table `bs`: exempt at or
   * below the threshold, else the first covering bracket, else the last one.
   */
  function Resolve(bs: seq<Bracket>, taxableIncome: real): Assessment
    requires |bs| > 0
  {
    if taxableIncome <= MinimumSubsistence then Assessment(0.0, None)
    else
      var k := match FirstCovering(bs, taxableIncome)
               case Some(i) => i
               case None => |bs| - 1;
      Assessment(Max(0.0, BracketTax(bs[k], taxableIncome)), Some(bs[k]))
  }

  /** The resolver on the 2026 table, as the tax engine uses it. */
  function ProgressiveTax(taxableIncome: real): Assessment {
    Resolve(TaxBrackets2026(), taxableIncome)
  }

  /**
   * The resolver as the calculator runs it: a scan over the table that stops
   * at the first match, with a fallback to the last bracket. The table is a
   * parameter so that the fallback is a reachable path.
   */
  method CalculateProgressiveTax(brackets: seq<Bracket>, taxableIncome: real) returns (a: Assessment)
    requires |brackets| > 0
    ensures a == Resolve(brackets, taxableIncome)
  {
    if taxableIncome <= MinimumSubsistence {
      return Assessment(0.0, None);
    }
    var appliedBracket: Option<Bracket> := None;
    var i := 0;
    while i < |brackets|
      invariant 0 <= i <= |brackets|
      invariant appliedBracket == None
      invariant forall j :: 0 <= j < i ==> !Covers(brackets[j], taxableIncome)
    {
      if Covers(brackets[i], taxableIncome) {
        appliedBracket := Some(brackets[i]);
        break;
      }
      i := i + 1;
    }
    FirstCoveringSpec(brackets, taxableIncome);
    if appliedBracket == None {
      appliedBracket := Some(brackets[|brackets| - 1]);
    }
    var b := appliedBracket.value;
    a := Assessment(Max(0.0, taxableIncome * b.rate - b.deduction), appliedBracket);
  }

  /** At or below the threshold there is no tax and no bracket; above it there is always a bracket. */
  lemma ExemptionIff(bs: seq<Bracket>, taxableIncome: real)
    requires |bs| > 0
    ensures Resolve(bs, taxableIncome).bracket == None <==> taxableIncome <= MinimumSubsistence
    ensures taxableIncome <= MinimumSubsistence ==> Resolve(bs, taxableIncome).tax == 0.0
  {
  }

  /** On a well-formed table the unbounded last bracket always covers, so the scan always matches. */
  lemma {:induction false} ScanMatches(bs: seq<Bracket>, taxableIncome: real)
    requires WellFormed(bs)
    ensures FirstCovering(bs, taxableIncome).Some?
  {
    FirstCoveringSpec(bs, taxableIncome);
    assert Covers(bs[|bs| - 1], taxableIncome);
  }

  /**
   * Above the threshold the resolver reports the first bracket whose upper
   * bound is at least the income: that bracket covers it, no earlier one does,
   * and the tax is that bracket's formula floored at zero.
   */
  lemma FirstFit(bs: seq<Bracket>, taxableIncome: real)
    requires WellFormed(bs)
    requires taxableIncome > MinimumSubsistence
    ensures exists k :: 0 <= k < |bs|
                        && Resolve(bs, taxableIncome).bracket == Some(bs[k])
                        && Covers(bs[k], taxableIncome)
                        && (forall j :: 0 <= j < k ==> !Covers(bs[j], taxableIncome))
                        && Resolve(bs, taxableIncome).tax == Max(0.0, taxableIncome * bs[k].rate - bs[k].deduction)
  {
    ScanMatches(bs, taxableIncome);
    FirstCoveringSpec(bs, taxableIncome);
    var k := FirstCovering(bs, taxableIncome).value;
    assert Resolve(bs, taxableIncome).bracket == Some(bs[k]);
  }

  /**
   * Above the threshold the reported bracket really contains the income
   * (`min < income`, and `income <= max` when bounded), and the floor at zero
   * never applies: the tax is the bracket's formula and is positive.
   */
  lemma InBracket(bs: seq<Bracket>, taxableIncome: real)
    requires WellFormed(bs)
    requires taxableIncome > MinimumSubsistence
    ensures Resolve(bs, taxableIncome).bracket.Some?
    ensures var b := Resolve(bs, taxableIncome).bracket.value;
      && b.min < taxableIncome
      && Covers(b, taxableIncome)
      && Resolve(bs, taxableIncome).tax == BracketTax(b, taxableIncome) > 0.0
  {
    ScanMatches(bs, taxableIncome);
    FirstCoveringSpec(bs, taxableIncome);
    var k := FirstCovering(bs, taxableIncome).value;
    var b := bs[k];
    if k > 0 {
      assert !Covers(bs[k - 1], taxableIncome);
      assert bs[k - 1].max == Some(b.min);
    }
    assert 0.0 < b.rate && b.deduction <= b.min * b.rate;
    FormulaPositive(b, taxableIncome);
  }

  /** Inside a bracket whose deduction is covered at its lower bound, the formula is positive. */
  lemma FormulaPositive(b: Bracket, income: real)
    requires 0.0 < b.rate && b.deduction <= b.min * b.rate && b.min < income
    ensures BracketTax(b, income) > 0.0
  {
    MulStrictlyIncreasing(b.min, income, b.rate);
  }

  /** The resolver never reports a negative tax. */
  lemma TaxNonNegative(bs: seq<Bracket>, taxableIncome: real)
    requires |bs| > 0
    ensures Resolve(bs, taxableIncome).tax >= 0.0
  {
  }

  /** For non-negative income the tax lies between zero and the top rate applied to the whole income. */
  lemma TaxBounds(bs: seq<Bracket>, taxableIncome: real)
    requires WellFormed(bs)
    requires taxableIncome >= 0.0
    ensures 0.0 <= Resolve(bs, taxableIncome).tax <= TopRate * taxableIncome
  {
    if taxableIncome > MinimumSubsistence {
      InBracket(bs, taxableIncome);
      var b := Resolve(bs, taxableIncome).bracket.value;
      assert b in bs;
      assert b.rate <= TopRate && 0.0 <= b.deduction;
      FormulaBelowTopRate(b, taxableIncome);
    }
  }

  /** The same bounds for the 2026 table the engine uses. */
  lemma ProgressiveTaxBounds(taxableIncome: real)
    requires taxableIncome >= 0.0
    ensures 0.0 <= ProgressiveTax(taxableIncome).tax <= TopRate * taxableIncome
  {
    TableWellFormed();
    TaxBounds(TaxBrackets2026(), taxableIncome);
  }

  lemma FormulaBelowTopRate(b: Bracket, income: real)
    requires b.rate <= TopRate && 0.0 <= b.deduction && 0.0 <= income
    ensures BracketTax(b, income) <= TopRate * income
  {
    MulMonotone(b.rate, TopRate, income);
  }

  /**
   * The deduction constants make the tax continuous across each bracket
   * boundary only up to rounding: at every boundary the two adjoining
   * brackets' formulas differ by at most 30 cents.
   */
  lemma BoundaryGap(k: nat)
    requires k < |TaxBrackets2026()| - 1
    ensures var bs := TaxBrackets2026();
      var edge := bs[k + 1].min;
      -0.30 <= BracketTax(bs[k], edge) - BracketTax(bs[k + 1], edge) <= 0.30
  {
  }

  lemma MulStrictlyIncreasing(x: real, y: real, r: real)
    requires x < y && 0.0 < r
    ensures x * r < y * r
  {
  }

  lemma MulMonotone(r: real, s: real, x: real)
    requires r <= s && 0.0 <= x
    ensures r * x <= s * x
  {
  }
}
