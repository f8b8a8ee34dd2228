/**
 * Schedule SE, self-employment tax for 2024: Social Security on net
 * earnings up to the wage base, Medicare on all of them, and the deduction
 * of half the tax that Schedule 1 carries to the adjustments.
 */
module ScheduleSE {
  import opened TaxTypes
  import opened Money
  import opened FormAgents

  /** The share of the net profit that counts as net earnings (92.35%). */
  const NetEarningsRate: real := 0.9235
  const SocialSecurityRate: real := 0.124
  const MedicareRate: real := 0.029
  const TotalSeRate: real := SocialSecurityRate + MedicareRate
  const SocialSecurityWageBase: real := 168600.0
  /** A net profit of at most this amount owes no self-employment tax. */
  const MinimumProfit: real := 400.0

  /** The largest Social Security portion: 12.4% of the wage base. */
  const MaxSocialSecurityTax: real := 20906.4

  predicate Taxable(netProfit: real) { netProfit > MinimumProfit }

  /** Line 4. */
  function NetEarnings(netProfit: real): real
  {
    netProfit * NetEarningsRate
  }

  /** Lines 5-6: 12.4% of the earnings up to the wage base. */
  function SocialSecurityPortion(netEarnings: real): real
  {
    Min(netEarnings, SocialSecurityWageBase) * SocialSecurityRate
  }

  /** Lines 7-8: 2.9% of all earnings. */
  function MedicarePortion(netEarnings: real): real
  {
    netEarnings * MedicareRate
  }

  /** Line 12 before rounding. */
  function UnroundedSeTax(netEarnings: real): real
  {
    SocialSecurityPortion(netEarnings) + MedicarePortion(netEarnings)
  }

  /** Line 13 before rounding: half the tax. */
  function UnroundedDeduction(netEarnings: real): real
  {
    UnroundedSeTax(netEarnings) / 2.0
  }

  /** What `process` reports for a net profit: nothing under the threshold. */
  function ReportedNetEarnings(netProfit: real): real
  {
    if Taxable(netProfit) then NetEarnings(netProfit) else 0.0
  }

  function ReportedSeTax(netProfit: real): real
  {
    if Taxable(netProfit) then RoundCents(UnroundedSeTax(NetEarnings(netProfit))) else 0.0
  }

  function ReportedDeduction(netProfit: real): real
  {
    if Taxable(netProfit) then RoundCents(UnroundedDeduction(NetEarnings(netProfit))) else 0.0
  }

  const GateLine := "Schedule SE"
  const GateSource := "IRS Instructions: Net earnings < $400"
  const EarningsLine := "Line 4"
  const EarningsSource := "Schedule SE Instructions, Line 4"
  const TaxLine := "Line 12"
  const TaxSource := "Schedule SE Instructions, Line 12"
  const DeductionLine := "Line 13"
  const DeductionSource := "Schedule SE Instructions, Line 13 - Deduction"

  class ScheduleSEAgent {
    const base: FormAgent

    constructor (enableCitations: bool)
      ensures fresh(base)
      ensures base.formName == "schedule-se" && base.enableCitations == enableCitations
      ensures base.citations == [] && base.errors == [] && base.warnings == []
    {
      base := new FormAgent("schedule-se", enableCitations);
    }

    /** What one `process` call appends to the citation log. */
    function ProcessEntries(netProfit: real): seq<Citation>
    {
      if !Taxable(netProfit) then
        base.Entry(GateLine, GateSource, "No self-employment tax due (net earnings below the threshold)")
      else
        base.Entry(EarningsLine, EarningsSource, "Net earnings at 92.35% of net profit")
        + base.Entry(TaxLine, TaxSource, "Social Security plus Medicare")
        + base.Entry(DeductionLine, DeductionSource, "Deduction for half of the tax")
    }

    /**
     * `process`: below the threshold, zeros and an empty citation map (the
     * early return leaves the map at its default although it logged a
     * citation); above it, net earnings unrounded and the tax and deduction
     * rounded to the cent.
     */
    method Process(inputs: ScheduleSEInputs) returns (outputs: ScheduleSEOutputs)
      modifies base
      ensures outputs.netEarnings == ReportedNetEarnings(inputs.netProfitLoss)
      ensures outputs.selfEmploymentTax == ReportedSeTax(inputs.netProfitLoss)
      ensures outputs.deduction == ReportedDeduction(inputs.netProfitLoss)
      ensures base.citations == old(base.citations) + ProcessEntries(inputs.netProfitLoss)
      ensures !Taxable(inputs.netProfitLoss) ==> outputs.citations == map[]
      ensures Taxable(inputs.netProfitLoss) ==> outputs.citations == CitationMap(base.citations)
      ensures base.errors == old(base.errors) && base.warnings == old(base.warnings)
    {
      var netProfit := inputs.netProfitLoss;
      if netProfit <= MinimumProfit {
        outputs := ScheduleSEOutputs(0.0, 0.0, 0.0, map[]);
        base.Cite(GateLine, GateSource, "No self-employment tax due (net earnings below the threshold)");
        return;
      }
      ghost var log := base.citations;
      var netEarnings := netProfit * NetEarningsRate;
      base.Cite(EarningsLine, EarningsSource, "Net earnings at 92.35% of net profit");
      ghost var e := base.Entry(EarningsLine, EarningsSource, "Net earnings at 92.35% of net profit");
      var ssEarnings := Min(netEarnings, SocialSecurityWageBase);
      var ssTax := ssEarnings * SocialSecurityRate;
      var medicareTax := netEarnings * MedicareRate;
      var seTax := ssTax + medicareTax;
      base.Cite(TaxLine, TaxSource, "Social Security plus Medicare");
      LogAppend(log, e, base.Entry(TaxLine, TaxSource, "Social Security plus Medicare"));
      e := e + base.Entry(TaxLine, TaxSource, "Social Security plus Medicare");
      var deduction := seTax / 2.0;
      base.Cite(DeductionLine, DeductionSource, "Deduction for half of the tax");
      LogAppend(log, e, base.Entry(DeductionLine, DeductionSource, "Deduction for half of the tax"));
      e := e + base.Entry(DeductionLine, DeductionSource, "Deduction for half of the tax");
      TaxableAmounts(netProfit, netEarnings, seTax, deduction);
      outputs := ScheduleSEOutputs(netEarnings, RoundCents(seTax), RoundCents(deduction), CitationMap(base.citations));
    }
  }

  /** The amounts `process` computes above the threshold are the reported ones. */
  lemma TaxableAmounts(netProfit: real, netEarnings: real, seTax: real, deduction: real)
    requires Taxable(netProfit)
    requires netEarnings == netProfit * NetEarningsRate
    requires seTax == Min(netEarnings, SocialSecurityWageBase) * SocialSecurityRate + netEarnings * MedicareRate
    requires deduction == seTax / 2.0
    ensures netEarnings == ReportedNetEarnings(netProfit)
    ensures RoundCents(seTax) == ReportedSeTax(netProfit)
    ensures RoundCents(deduction) == ReportedDeduction(netProfit)
  {
  }

  /** Under the wage base the whole tax is 15.3% of net earnings. */
  lemma SeTaxUnderWageBase(netEarnings: real)
    requires netEarnings <= SocialSecurityWageBase
    ensures UnroundedSeTax(netEarnings) == netEarnings * TotalSeRate
  {
  }

  /** Above the wage base Social Security stops at 20906.40 and only Medicare grows. */
  lemma SeTaxOverWageBase(netEarnings: real)
    requires netEarnings >= SocialSecurityWageBase
    ensures SocialSecurityPortion(netEarnings) == MaxSocialSecurityTax
    ensures UnroundedSeTax(netEarnings) == MaxSocialSecurityTax + netEarnings * MedicareRate
  {
  }

  /** The Social Security portion never exceeds the cap, and is not negative for non-negative earnings. */
  lemma SocialSecurityCapped(netEarnings: real)
    ensures SocialSecurityPortion(netEarnings) <= MaxSocialSecurityTax
    ensures netEarnings >= 0.0 ==> SocialSecurityPortion(netEarnings) >= 0.0
  {
    MulMonotone(Min(netEarnings, SocialSecurityWageBase), SocialSecurityWageBase, SocialSecurityRate);
    if netEarnings >= 0.0 {
      MulMonotone(0.0, Min(netEarnings, SocialSecurityWageBase), SocialSecurityRate);
    }
  }

  lemma UnroundedSeTaxMonotone(a: real, b: real)
    requires a <= b
    ensures UnroundedSeTax(a) <= UnroundedSeTax(b)
  {
    MulMonotone(Min(a, SocialSecurityWageBase), Min(b, SocialSecurityWageBase), SocialSecurityRate);
    MulMonotone(a, b, MedicareRate);
  }

  /** Above the threshold the tax before rounding is more than $56: it exceeds 400 × 0.9235 × 0.153 = 56.5182, which is never attained. */
  lemma UnroundedSeTaxAboveThreshold(netProfit: real)
    requires Taxable(netProfit)
    ensures UnroundedSeTax(NetEarnings(netProfit)) > 56.0
  {
    MulMonotone(MinimumProfit, netProfit, NetEarningsRate);
    UnroundedSeTaxMonotone(NetEarnings(MinimumProfit), NetEarnings(netProfit));
  }

  /** At most 400 of profit owes nothing; above it the tax and its deduction are positive. */
  lemma SeTaxZeroIffNotTaxable(netProfit: real)
    ensures ReportedSeTax(netProfit) == 0.0 <==> !Taxable(netProfit)
    ensures ReportedDeduction(netProfit) == 0.0 <==> !Taxable(netProfit)
  {
    if Taxable(netProfit) {
      UnroundedSeTaxAboveThreshold(netProfit);
      RoundCentsPositive(UnroundedSeTax(NetEarnings(netProfit)));
      RoundCentsPositive(UnroundedDeduction(NetEarnings(netProfit)));
    }
  }

  /** More profit never means less self-employment tax or a smaller deduction. */
  lemma SeTaxNonDecreasing(a: real, b: real)
    requires a <= b
    ensures ReportedSeTax(a) <= ReportedSeTax(b)
    ensures ReportedDeduction(a) <= ReportedDeduction(b)
  {
    if Taxable(b) {
      UnroundedSeTaxAboveThreshold(b);
      RoundCentsNonNegative(UnroundedSeTax(NetEarnings(b)));
      RoundCentsNonNegative(UnroundedDeduction(NetEarnings(b)));
      if Taxable(a) {
        MulMonotone(a, b, NetEarningsRate);
        UnroundedSeTaxMonotone(NetEarnings(a), NetEarnings(b));
        RoundCentsMonotone(UnroundedSeTax(NetEarnings(a)), UnroundedSeTax(NetEarnings(b)));
        DivMonotone(UnroundedSeTax(NetEarnings(a)), UnroundedSeTax(NetEarnings(b)), 2.0);
        RoundCentsMonotone(UnroundedDeduction(NetEarnings(a)), UnroundedDeduction(NetEarnings(b)));
      }
    }
  }

  /** The deduction is half the tax to within rounding, and never more than the tax. */
  lemma DeductionIsHalfTax(netProfit: real)
    ensures ReportedDeduction(netProfit) <= ReportedSeTax(netProfit)
    ensures ReportedSeTax(netProfit) / 2.0 - 0.0075 < ReportedDeduction(netProfit) <= ReportedSeTax(netProfit) / 2.0 + 0.0075
  {
    if Taxable(netProfit) {
      UnroundedSeTaxAboveThreshold(netProfit);
    }
  }

  /**
   * A profit of 200000: net earnings of 184700 pass the wage base, so the
   * tax is 20906.40 + 5356.30 = 26262.70 and the deduction 13131.35.
   */
  lemma ScheduleSEExampleOverWageBase(netProfit: real)
    requires netProfit == 200000.0
    ensures ReportedNetEarnings(netProfit) == 184700.0
    ensures ReportedSeTax(netProfit) == 26262.7
    ensures ReportedDeduction(netProfit) == 13131.35
  {
    SeTaxOverWageBase(184700.0);
    assert UnroundedSeTax(184700.0) == 26262.7;
    RoundCentsOfCents(26262.7);
    assert UnroundedDeduction(184700.0) == 13131.35;
    RoundCentsOfCents(13131.35);
  }

  /** 400 of profit is still exempt; one cent more is taxed. */
  lemma ThresholdIsInclusive(atThreshold: real, justOver: real)
    requires atThreshold == 400.0 && justOver == 400.01
    ensures ReportedSeTax(atThreshold) == 0.0
    ensures ReportedSeTax(justOver) > 0.0
  {
    SeTaxZeroIffNotTaxable(justOver);
    SeTaxNonDecreasing(atThreshold, justOver);
  }
}
