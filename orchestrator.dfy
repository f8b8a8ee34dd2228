/**
 * The orchestrator: it maps the filing-status text, decides which schedules
 * run, accumulates the Schedule 1 amounts, runs Form 1040, patches the lines
 * the Form 1040 agent cannot fill (self-employment tax, withholding and the
 * settlement), and hands the record to the arithmetic verifier.
 */
module Orchestrator {
  import opened TaxTypes
  import opened Money
  import opened StatusText
  import opened FormAgents
  import Adjustments
  import ScheduleB
  import ScheduleC
  import ScheduleSE
  import Form1040
  import ArithmeticVerification

  // ------------------------------------------------------------ filing status

  /** The status assumed when the input gives none. */
  const DefaultStatusText := "single"

  /**
   * The status mapping of `_parse_inputs`: the text (or "single" when there
   * is none) is lower-cased and looked up; anything not found is SINGLE.
   * Unlike the table lookups, spaces are not turned into underscores.
   */
  function MapFilingStatus(text: Option<string>): FilingStatus
  {
    var key := Lower(if text.Some? then text.value else DefaultStatusText);
    match StatusFromKey(key)
    case Some(st) => st
    case None => Single
  }

  /** Text maps to a status exactly when it is that status's value up to case, or when it is no value at all and the status is SINGLE. */
  lemma MapFilingStatusIff(text: string, st: FilingStatus)
    ensures MapFilingStatus(Some(text)) == st
            <==> Lower(text) == st.Value() || (StatusFromKey(Lower(text)).None? && st == Single)
  {
    StatusFromKeyComplete(st);
  }

  /** A missing status is SINGLE. */
  lemma MissingStatusIsSingle(text: Option<string>)
    requires text.None?
    ensures MapFilingStatus(text) == Single
  {
    var s := DefaultStatusText;
    forall i | 0 <= i < |s| ensures Lower(s)[i] == s[i] {
      assert AsciiLower(s[i]) == s[i];
    }
    assert Lower(s) == s;
  }

  /** A status spelled with spaces is not found, so "Married Filing Jointly" files as SINGLE. */
  lemma SpelledOutStatusIsSingle(text: string)
    requires text == "Married Filing Jointly"
    ensures MapFilingStatus(Some(text)) == Single
  {
    var key := Lower(text);
    assert key[7] == AsciiLower(text[7]) == ' ';
    assert key != MarriedFilingJointly.Value() by {
      assert MarriedFilingJointly.Value()[7] == '_';
    }
  }

  // ------------------------------------------------------------------ inputs

  /**
   * The parsed return together with the educator and student-loan amounts,
   * which the orchestrator reads although neither the inputs record nor the
   * taxpayer record declares them.
   */
  datatype ReturnInputs = ReturnInputs(
    tax: TaxInputs,
    educatorExpensesPaid: real,
    isEligibleEducator: bool,
    spouseEducatorExpensesPaid: real,
    spouseEligibleEducator: bool,
    studentLoanInterestPaid: real)

  function WagesOf(w: W2): real { w.wages }
  function WithholdingOf(w: W2): real { w.federalWithholding }

  // ------------------------------------------- what each stage hands forward

  /** Schedule B runs when there is any interest or dividend record. */
  predicate RunsScheduleB(t: TaxInputs)
  {
    t.income1099Int != [] || t.income1099Div != []
  }

  /** Line 2b: Schedule B's interest, or 0 when it did not run. */
  function Interest(t: TaxInputs): real
  {
    if RunsScheduleB(t) then ScheduleB.TotalInterest(t.income1099Int) else 0.0
  }

  /** Line 3b: Schedule B's dividends, or 0 when it did not run. */
  function Dividends(t: TaxInputs): real
  {
    if RunsScheduleB(t) then ScheduleB.TotalOrdinaryDividends(t.income1099Div) else 0.0
  }

  /** Schedule C's line 31, or 0 when there is no business. */
  function NetBusiness(t: TaxInputs): real
  {
    match t.businessIncome
    case None => 0.0
    case Some(b) => ScheduleC.NetProfitLoss(b)
  }

  /** Schedule SE runs only for a business with a profit. */
  predicate RunsScheduleSE(t: TaxInputs)
  {
    t.businessIncome.Some? && NetBusiness(t) > 0.0
  }

  function SeTax(t: TaxInputs): real
  {
    if RunsScheduleSE(t) then ScheduleSE.ReportedSeTax(NetBusiness(t)) else 0.0
  }

  function SeDeduction(t: TaxInputs): real
  {
    if RunsScheduleSE(t) then ScheduleSE.ReportedDeduction(NetBusiness(t)) else 0.0
  }

  /** An amount added to a running total only when it is positive. */
  function PositivePart(x: real): real
  {
    if x > 0.0 then x else 0.0
  }

  /** Schedule 1 additional income: the business result, with any excess business loss added back. */
  function AdditionalIncome(netBusiness: real, st: FilingStatus): real
  {
    if netBusiness < 0.0 then netBusiness + PositivePart(Adjustments.ExcessBusinessLoss(-netBusiness, st))
    else netBusiness
  }

  function EducatorDeduction(r: ReturnInputs): real
  {
    Adjustments.EducatorExpense(r.educatorExpensesPaid, r.isEligibleEducator,
                                r.spouseEducatorExpensesPaid, r.spouseEligibleEducator, r.tax.filingStatus)
  }

  /** The adjustments known before the student-loan interest: half the SE tax and the educator expenses. */
  function AdjustmentsBeforeStudentLoan(r: ReturnInputs): real
  {
    SeDeduction(r.tax) + PositivePart(EducatorDeduction(r))
  }

  /** The income before any adjustment: wages, interest, dividends and additional income. */
  function TotalIncome(r: ReturnInputs): real
  {
    var t := r.tax;
    SumBy(t.w2, WagesOf) + Interest(t) + Dividends(t) + AdditionalIncome(NetBusiness(t), t.filingStatus)
  }

  /** The modified AGI of the student-loan phase-out, taken before that deduction exists. */
  function StudentLoanMagi(r: ReturnInputs): real
  {
    TotalIncome(r) - AdjustmentsBeforeStudentLoan(r)
  }

  function StudentLoanDeduction(r: ReturnInputs): real
  {
    Adjustments.StudentLoanInterest(r.studentLoanInterestPaid, StudentLoanMagi(r), r.tax.filingStatus)
  }

  /** Schedule 1 adjustments: the three deductions, each added only when positive. */
  function TotalAdjustments(r: ReturnInputs): real
  {
    AdjustmentsBeforeStudentLoan(r) + PositivePart(StudentLoanDeduction(r))
  }

  /** The inputs the orchestrator hands to the Form 1040 agent. */
  function Form1040InputsOf(r: ReturnInputs): Form1040Inputs
  {
    var t := r.tax;
    Form1040Inputs(t.filingStatus, t.taxpayer, t.dependents, SumBy(t.w2, WagesOf), Interest(t), Dividends(t),
                   AdditionalIncome(NetBusiness(t), t.filingStatus), TotalAdjustments(r))
  }

  /**
   * The corrections made to the agent's record: a positive SE tax goes on
   * line 23 and line 24 is recomputed; the withholding goes on lines 25a and
   * 33; and the refund or amount owed is settled again.
   */
  function PatchLines(o: Form1040Outputs, seTax: real, withholding: real): Form1040Outputs
  {
    var taxed := if seTax > 0.0 then o.(line23 := seTax, line24 := o.line16 - o.line19 + seTax) else o;
    Form1040.Settle(taxed.(line25a := withholding, line33 := withholding))
  }

  /** The lines of the record `process_tax_return` returns. */
  function ReturnedLines(r: ReturnInputs): Form1040Outputs
  {
    PatchLines(Form1040.ComputeLines(Form1040InputsOf(r)), SeTax(r.tax), SumBy(r.tax.w2, WithholdingOf))
  }

  // ------------------------------------------- the adjustments as called

  /*
   * `process_tax_return` hands the three adjustment functions the enum
   * member, so as the source stands each of them tests for a joint return by
   * the comparison that no member passes. The functions below follow those
   * calls; the processor itself, and the functions above, use the intended
   * joint rule. Off married filing jointly the two agree.
   */

  /** Schedule 1 additional income as the source computes it, with the as-written add-back. */
  function AdditionalIncomeAsCalled(netBusiness: real, st: FilingStatus): real
  {
    if netBusiness < 0.0 then
      netBusiness + PositivePart(Adjustments.ExcessBusinessLossAsWritten(-netBusiness, Adjustments.Member(st)))
    else netBusiness
  }

  function EducatorDeductionAsCalled(r: ReturnInputs): real
  {
    Adjustments.EducatorExpenseAsWritten(r.educatorExpensesPaid, r.isEligibleEducator, r.spouseEducatorExpensesPaid,
                                         r.spouseEligibleEducator, Adjustments.Member(r.tax.filingStatus))
  }

  function AdjustmentsBeforeStudentLoanAsCalled(r: ReturnInputs): real
  {
    SeDeduction(r.tax) + PositivePart(EducatorDeductionAsCalled(r))
  }

  function TotalIncomeAsCalled(r: ReturnInputs): real
  {
    var t := r.tax;
    SumBy(t.w2, WagesOf) + Interest(t) + Dividends(t) + AdditionalIncomeAsCalled(NetBusiness(t), t.filingStatus)
  }

  function StudentLoanDeductionAsCalled(r: ReturnInputs): real
  {
    Adjustments.StudentLoanInterestAsWritten(r.studentLoanInterestPaid,
                                             TotalIncomeAsCalled(r) - AdjustmentsBeforeStudentLoanAsCalled(r),
                                             Adjustments.Member(r.tax.filingStatus))
  }

  function TotalAdjustmentsAsCalled(r: ReturnInputs): real
  {
    AdjustmentsBeforeStudentLoanAsCalled(r) + PositivePart(StudentLoanDeductionAsCalled(r))
  }

  /** The inputs the source hands to the Form 1040 agent. */
  function Form1040InputsAsCalled(r: ReturnInputs): Form1040Inputs
  {
    var t := r.tax;
    Form1040Inputs(t.filingStatus, t.taxpayer, t.dependents, SumBy(t.w2, WagesOf), Interest(t), Dividends(t),
                   AdditionalIncomeAsCalled(NetBusiness(t), t.filingStatus), TotalAdjustmentsAsCalled(r))
  }

  /** The lines of the record the source's `process_tax_return` returns. */
  function ReturnedLinesAsCalled(r: ReturnInputs): Form1040Outputs
  {
    PatchLines(Form1040.ComputeLines(Form1040InputsAsCalled(r)), SeTax(r.tax), SumBy(r.tax.w2, WithholdingOf))
  }

  /** The same return, with its status replaced by one that is not joint. */
  function AsSingle(r: ReturnInputs): ReturnInputs
  {
    r.(tax := r.tax.(filingStatus := Single))
  }

  /**
   * As called, the Schedule 1 amounts of every return are those the intended
   * rule gives a single filer with the same figures: the joint rule never
   * applies. Every other input to Form 1040 is the intended one.
   */
  lemma AsCalledNeverJoint(r: ReturnInputs)
    ensures AdditionalIncomeAsCalled(NetBusiness(r.tax), r.tax.filingStatus) == AdditionalIncome(NetBusiness(r.tax), Single)
    ensures TotalAdjustmentsAsCalled(r) == TotalAdjustments(AsSingle(r))
    ensures Form1040InputsAsCalled(r)
         == Form1040InputsOf(r).(schedule1AdditionalIncome := AdditionalIncome(NetBusiness(r.tax), Single),
                                 schedule1Adjustments := TotalAdjustments(AsSingle(r)))
  {
    var s := AsSingle(r);
    assert NetBusiness(s.tax) == NetBusiness(r.tax) && SeDeduction(s.tax) == SeDeduction(r.tax);
    assert Interest(s.tax) == Interest(r.tax) && Dividends(s.tax) == Dividends(r.tax);
    assert EducatorDeductionAsCalled(r) == EducatorDeduction(s);
    assert TotalIncomeAsCalled(r) == TotalIncome(s);
    assert StudentLoanDeductionAsCalled(r) == StudentLoanDeduction(s);
  }

  /** For every status but married filing jointly, the return as called is the intended one. */
  lemma AsCalledAgreesOffJoint(r: ReturnInputs)
    ensures r.tax.filingStatus != MarriedFilingJointly ==>
      Form1040InputsAsCalled(r) == Form1040InputsOf(r) && ReturnedLinesAsCalled(r) == ReturnedLines(r)
  {
    var st := r.tax.filingStatus;
    if st != MarriedFilingJointly {
      Adjustments.AsWrittenAgreesOffJoint(st, r.educatorExpensesPaid, r.isEligibleEducator,
                                          r.spouseEducatorExpensesPaid, r.spouseEligibleEducator,
                                          r.studentLoanInterestPaid, StudentLoanMagi(r), -NetBusiness(r.tax));
      assert AdditionalIncomeAsCalled(NetBusiness(r.tax), st) == AdditionalIncome(NetBusiness(r.tax), st);
      assert EducatorDeductionAsCalled(r) == EducatorDeduction(r);
      assert TotalIncomeAsCalled(r) == TotalIncome(r);
      assert AdjustmentsBeforeStudentLoanAsCalled(r) == AdjustmentsBeforeStudentLoan(r);
      assert StudentLoanDeductionAsCalled(r) == StudentLoanDeduction(r);
      assert TotalAdjustmentsAsCalled(r) == TotalAdjustments(r);
      assert Form1040InputsAsCalled(r) == Form1040InputsOf(r);
    }
  }

  /** A joint return with a 400,000 business loss: the source puts -305,000 on line 8, the intended rule -400,000. */
  lemma AsCalledJointLossDiverges(netBusiness: real)
    requires netBusiness == -400000.0
    ensures AdditionalIncomeAsCalled(netBusiness, MarriedFilingJointly) == -305000.0
    ensures AdditionalIncome(netBusiness, MarriedFilingJointly) == -400000.0
  {
    Adjustments.ExcessBusinessLossJointAsWrittenCounterexample();
  }

  /** The source's record passes every check of the arithmetic verifier too. */
  lemma ReturnedLinesAsCalledPass(r: ReturnInputs, citations: map<string, string>)
    ensures ArithmeticVerification.ChecksHold(ReturnedLinesAsCalled(r).(citations := citations))
  {
    AgentRecordRelations(Form1040InputsAsCalled(r));
    PatchPasses(Form1040.ComputeLines(Form1040InputsAsCalled(r)), SeTax(r.tax), SumBy(r.tax.w2, WithholdingOf),
                citations);
  }

  // ------------------------------------------------------------ the processor

  /** The outputs of the four units, as `self.results` keeps them. */
  datatype ProcessResults = ProcessResults(
    scheduleB: Option<ScheduleBOutputs>,
    scheduleC: Option<ScheduleCOutputs>,
    scheduleSE: Option<ScheduleSEOutputs>,
    form1040: Form1040Outputs)

  class TaxReturnProcessor {
    const form1040: Form1040.Form1040Agent
    const scheduleB: ScheduleB.ScheduleBAgent
    const scheduleC: ScheduleC.ScheduleCAgent
    const scheduleSE: ScheduleSE.ScheduleSEAgent
    /** `None` until a return has been processed. */
    var results: Option<ProcessResults>

    /** The four agents keep four separate logs. */
    ghost predicate Valid()
    {
      form1040.base != scheduleB.base && form1040.base != scheduleC.base && form1040.base != scheduleSE.base
      && scheduleB.base != scheduleC.base && scheduleB.base != scheduleSE.base && scheduleC.base != scheduleSE.base
    }

    /**
     * What Schedules B, C and SE hand back for a return: each is present
     * exactly when it runs, with its totals and the line-to-source map of its
     * agent's log.
     */
    ghost predicate ScheduleOutputsOf(t: TaxInputs, b: Option<ScheduleBOutputs>, c: Option<ScheduleCOutputs>,
                                      se: Option<ScheduleSEOutputs>)
      reads scheduleB.base, scheduleC.base, scheduleSE.base
    {
      && (b.Some? <==> RunsScheduleB(t))
      && (b.Some? ==> b.value == ScheduleBOutputs(Interest(t), Dividends(t), CitationMap(scheduleB.base.citations)))
      && (c.Some? <==> t.businessIncome.Some?)
      && (c.Some? ==> c.value == ScheduleCOutputs(ScheduleC.GrossIncome(t.businessIncome.value),
                                                  ScheduleC.TotalExpenses(t.businessIncome.value), NetBusiness(t),
                                                  CitationMap(scheduleC.base.citations)))
      && (se.Some? <==> RunsScheduleSE(t))
      && (se.Some? ==> se.value == ScheduleSEOutputs(ScheduleSE.ReportedNetEarnings(NetBusiness(t)), SeTax(t),
                                                     SeDeduction(t), SeCitations(t)))
    }

    /** Schedule SE's published map: its log's, or empty when the profit is under the gate. */
    ghost function SeCitations(t: TaxInputs): map<string, string>
      reads scheduleSE.base
    {
      if ScheduleSE.Taxable(NetBusiness(t)) then CitationMap(scheduleSE.base.citations) else map[]
    }

    /** Each agent is created with citations enabled; no results yet. */
    constructor ()
      ensures Valid() && results.None?
      ensures fresh(form1040) && fresh(scheduleB) && fresh(scheduleC) && fresh(scheduleSE)
      ensures fresh(form1040.base) && fresh(scheduleB.base) && fresh(scheduleC.base) && fresh(scheduleSE.base)
      ensures form1040.base.enableCitations && scheduleB.base.enableCitations
      ensures scheduleC.base.enableCitations && scheduleSE.base.enableCitations
      ensures form1040.base.citations == [] && scheduleB.base.citations == []
      ensures scheduleC.base.citations == [] && scheduleSE.base.citations == []
      ensures form1040.base.errors == [] && scheduleB.base.errors == []
      ensures scheduleC.base.errors == [] && scheduleSE.base.errors == []
      ensures form1040.base.warnings == [] && scheduleB.base.warnings == []
      ensures scheduleC.base.warnings == [] && scheduleSE.base.warnings == []
    {
      form1040 := new Form1040.Form1040Agent(true);
      scheduleB := new ScheduleB.ScheduleBAgent(true);
      scheduleC := new ScheduleC.ScheduleCAgent(true);
      scheduleSE := new ScheduleSE.ScheduleSEAgent(true);
      results := None;
    }

    /** Step 1: Schedule B when there is an interest or dividend record. */
    method RunScheduleB(t: TaxInputs) returns (b: Option<ScheduleBOutputs>)
      modifies scheduleB.base
      ensures b.Some? <==> RunsScheduleB(t)
      ensures b.Some? ==> b.value == ScheduleBOutputs(Interest(t), Dividends(t), CitationMap(scheduleB.base.citations))
      ensures scheduleB.base.citations == old(scheduleB.base.citations)
              + (if RunsScheduleB(t) then scheduleB.ProcessEntries(ScheduleBInputs(t.income1099Int, t.income1099Div)) else [])
      ensures scheduleB.base.errors == old(scheduleB.base.errors) && scheduleB.base.warnings == old(scheduleB.base.warnings)
    {
      b := None;
      if t.income1099Int != [] || t.income1099Div != [] {
        var outputs := scheduleB.Process(ScheduleBInputs(t.income1099Int, t.income1099Div));
        b := Some(outputs);
      }
    }

    /** Steps 2 and 3: Schedule C for a business, then Schedule SE when it shows a profit. */
    method RunBusinessSchedules(t: TaxInputs) returns (c: Option<ScheduleCOutputs>, se: Option<ScheduleSEOutputs>)
      requires Valid()
      modifies scheduleC.base, scheduleSE.base
      ensures c.Some? <==> t.businessIncome.Some?
      ensures c.Some? ==> c.value.netProfitLoss == NetBusiness(t)
                          && c.value.grossIncome == ScheduleC.GrossIncome(t.businessIncome.value)
                          && c.value.totalExpenses == ScheduleC.TotalExpenses(t.businessIncome.value)
                          && c.value.citations == CitationMap(scheduleC.base.citations)
      ensures se.Some? <==> RunsScheduleSE(t)
      ensures se.Some? ==> se.value.selfEmploymentTax == SeTax(t) && se.value.deduction == SeDeduction(t)
                           && se.value.netEarnings == ScheduleSE.ReportedNetEarnings(NetBusiness(t))
                           && se.value.citations == SeCitations(t)
      ensures scheduleC.base.citations == old(scheduleC.base.citations)
              + (if t.businessIncome.Some? then scheduleC.ProcessEntries() else [])
      ensures scheduleSE.base.citations == old(scheduleSE.base.citations)
              + (if RunsScheduleSE(t) then scheduleSE.ProcessEntries(NetBusiness(t)) else [])
      ensures scheduleC.base.errors == old(scheduleC.base.errors) && scheduleC.base.warnings == old(scheduleC.base.warnings)
      ensures scheduleSE.base.errors == old(scheduleSE.base.errors) && scheduleSE.base.warnings == old(scheduleSE.base.warnings)
    {
      c, se := None, None;
      if t.businessIncome.Some? {
        var cOut := scheduleC.Process(ScheduleCInputs(t.businessIncome.value, t.filingStatus));
        c := Some(cOut);
        if cOut.netProfitLoss > 0.0 {
          var seOut := scheduleSE.Process(ScheduleSEInputs(cOut.netProfitLoss, t.filingStatus));
          se := Some(seOut);
        }
      }
    }

    /**
     * `process_tax_return`: the schedules in dependency order, the Schedule 1
     * amounts, Form 1040, and the patches of lines 23 to 37; the results of
     * all four units are kept for `verify_results`.
     */
    method ProcessTaxReturn(r: ReturnInputs) returns (outputs: Form1040Outputs)
      requires Valid()
      modifies this, form1040, form1040.base, scheduleB.base, scheduleC.base, scheduleSE.base
      ensures outputs == ReturnedLines(r).(citations := CitationMap(form1040.base.citations))
      ensures ArithmeticVerification.ChecksHold(outputs)
      ensures results.Some? && results.value.form1040 == outputs
      ensures ScheduleOutputsOf(r.tax, results.value.scheduleB, results.value.scheduleC, results.value.scheduleSE)
      ensures form1040.out == Form1040.ComputeLines(Form1040InputsOf(r)).(citations := CitationMap(form1040.base.citations))
      ensures form1040.base.citations == old(form1040.base.citations) + form1040.ProcessEntries(Form1040InputsOf(r))
      ensures scheduleB.base.citations == old(scheduleB.base.citations)
              + (if RunsScheduleB(r.tax) then scheduleB.ProcessEntries(ScheduleBInputs(r.tax.income1099Int, r.tax.income1099Div)) else [])
      ensures scheduleC.base.citations == old(scheduleC.base.citations)
              + (if r.tax.businessIncome.Some? then scheduleC.ProcessEntries() else [])
      ensures scheduleSE.base.citations == old(scheduleSE.base.citations)
              + (if RunsScheduleSE(r.tax) then scheduleSE.ProcessEntries(NetBusiness(r.tax)) else [])
      ensures form1040.base.errors == old(form1040.base.errors) && form1040.base.warnings == old(form1040.base.warnings)
      ensures scheduleB.base.errors == old(scheduleB.base.errors) && scheduleB.base.warnings == old(scheduleB.base.warnings)
      ensures scheduleC.base.errors == old(scheduleC.base.errors) && scheduleC.base.warnings == old(scheduleC.base.warnings)
      ensures scheduleSE.base.errors == old(scheduleSE.base.errors) && scheduleSE.base.warnings == old(scheduleSE.base.warnings)
    {
      var b, c, se, inputs, seTax, withholding := RunSchedules(r);
      var o := RunForm1040(inputs, seTax, withholding);
      results := Some(ProcessResults(b, c, se, o));
      outputs := o;
    }

    /** Steps 1 to 3 and the Schedule 1 amounts: everything Form 1040 is given. */
    method RunSchedules(r: ReturnInputs)
      returns (b: Option<ScheduleBOutputs>, c: Option<ScheduleCOutputs>, se: Option<ScheduleSEOutputs>,
               inputs: Form1040Inputs, seTax: real, withholding: real)
      requires Valid()
      modifies scheduleB.base, scheduleC.base, scheduleSE.base
      ensures ScheduleOutputsOf(r.tax, b, c, se)
      ensures inputs == Form1040InputsOf(r)
      ensures seTax == SeTax(r.tax) && withholding == SumBy(r.tax.w2, WithholdingOf)
      ensures scheduleB.base.citations == old(scheduleB.base.citations)
              + (if RunsScheduleB(r.tax) then scheduleB.ProcessEntries(ScheduleBInputs(r.tax.income1099Int, r.tax.income1099Div)) else [])
      ensures scheduleC.base.citations == old(scheduleC.base.citations)
              + (if r.tax.businessIncome.Some? then scheduleC.ProcessEntries() else [])
      ensures scheduleSE.base.citations == old(scheduleSE.base.citations)
              + (if RunsScheduleSE(r.tax) then scheduleSE.ProcessEntries(NetBusiness(r.tax)) else [])
      ensures scheduleB.base.errors == old(scheduleB.base.errors) && scheduleB.base.warnings == old(scheduleB.base.warnings)
      ensures scheduleC.base.errors == old(scheduleC.base.errors) && scheduleC.base.warnings == old(scheduleC.base.warnings)
      ensures scheduleSE.base.errors == old(scheduleSE.base.errors) && scheduleSE.base.warnings == old(scheduleSE.base.warnings)
    {
      var t := r.tax;
      b := RunScheduleB(t);
      c, se := RunBusinessSchedules(t);
      var totalWages := SumBy(t.w2, WagesOf);
      withholding := SumBy(t.w2, WithholdingOf);
      var totalInterest := if b.Some? then b.value.totalInterest else 0.0;
      var totalDividends := if b.Some? then b.value.totalDividends else 0.0;
      var netBusiness := if c.Some? then c.value.netProfitLoss else 0.0;
      var additionalIncome, totalAdjustments;
      additionalIncome, totalAdjustments, seTax :=
        Schedule1Amounts(r, netBusiness, se, totalWages + totalInterest + totalDividends);
      inputs := Form1040Inputs(t.filingStatus, t.taxpayer, t.dependents, totalWages, totalInterest,
                               totalDividends, additionalIncome, totalAdjustments);
    }

    /** Step 4: Form 1040 on the accumulated inputs, then the orchestrator's patches. */
    method RunForm1040(inputs: Form1040Inputs, seTax: real, withholding: real) returns (o: Form1040Outputs)
      modifies form1040, form1040.base
      ensures o == PatchLines(Form1040.ComputeLines(inputs), seTax, withholding).(citations := CitationMap(form1040.base.citations))
      ensures ArithmeticVerification.ChecksHold(o)
      ensures form1040.out == Form1040.ComputeLines(inputs).(citations := CitationMap(form1040.base.citations))
      ensures form1040.base.citations == old(form1040.base.citations) + form1040.ProcessEntries(inputs)
      ensures form1040.base.errors == old(form1040.base.errors) && form1040.base.warnings == old(form1040.base.warnings)
    {
      o := form1040.Process(inputs);
      o := PatchReturn(o, seTax, withholding);
      PatchKeepsCitations(Form1040.ComputeLines(inputs), seTax, withholding, CitationMap(form1040.base.citations));
      AgentRecordRelations(inputs);
      PatchPasses(Form1040.ComputeLines(inputs), seTax, withholding, CitationMap(form1040.base.citations));
    }

    /** `verify_results`: false before any return is processed, otherwise the arithmetic verifier's verdict. */
    method VerifyResults() returns (passed: bool)
      ensures results.None? ==> !passed
      ensures results.Some? ==> (passed <==> ArithmeticVerification.ChecksHold(results.value.form1040))
    {
      if results.None? {
        return false;
      }
      var verifier := new ArithmeticVerification.ArithmeticVerifier();
      var result := verifier.VerifyForm1040(results.value.form1040);
      passed := result.passed;
    }
  }

  /**
   * The Schedule 1 amounts in the order the orchestrator accumulates them:
   * the business result and any loss add-back, then half the SE tax, the
   * educator expenses, and the student-loan interest phased out on the
   * income as it stands before that last deduction.
   */
  method Schedule1Amounts(r: ReturnInputs, netBusiness: real, se: Option<ScheduleSEOutputs>, income: real)
    returns (additionalIncome: real, totalAdjustments: real, seTax: real)
    requires netBusiness == NetBusiness(r.tax)
    requires se.Some? <==> RunsScheduleSE(r.tax)
    requires se.Some? ==> se.value.selfEmploymentTax == SeTax(r.tax) && se.value.deduction == SeDeduction(r.tax)
    requires income == SumBy(r.tax.w2, WagesOf) + Interest(r.tax) + Dividends(r.tax)
    ensures additionalIncome == AdditionalIncome(NetBusiness(r.tax), r.tax.filingStatus)
    ensures totalAdjustments == TotalAdjustments(r)
    ensures seTax == SeTax(r.tax)
  {
    var st := r.tax.filingStatus;
    totalAdjustments := 0.0;
    seTax := 0.0;
    additionalIncome := 0.0;
    additionalIncome := additionalIncome + netBusiness;
    if netBusiness < 0.0 {
      var addBack := Adjustments.ExcessBusinessLoss(Abs(netBusiness), st);
      if addBack > 0.0 {
        additionalIncome := additionalIncome + addBack;
      }
    }
    if se.Some? {
      totalAdjustments := totalAdjustments + se.value.deduction;
      seTax := se.value.selfEmploymentTax;
    }
    var educator := Adjustments.EducatorExpense(r.educatorExpensesPaid, r.isEligibleEducator,
                                                r.spouseEducatorExpensesPaid, r.spouseEligibleEducator, st);
    if educator > 0.0 {
      totalAdjustments := totalAdjustments + educator;
    }
    var tempAgi := income + additionalIncome - totalAdjustments;
    var studentLoan := Adjustments.StudentLoanInterest(r.studentLoanInterestPaid, tempAgi, st);
    if studentLoan > 0.0 {
      totalAdjustments := totalAdjustments + studentLoan;
    }
  }

  /** The patches the orchestrator applies to the record the Form 1040 agent returns. */
  method PatchReturn(o: Form1040Outputs, seTax: real, withholding: real) returns (p: Form1040Outputs)
    ensures p == PatchLines(o, seTax, withholding)
  {
    p := o;
    if seTax > 0.0 {
      p := p.(line23 := seTax);
      p := p.(line24 := p.line16 - p.line19 + p.line23);
    }
    p := p.(line25a := withholding);
    p := p.(line33 := withholding);
    if p.line33 > p.line24 {
      p := p.(line34 := p.line33 - p.line24, line37 := 0.0);
    } else {
      p := p.(line34 := 0.0, line37 := p.line24 - p.line33);
    }
  }

  // -------------------------------------------------------------- properties

  /** The patches leave the citation map alone. */
  lemma PatchKeepsCitations(o: Form1040Outputs, seTax: real, withholding: real, citations: map<string, string>)
    ensures PatchLines(o.(citations := citations), seTax, withholding) == PatchLines(o, seTax, withholding).(citations := citations)
  {
  }

  /** The patches change nothing but lines 23, 24, 25a, 33, 34 and 37, and leave 23 and 24 alone without SE tax. */
  lemma PatchChangesOnlyLateLines(o: Form1040Outputs, seTax: real, withholding: real)
    ensures var p := PatchLines(o, seTax, withholding);
      p.(line23 := o.line23, line24 := o.line24, line25a := o.line25a, line33 := o.line33,
         line34 := o.line34, line37 := o.line37) == o
    ensures var p := PatchLines(o, seTax, withholding);
      p.line25a == withholding && p.line33 == withholding
      && (seTax > 0.0 ==> p.line23 == seTax && p.line24 == o.line16 - o.line19 + seTax)
      && (seTax <= 0.0 ==> p.line23 == o.line23 && p.line24 == o.line24)
  {
  }

  /** The relations the Form 1040 agent's own record satisfies before it is patched. */
  predicate AgentRelations(o: Form1040Outputs)
  {
    o.line9 == o.line1z + o.line2b + o.line3b + o.line8
    && o.line11 == o.line9 - o.line10
    && o.line15 == Max(0.0, o.line11 - o.line12)
    && o.line24 == o.line16 - o.line19 + o.line23
  }

  lemma AgentRecordRelations(inputs: Form1040Inputs)
    ensures AgentRelations(Form1040.ComputeLines(inputs))
  {
    Form1040.ComputedLineArithmetic(inputs);
  }

  /** Patching a record that satisfies the agent's relations gives one the verifier accepts, settled on the withholding. */
  lemma PatchPasses(o: Form1040Outputs, seTax: real, withholding: real, citations: map<string, string>)
    requires AgentRelations(o)
    ensures ArithmeticVerification.ChecksHold(PatchLines(o, seTax, withholding).(citations := citations))
    ensures var p := PatchLines(o, seTax, withholding);
      p.line24 == p.line16 - p.line19 + p.line23
      && p.line34 >= 0.0 && p.line37 >= 0.0 && (p.line34 == 0.0 || p.line37 == 0.0)
      && p.line34 - p.line37 == withholding - p.line24
      && (p.line34 > 0.0 <==> withholding > p.line24)
  {
    var taxed := if seTax > 0.0 then o.(line23 := seTax, line24 := o.line16 - o.line19 + seTax) else o;
    Form1040.SettleIsEitherOr(taxed.(line25a := withholding, line33 := withholding));
  }

  /** Every record the orchestrator returns passes every check of the arithmetic verifier. */
  lemma ReturnedLinesPass(r: ReturnInputs, citations: map<string, string>)
    ensures ArithmeticVerification.ChecksHold(ReturnedLines(r).(citations := citations))
    ensures ArithmeticVerification.ExpectedErrors(ReturnedLines(r).(citations := citations)) == []
  {
    var o := Form1040.ComputeLines(Form1040InputsOf(r));
    AgentRecordRelations(Form1040InputsOf(r));
    PatchPasses(o, SeTax(r.tax), SumBy(r.tax.w2, WithholdingOf), citations);
    ArithmeticVerification.PassesIffChecksHold(ReturnedLines(r).(citations := citations));
  }

  /** The returned record's payments are the withholding, its SE tax sits on line 23, and it settles the balance. */
  lemma ReturnedLinesSettle(r: ReturnInputs)
    ensures var p := ReturnedLines(r);
      var w := SumBy(r.tax.w2, WithholdingOf);
      p.line25a == w && p.line33 == w && p.line23 == SeTax(r.tax)
      && p.line24 == p.line16 - p.line19 + p.line23
      && p.line34 >= 0.0 && p.line37 >= 0.0 && (p.line34 == 0.0 || p.line37 == 0.0)
      && p.line34 - p.line37 == w - p.line24
      && (p.line34 > 0.0 <==> w > p.line24)
  {
    var inputs := Form1040InputsOf(r);
    var o := Form1040.ComputeLines(inputs);
    AgentRecordRelations(inputs);
    Form1040.ComputedLineArithmetic(inputs);
    SeTaxOnlyAboveMinimumProfit(r.tax);
    PatchPasses(o, SeTax(r.tax), SumBy(r.tax.w2, WithholdingOf), map[]);
    PatchChangesOnlyLateLines(o, SeTax(r.tax), SumBy(r.tax.w2, WithholdingOf));
  }

  /** Self-employment tax is owed exactly for a business whose profit passes 400. */
  lemma SeTaxOnlyAboveMinimumProfit(t: TaxInputs)
    ensures SeTax(t) >= 0.0 && SeDeduction(t) >= 0.0
    ensures SeTax(t) > 0.0 <==> t.businessIncome.Some? && ScheduleSE.Taxable(NetBusiness(t))
    ensures SeDeduction(t) <= SeTax(t)
  {
    ScheduleSE.SeTaxZeroIffNotTaxable(NetBusiness(t));
    ScheduleSE.DeductionIsHalfTax(NetBusiness(t));
    if RunsScheduleSE(t) {
      ScheduleSE.SeTaxNonDecreasing(0.0, NetBusiness(t));
    }
  }

  /**
   * The loss add-back caps the business loss that reaches the return at the
   * excess-business-loss threshold; profits and smaller losses pass unchanged.
   */
  lemma AdditionalIncomeCapsLoss(netBusiness: real, st: FilingStatus)
    ensures AdditionalIncome(netBusiness, st) >= netBusiness
    ensures AdditionalIncome(netBusiness, st) >= -Adjustments.LossThreshold(Adjustments.Joint(st))
    ensures netBusiness >= -Adjustments.LossThreshold(Adjustments.Joint(st)) ==> AdditionalIncome(netBusiness, st) == netBusiness
    ensures netBusiness < -Adjustments.LossThreshold(Adjustments.Joint(st))
            ==> AdditionalIncome(netBusiness, st) == -Adjustments.LossThreshold(Adjustments.Joint(st))
  {
  }

  /**
   * The return's AGI is the income on which the student-loan phase-out was
   * decided, less that deduction; line 10 holds the three adjustments.
   */
  lemma StudentLoanPhaseOutUsesPriorIncome(r: ReturnInputs)
    ensures ReturnedLines(r).line10 == TotalAdjustments(r)
    ensures ReturnedLines(r).line11 == StudentLoanMagi(r) - PositivePart(StudentLoanDeduction(r))
    ensures ReturnedLines(r).line9 == TotalIncome(r)
  {
    var inputs := Form1040InputsOf(r);
    var o := Form1040.ComputeLines(inputs);
    Form1040.ComputedIncomeLines(inputs);
    AgentRecordRelations(inputs);
    PatchChangesOnlyLateLines(o, SeTax(r.tax), SumBy(r.tax.w2, WithholdingOf));
  }

  /** A return with no business has no additional income, no SE tax and nothing on line 23. */
  lemma NoBusinessNoScheduleAmounts(r: ReturnInputs)
    requires r.tax.businessIncome.None?
    ensures Form1040InputsOf(r).schedule1AdditionalIncome == 0.0
    ensures SeTax(r.tax) == 0.0 && SeDeduction(r.tax) == 0.0
    ensures ReturnedLines(r).line23 == 0.0
  {
    var inputs := Form1040InputsOf(r);
    Form1040.ComputedLineArithmetic(inputs);
    PatchChangesOnlyLateLines(Form1040.ComputeLines(inputs), SeTax(r.tax), SumBy(r.tax.w2, WithholdingOf));
  }
}
