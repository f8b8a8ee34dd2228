/**
 * Form 1040, the main return: eleven steps that fill one line record in a
 * fixed order, from total income through AGI, taxable income, tax, the
 * child credit and total tax, to a refund or an amount owed.
 */
module Form1040 {
  import opened TaxTypes
  import opened Money
  import opened FormAgents
  import opened TaxTable
  import opened StandardDeduction

  /** The simplified child tax credit per qualifying child, with no phase-out. */
  const ChildCreditPerChild: real := 2000.0

  /** The number of dependents marked as qualifying children. */
  function QualifyingChildren(deps: seq<Dependent>): (n: nat)
    ensures n <= |deps|
    ensures n == 0 <==> forall i | 0 <= i < |deps| :: !deps[i].qualifyingChild
  {
    if deps == [] then 0
    else (if deps[0].qualifyingChild then 1 else 0) + QualifyingChildren(deps[1..])
  }

  /** Line 12: the standard deduction for the status and the age and blindness fields. */
  function LineDeduction(inputs: Form1040Inputs): real
  {
    var tp := inputs.taxpayer;
    DeductionFor(inputs.filingStatus, tp.age, tp.blind, tp.spouseAge, tp.spouseBlind)
  }

  /** Line 19 with at least one qualifying child: 2000 per child, never more than the tax. */
  function ChildCredit(children: nat, tax: real): real
  {
    Min(ChildCreditPerChild * children as real, tax)
  }

  // One function per step of `process`: the record as that step leaves it.

  /** Lines 1z, 2b, 3b and 8 from the inputs, and their sum on line 9. */
  function IncomeStep(o: Form1040Outputs, inputs: Form1040Inputs): Form1040Outputs
  {
    o.(line1z := inputs.wages, line2b := inputs.interest, line3b := inputs.dividends,
       line8 := inputs.schedule1AdditionalIncome,
       line9 := inputs.wages + inputs.interest + inputs.dividends + inputs.schedule1AdditionalIncome)
  }

  function AdjustmentStep(o: Form1040Outputs, inputs: Form1040Inputs): Form1040Outputs
  {
    o.(line10 := inputs.schedule1Adjustments)
  }

  function AgiStep(o: Form1040Outputs): Form1040Outputs
  {
    o.(line11 := o.line9 - o.line10)
  }

  function DeductionStep(o: Form1040Outputs, inputs: Form1040Inputs): Form1040Outputs
  {
    o.(line12 := LineDeduction(inputs))
  }

  function TaxableIncomeStep(o: Form1040Outputs): Form1040Outputs
  {
    o.(line15 := Max(0.0, o.line11 - o.line12))
  }

  function TaxStep(o: Form1040Outputs, st: FilingStatus): Form1040Outputs
  {
    o.(line16 := TaxFor(o.line15, st))
  }

  /** Line 19 is written only when there is a qualifying child. */
  function CreditStep(o: Form1040Outputs, deps: seq<Dependent>): Form1040Outputs
  {
    var n := QualifyingChildren(deps);
    if n > 0 then o.(line19 := ChildCredit(n, o.line16)) else o
  }

  function TotalTaxStep(o: Form1040Outputs): Form1040Outputs
  {
    o.(line24 := o.line16 - o.line19 + o.line23)
  }

  /**
   * Lines 25a and 33. The withholding is read from a `w2` attribute the
   * taxpayer record does not have, so it is always 0.
   */
  function PaymentStep(o: Form1040Outputs): Form1040Outputs
  {
    o.(line25a := 0.0, line33 := 0.0)
  }

  /**
   * Lines 34 and 37: payments above the total tax are refunded, anything
   * else is owed. Both the agent and the orchestrator's recomputation use it.
   */
  function Settle(o: Form1040Outputs): Form1040Outputs
  {
    if o.line33 > o.line24 then o.(line34 := o.line33 - o.line24, line37 := 0.0)
    else o.(line34 := 0.0, line37 := o.line24 - o.line33)
  }

  /** The record after every step but the last. */
  function FilledLines(inputs: Form1040Inputs): Form1040Outputs
  {
    var income := AdjustmentStep(IncomeStep(NewForm1040Outputs(), inputs), inputs);
    var taxable := TaxableIncomeStep(DeductionStep(AgiStep(income), inputs));
    PaymentStep(TotalTaxStep(CreditStep(TaxStep(taxable, inputs.filingStatus), inputs.dependents)))
  }

  /** The lines `process` fills, with an empty citation map. */
  function ComputeLines(inputs: Form1040Inputs): Form1040Outputs
  {
    Settle(FilledLines(inputs))
  }

  // The line, source and reasoning of each citation.
  const Line1zLine := "Line 1z"
  const Line1zSource := "Form W-2, Box 1"
  const Line1zReason := "Total wages from W-2 forms"
  const Line2bLine := "Line 2b"
  const Line2bSource := "Schedule B, Line 4 or Form 1099-INT"
  const Line2bReason := "Taxable interest income"
  const Line3bLine := "Line 3b"
  const Line3bSource := "Schedule B, Line 6 or Form 1099-DIV"
  const Line3bReason := "Qualified dividends"
  const Line8Line := "Line 8"
  const Line8Source := "Schedule 1, Line 10"
  const Line8Reason := "Additional income from Schedule 1"
  const Line9Line := "Line 9"
  const Line9Source := "Form 1040 Instructions, Line 9"
  const Line9Reason := "Total income, the sum of lines 1-8"
  const Line10Line := "Line 10"
  const Line10Source := "Schedule 1, Line 26"
  const Line10Reason := "Adjustments to income from Schedule 1"
  const Line11Line := "Line 11"
  const Line11Source := "Form 1040 Instructions, Line 11 - Adjusted Gross Income"
  const Line11Reason := "AGI, line 9 less line 10"
  const Line15Line := "Line 15"
  const Line15Source := "Form 1040 Instructions, Line 15 - Taxable Income"
  const Line15Reason := "Taxable income, AGI less deductions"
  const Line16Line := "Line 16"
  const Line16Source := "2024 Tax Computation Worksheet / Tax Tables"
  const Line16Reason := "Tax on the taxable income"
  const Line19Line := "Line 19"
  const Line19Source := "Schedule 8812 - Child Tax Credit"
  const Line19Reason := "Child tax credit"
  const Line24Line := "Line 24"
  const Line24Source := "Form 1040 Instructions, Line 24 - Total Tax"
  const Line24Reason := "Total tax, tax less credits plus other taxes"
  const Line33Line := "Line 33"
  const Line33Source := "Form 1040 Instructions, Line 33 - Total Payments"
  const Line33Reason := "Total payments"
  const Line34Line := "Line 34"
  const Line34Source := "Form 1040 Instructions, Line 34 - Refund"
  const Line34Reason := "Overpayment (refund)"
  const Line37Line := "Line 37"
  const Line37Source := "Form 1040 Instructions, Line 37 - Amount You Owe"
  const Line37Reason := "Amount you owe"
  const Line12Line := "Line 12"
  const Line12SourcePrefix := "IRS Standard Deduction for "
  const Line12Reason := "Standard deduction"

  class Form1040Agent {
    const base: FormAgent
    /** The record `process` builds and its steps fill in; `Process` returns a copy of it. */
    var out: Form1040Outputs

    constructor (enableCitations: bool)
      ensures fresh(base)
      ensures base.formName == "1040" && base.enableCitations == enableCitations
      ensures base.citations == [] && base.errors == [] && base.warnings == []
      ensures out == NewForm1040Outputs()
    {
      base := new FormAgent("1040", enableCitations);
      out := NewForm1040Outputs();
    }

    // The citations each step adds, given the record as the step leaves it.

    /** A citation made only when the amount is positive. */
    function EntryIfPositive(amount: real, line: string, source: string, reasoning: string): seq<Citation>
    {
      if amount > 0.0 then base.Entry(line, source, reasoning) else []
    }

    function IncomeEntries(inputs: Form1040Inputs): seq<Citation>
    {
      base.Entry(Line1zLine, Line1zSource, Line1zReason)
      + EntryIfPositive(inputs.interest, Line2bLine, Line2bSource, Line2bReason)
      + EntryIfPositive(inputs.dividends, Line3bLine, Line3bSource, Line3bReason)
      + EntryIfPositive(inputs.schedule1AdditionalIncome, Line8Line, Line8Source, Line8Reason)
      + base.Entry(Line9Line, Line9Source, Line9Reason)
    }

    function AdjustmentEntries(inputs: Form1040Inputs): seq<Citation>
    {
      if inputs.schedule1Adjustments > 0.0 then base.Entry(Line10Line, Line10Source, Line10Reason) else []
    }

    function AgiEntries(): seq<Citation>
    {
      base.Entry(Line11Line, Line11Source, Line11Reason)
    }

    function DeductionEntries(st: FilingStatus): seq<Citation>
    {
      base.Entry(Line12Line, Line12SourcePrefix + st.Value(), Line12Reason)
    }

    function TaxableIncomeEntries(): seq<Citation>
    {
      base.Entry(Line15Line, Line15Source, Line15Reason)
    }

    function TaxEntries(): seq<Citation>
    {
      base.Entry(Line16Line, Line16Source, Line16Reason)
    }

    function CreditEntries(children: nat): seq<Citation>
    {
      if children > 0 then base.Entry(Line19Line, Line19Source, Line19Reason) else []
    }

    function TotalTaxEntries(): seq<Citation>
    {
      base.Entry(Line24Line, Line24Source, Line24Reason)
    }

    function PaymentEntries(): seq<Citation>
    {
      base.Entry(Line33Line, Line33Source, Line33Reason)
    }

    function SettleEntries(o: Form1040Outputs): seq<Citation>
    {
      if o.line33 > o.line24 then base.Entry(Line34Line, Line34Source, Line34Reason)
      else base.Entry(Line37Line, Line37Source, Line37Reason)
    }

    /** Everything one `process` call adds to the citation log, in order. */
    function ProcessEntries(inputs: Form1040Inputs): seq<Citation>
    {
      IncomeEntries(inputs) + AdjustmentEntries(inputs) + AgiEntries() + DeductionEntries(inputs.filingStatus)
      + TaxableIncomeEntries() + TaxEntries() + CreditEntries(QualifyingChildren(inputs.dependents))
      + TotalTaxEntries() + PaymentEntries() + SettleEntries(FilledLines(inputs))
    }

    /** Lines 1z, 2b, 3b, 8 and 9. */
    method CalculateIncome(inputs: Form1040Inputs)
      modifies this, base
      ensures out == IncomeStep(old(out), inputs)
      ensures base.citations == old(base.citations) + IncomeEntries(inputs)
      ensures base.errors == old(base.errors) && base.warnings == old(base.warnings)
    {
      ghost var log := base.citations;
      out := out.(line1z := inputs.wages);
      base.Cite(Line1zLine, Line1zSource, Line1zReason);
      ghost var e := base.Entry(Line1zLine, Line1zSource, Line1zReason);
      assert base.citations == log + e;
      out := out.(line2b := inputs.interest);
      if out.line2b > 0.0 {
        base.Cite(Line2bLine, Line2bSource, Line2bReason);
      }
      LogAppend(log, e, EntryIfPositive(inputs.interest, Line2bLine, Line2bSource, Line2bReason));
      e := e + EntryIfPositive(inputs.interest, Line2bLine, Line2bSource, Line2bReason);
      assert base.citations == log + e;
      out := out.(line3b := inputs.dividends);
      if out.line3b > 0.0 {
        base.Cite(Line3bLine, Line3bSource, Line3bReason);
      }
      LogAppend(log, e, EntryIfPositive(inputs.dividends, Line3bLine, Line3bSource, Line3bReason));
      e := e + EntryIfPositive(inputs.dividends, Line3bLine, Line3bSource, Line3bReason);
      assert base.citations == log + e;
      out := out.(line8 := inputs.schedule1AdditionalIncome);
      if out.line8 > 0.0 {
        base.Cite(Line8Line, Line8Source, Line8Reason);
      }
      LogAppend(log, e, EntryIfPositive(inputs.schedule1AdditionalIncome, Line8Line, Line8Source, Line8Reason));
      e := e + EntryIfPositive(inputs.schedule1AdditionalIncome, Line8Line, Line8Source, Line8Reason);
      assert base.citations == log + e;
      out := out.(line9 := out.line1z + out.line2b + out.line3b + out.line8);
      base.Cite(Line9Line, Line9Source, Line9Reason);
      LogAppend(log, e, base.Entry(Line9Line, Line9Source, Line9Reason));
    }

    /** Line 10. */
    method CalculateAdjustments(inputs: Form1040Inputs)
      modifies this, base
      ensures out == AdjustmentStep(old(out), inputs)
      ensures base.citations == old(base.citations) + AdjustmentEntries(inputs)
      ensures base.errors == old(base.errors) && base.warnings == old(base.warnings)
    {
      out := out.(line10 := inputs.schedule1Adjustments);
      if out.line10 > 0.0 {
        base.Cite(Line10Line, Line10Source, Line10Reason);
      }
    }

    /** Line 11, from the record's lines 9 and 10. */
    method CalculateAgi()
      modifies this, base
      ensures out == AgiStep(old(out))
      ensures base.citations == old(base.citations) + AgiEntries()
      ensures base.errors == old(base.errors) && base.warnings == old(base.warnings)
    {
      out := out.(line11 := out.line9 - out.line10);
      base.Cite(Line11Line, Line11Source, Line11Reason);
    }

    /** Line 12: always the standard deduction; a status of the enumeration never fails the lookup. */
    method CalculateDeductions(inputs: Form1040Inputs)
      modifies this, base
      ensures out == DeductionStep(old(out), inputs)
      ensures base.citations == old(base.citations) + DeductionEntries(inputs.filingStatus)
      ensures base.errors == old(base.errors) && base.warnings == old(base.warnings)
    {
      var tp := inputs.taxpayer;
      var r := GetStandardDeduction(inputs.filingStatus.Value(), tp.age, tp.blind, tp.spouseAge, tp.spouseBlind);
      StandardDeductionErrors(inputs.filingStatus.Value(), tp.age, tp.blind, tp.spouseAge, tp.spouseBlind);
      out := out.(line12 := r.value);
      base.Cite(Line12Line, Line12SourcePrefix + inputs.filingStatus.Value(), Line12Reason);
    }

    /** Line 15: AGI less the deduction, floored at 0. */
    method CalculateTaxableIncome()
      modifies this, base
      ensures out == TaxableIncomeStep(old(out))
      ensures base.citations == old(base.citations) + TaxableIncomeEntries()
      ensures base.errors == old(base.errors) && base.warnings == old(base.warnings)
    {
      out := out.(line15 := Max(0.0, out.line11 - out.line12));
      base.Cite(Line15Line, Line15Source, Line15Reason);
    }

    /** Line 16: the bracket tax of line 15. */
    method CalculateTax(inputs: Form1040Inputs)
      modifies this, base
      ensures out == TaxStep(old(out), inputs.filingStatus)
      ensures base.citations == old(base.citations) + TaxEntries()
      ensures base.errors == old(base.errors) && base.warnings == old(base.warnings)
    {
      var r := TaxTable.CalculateTax(out.line15, inputs.filingStatus.Value());
      assert r == Ok(TaxFor(out.line15, inputs.filingStatus));
      out := out.(line16 := r.value);
      base.Cite(Line16Line, Line16Source, Line16Reason);
    }

    /** Line 19: set only when there is a qualifying child, otherwise left as it was. */
    method CalculateCredits(inputs: Form1040Inputs)
      modifies this, base
      ensures out == CreditStep(old(out), inputs.dependents)
      ensures base.citations == old(base.citations) + CreditEntries(QualifyingChildren(inputs.dependents))
      ensures base.errors == old(base.errors) && base.warnings == old(base.warnings)
    {
      var n := QualifyingChildren(inputs.dependents);
      if n > 0 {
        var childCredit := ChildCreditPerChild * n as real;
        out := out.(line19 := Min(childCredit, out.line16));
        base.Cite(Line19Line, Line19Source, Line19Reason);
      }
    }

    /** Lines 22-23: this agent leaves them as they are. */
    method CalculateOtherTaxes()
      ensures out == old(out)
    {
    }

    /** Line 24. */
    method CalculateTotalTax()
      modifies this, base
      ensures out == TotalTaxStep(old(out))
      ensures base.citations == old(base.citations) + TotalTaxEntries()
      ensures base.errors == old(base.errors) && base.warnings == old(base.warnings)
    {
      out := out.(line24 := out.line16 - out.line19 + out.line23);
      base.Cite(Line24Line, Line24Source, Line24Reason);
    }

    /** Lines 25a and 33; with no withholding line 25a is never cited. */
    method CalculatePayments()
      modifies this, base
      ensures out == PaymentStep(old(out))
      ensures base.citations == old(base.citations) + PaymentEntries()
      ensures base.errors == old(base.errors) && base.warnings == old(base.warnings)
    {
      var totalWithholding := 0.0;
      out := out.(line25a := totalWithholding);
      out := out.(line33 := out.line25a);
      base.Cite(Line33Line, Line33Source, Line33Reason);
    }

    /** Lines 34 and 37. */
    method CalculateRefundOrOwed()
      modifies this, base
      ensures out == Settle(old(out))
      ensures base.citations == old(base.citations) + SettleEntries(old(out))
      ensures base.errors == old(base.errors) && base.warnings == old(base.warnings)
    {
      if out.line33 > out.line24 {
        out := out.(line34 := out.line33 - out.line24, line37 := 0.0);
        base.Cite(Line34Line, Line34Source, Line34Reason);
      } else {
        out := out.(line34 := 0.0, line37 := out.line24 - out.line33);
        base.Cite(Line37Line, Line37Source, Line37Reason);
      }
    }

    /** `process`: the steps in order on a fresh record, then the line-to-source map of the whole log. */
    method Process(inputs: Form1040Inputs) returns (outputs: Form1040Outputs)
      modifies this, base
      ensures outputs == ComputeLines(inputs).(citations := CitationMap(base.citations))
      ensures out == outputs
      ensures base.citations == old(base.citations) + ProcessEntries(inputs)
      ensures base.errors == old(base.errors) && base.warnings == old(base.warnings)
    {
      ghost var log := base.citations;
      out := NewForm1040Outputs();
      CalculateIncome(inputs);
      ghost var e := IncomeEntries(inputs);
      assert base.citations == log + e;
      CalculateAdjustments(inputs);
      LogAppend(log, e, AdjustmentEntries(inputs));
      e := e + AdjustmentEntries(inputs);
      assert base.citations == log + e;
      CalculateAgi();
      LogAppend(log, e, AgiEntries());
      e := e + AgiEntries();
      assert base.citations == log + e;
      CalculateDeductions(inputs);
      LogAppend(log, e, DeductionEntries(inputs.filingStatus));
      e := e + DeductionEntries(inputs.filingStatus);
      assert base.citations == log + e;
      CalculateTaxableIncome();
      LogAppend(log, e, TaxableIncomeEntries());
      e := e + TaxableIncomeEntries();
      assert base.citations == log + e;
      CalculateTax(inputs);
      LogAppend(log, e, TaxEntries());
      e := e + TaxEntries();
      assert base.citations == log + e;
      CalculateCredits(inputs);
      LogAppend(log, e, CreditEntries(QualifyingChildren(inputs.dependents)));
      e := e + CreditEntries(QualifyingChildren(inputs.dependents));
      assert base.citations == log + e;
      CalculateOtherTaxes();
      CalculateTotalTax();
      LogAppend(log, e, TotalTaxEntries());
      e := e + TotalTaxEntries();
      assert base.citations == log + e;
      CalculatePayments();
      LogAppend(log, e, PaymentEntries());
      e := e + PaymentEntries();
      assert base.citations == log + e;
      assert out == FilledLines(inputs);
      CalculateRefundOrOwed();
      LogAppend(log, e, SettleEntries(FilledLines(inputs)));
      e := e + SettleEntries(FilledLines(inputs));
      assert base.citations == log + e;
      assert e == ProcessEntries(inputs);
      out := out.(citations := CitationMap(base.citations));
      outputs := out;
    }
  }

  // ---------------------------------------------------------------- properties

  /** The refund and the amount owed: never both, never negative, and their difference settles the balance. */
  lemma SettleIsEitherOr(o: Form1040Outputs)
    ensures var s := Settle(o);
      s.line34 >= 0.0 && s.line37 >= 0.0 && s.line34 * s.line37 == 0.0
      && s.line34 - s.line37 == o.line33 - o.line24
      && (s.line34 > 0.0 <==> o.line33 > o.line24)
    ensures Settle(o).(line34 := o.line34, line37 := o.line37) == o
  {
  }

  /** The credit is between 0 and both the tax and 2000 per child, and is 0 exactly when there is no child or no tax. */
  lemma ChildCreditBounds(children: nat, tax: real)
    requires tax >= 0.0
    ensures 0.0 <= ChildCredit(children, tax) <= tax
    ensures ChildCredit(children, tax) == 0.0 <==> children == 0 || tax == 0.0
    ensures ChildCredit(children, tax) <= ChildCreditPerChild * children as real
  {
  }

  /** The relations between the lines the agent fills. */
  lemma ComputedLinesRelations(inputs: Form1040Inputs)
    ensures var o := ComputeLines(inputs);
      o.line9 == o.line1z + o.line2b + o.line3b + o.line8
      && o.line11 == o.line9 - o.line10
      && o.line15 >= 0.0 && o.line15 >= o.line11 - o.line12
      && (o.line15 > 0.0 ==> o.line15 == o.line11 - o.line12)
      && CalculateTax(o.line15, inputs.filingStatus.Value()) == Ok(o.line16)
      && StandardDeduction.StandardDeduction(inputs.filingStatus.Value(), inputs.taxpayer.age, inputs.taxpayer.blind,
                           inputs.taxpayer.spouseAge, inputs.taxpayer.spouseBlind) == Ok(o.line12)
      && 0.0 <= o.line19 <= o.line16
      && o.line24 == o.line16 - o.line19 + o.line23
      && o.line22 == 0.0 && o.line23 == 0.0
  {
    var o := ComputeLines(inputs);
    StandardDeductionErrors(inputs.filingStatus.Value(), inputs.taxpayer.age, inputs.taxpayer.blind,
                            inputs.taxpayer.spouseAge, inputs.taxpayer.spouseBlind);
    ChildCreditBounds(QualifyingChildren(inputs.dependents), o.line16);
  }

  /** The arithmetic between the lines, on its own: the sums, the floor at 0 and line 23 left at 0. */
  lemma ComputedLineArithmetic(inputs: Form1040Inputs)
    ensures var o := ComputeLines(inputs);
      o.line9 == o.line1z + o.line2b + o.line3b + o.line8
      && o.line11 == o.line9 - o.line10
      && o.line15 == Max(0.0, o.line11 - o.line12)
      && o.line23 == 0.0
      && o.line24 == o.line16 - o.line19 + o.line23
  {
  }

  /** Lines 1z to 10 copy the inputs: the agent takes every income and adjustment figure as given. */
  lemma ComputedIncomeLines(inputs: Form1040Inputs)
    ensures var o := ComputeLines(inputs);
      o.line1z == inputs.wages && o.line2b == inputs.interest && o.line3b == inputs.dividends
      && o.line8 == inputs.schedule1AdditionalIncome && o.line10 == inputs.schedule1Adjustments
  {
  }

  /** With no payments recorded, the agent's return never shows a refund: the whole tax is owed. */
  lemma AgentReturnAlwaysOwes(inputs: Form1040Inputs)
    ensures var o := ComputeLines(inputs);
      o.line25a == 0.0 && o.line33 == 0.0 && o.line34 == 0.0
      && o.line37 == o.line24 && o.line24 >= 0.0
  {
    var o := ComputeLines(inputs);
    ChildCreditBounds(QualifyingChildren(inputs.dependents), o.line16);
  }

  /** More wages never mean a lower tax on line 16. */
  lemma TaxNonDecreasingInWages(inputs: Form1040Inputs, moreWages: real)
    requires inputs.wages <= moreWages
    ensures ComputeLines(inputs).line16 <= ComputeLines(inputs.(wages := moreWages)).line16
  {
    var a := ComputeLines(inputs);
    var b := ComputeLines(inputs.(wages := moreWages));
    assert a.line15 <= b.line15;
    TaxNonDecreasing(inputs.filingStatus, a.line15, b.line15);
  }

  /**
   * A single filer aged 35 with 50000 of wages and nothing else: the
   * deduction is 14600, taxable income 35400, tax and amount owed 4016.
   */
  lemma SingleWageEarnerExample(inputs: Form1040Inputs)
    requires inputs.filingStatus == Single && inputs.dependents == []
    requires inputs.taxpayer.age == Some(35) && !inputs.taxpayer.blind
    requires inputs.wages == 50000.0 && inputs.interest == inputs.dividends == 0.0
    requires inputs.schedule1AdditionalIncome == inputs.schedule1Adjustments == 0.0
    ensures ComputeLines(inputs).line9 == 50000.0
    ensures ComputeLines(inputs).line12 == 14600.0
    ensures ComputeLines(inputs).line15 == 35400.0
    ensures ComputeLines(inputs).line16 == 4016.0
    ensures ComputeLines(inputs).line37 == 4016.0
  {
    assert LineDeduction(inputs) == 14600.0;
    TaxSingleExample(35400.0);
  }
}
