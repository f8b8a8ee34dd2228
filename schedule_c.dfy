/**
 * Schedule C, profit or loss of a sole proprietorship: gross income
 * (Part I, line 7), total expenses (Part II, line 28) and the net profit or
 * loss (line 31) that feeds Schedule SE and Schedule 1.
 */
module ScheduleC {
  import opened TaxTypes
  import opened Money
  import opened FormAgents

  /** Only half of business meals is deductible. */
  const MealsDeductibleShare: real := 0.5

  function AmountOf(e: NamedExpense): real { e.amount }

  /** The sum of the named "other" expenses, in any order. */
  function OtherExpensesTotal(b: BusinessIncome): real
  {
    SumBy(b.otherExpenses, AmountOf)
  }

  /** Line 7: receipts less returns and cost of goods sold, plus other income. */
  function GrossIncome(b: BusinessIncome): real
  {
    b.grossReceipts - b.returnsAllowances - b.costOfGoodsSold + b.otherIncome
  }

  /** The sixteen expense categories taken at their full amount. */
  function FullyDeductible(b: BusinessIncome): real
  {
    b.advertising + b.carTruckExpenses + b.commissionsFees + b.contractLabor
    + b.depreciation + b.insurance + b.interest + b.legalProfessional
    + b.officeExpense + b.rentLease + b.repairsMaintenance + b.supplies
    + b.taxesLicenses + b.travel + b.utilities + b.wages
  }

  /** Line 28: the full categories, half of the meals and all other expenses. */
  function TotalExpenses(b: BusinessIncome): real
  {
    FullyDeductible(b) + b.meals * MealsDeductibleShare + OtherExpensesTotal(b)
  }

  /** Line 31. */
  function NetProfitLoss(b: BusinessIncome): real
  {
    GrossIncome(b) - TotalExpenses(b)
  }

  const GrossLine := "Line 7"
  const GrossSource := "Schedule C Instructions, Part I"
  const ExpensesLine := "Line 28"
  const ExpensesSource := "Schedule C Instructions, Part II"
  const NetLine := "Line 31"
  const NetSource := "Schedule C Instructions, Line 31"

  class ScheduleCAgent {
    const base: FormAgent

    constructor (enableCitations: bool)
      ensures fresh(base)
      ensures base.formName == "schedule-c" && base.enableCitations == enableCitations
      ensures base.citations == [] && base.errors == [] && base.warnings == []
    {
      base := new FormAgent("schedule-c", enableCitations);
    }

    /** What one `process` call appends to the citation log: lines 7, 28 and 31, in that order. */
    function ProcessEntries(): seq<Citation>
    {
      base.Entry(GrossLine, GrossSource, "Gross income")
      + base.Entry(ExpensesLine, ExpensesSource, "Total expenses, meals limited to 50%")
      + base.Entry(NetLine, NetSource, "Net profit or loss")
    }

    /** `process`: Part I, Part II and line 31 of one business; the filing status plays no part. */
    method Process(inputs: ScheduleCInputs) returns (outputs: ScheduleCOutputs)
      modifies base
      ensures outputs.grossIncome == GrossIncome(inputs.business)
      ensures outputs.totalExpenses == TotalExpenses(inputs.business)
      ensures outputs.netProfitLoss == NetProfitLoss(inputs.business)
      ensures outputs.netProfitLoss == outputs.grossIncome - outputs.totalExpenses
      ensures base.citations == old(base.citations) + ProcessEntries()
      ensures outputs.citations == CitationMap(base.citations)
      ensures base.errors == old(base.errors) && base.warnings == old(base.warnings)
    {
      var business := inputs.business;
      var grossIncome := business.grossReceipts - business.returnsAllowances - business.costOfGoodsSold + business.otherIncome;
      base.Cite(GrossLine, GrossSource, "Gross income");
      var totalExpenses := FullyDeductible(business) + business.meals * MealsDeductibleShare + OtherExpensesTotal(business);
      base.Cite(ExpensesLine, ExpensesSource, "Total expenses, meals limited to 50%");
      var net := grossIncome - totalExpenses;
      base.Cite(NetLine, NetSource, "Net profit or loss");
      outputs := ScheduleCOutputs(grossIncome, totalExpenses, net, CitationMap(base.citations));
    }
  }

  /** Each extra dollar of meals adds half a dollar of expense and takes half a dollar off the profit. */
  lemma MealsHalfDeductible(b: BusinessIncome, extra: real)
    ensures TotalExpenses(b.(meals := b.meals + extra)) == TotalExpenses(b) + extra / 2.0
    ensures NetProfitLoss(b.(meals := b.meals + extra)) == NetProfitLoss(b) - extra / 2.0
  {
  }

  /** Adding one new named other expense raises the total by its amount. */
  lemma AddOtherExpense(b: BusinessIncome, e: NamedExpense)
    requires forall i | 0 <= i < |b.otherExpenses| :: b.otherExpenses[i].name != e.name
    ensures TotalExpenses(b.(otherExpenses := b.otherExpenses + [e])) == TotalExpenses(b) + e.amount
  {
    SumByAppend(b.otherExpenses, [e], AmountOf);
    assert SumBy([e], AmountOf) == e.amount by {
      assert [e][1..] == [];
    }
  }

  /** The other expenses form a dictionary: their order does not change the result. */
  lemma OtherExpensesOrderIndependent(b: BusinessIncome, others: seq<NamedExpense>)
    requires multiset(others) == multiset(b.otherExpenses)
    ensures TotalExpenses(b.(otherExpenses := others)) == TotalExpenses(b)
    ensures NetProfitLoss(b.(otherExpenses := others)) == NetProfitLoss(b)
  {
    SumByPermutation(b.otherExpenses, others, AmountOf);
  }

  predicate NoNegativeExpenses(b: BusinessIncome)
  {
    b.advertising >= 0.0 && b.carTruckExpenses >= 0.0 && b.commissionsFees >= 0.0
    && b.contractLabor >= 0.0 && b.depreciation >= 0.0 && b.insurance >= 0.0
    && b.interest >= 0.0 && b.legalProfessional >= 0.0 && b.officeExpense >= 0.0
    && b.rentLease >= 0.0 && b.repairsMaintenance >= 0.0 && b.supplies >= 0.0
    && b.taxesLicenses >= 0.0 && b.travel >= 0.0 && b.meals >= 0.0
    && b.utilities >= 0.0 && b.wages >= 0.0
    && forall i | 0 <= i < |b.otherExpenses| :: b.otherExpenses[i].amount >= 0.0
  }

  /** With no negative expense the total is not negative and the net never exceeds gross income. */
  lemma ExpensesBoundNet(b: BusinessIncome)
    requires NoNegativeExpenses(b)
    ensures TotalExpenses(b) >= 0.0
    ensures NetProfitLoss(b) <= GrossIncome(b)
  {
    SumByNonNegative(b.otherExpenses, AmountOf);
  }

  /**
   * The example business: 75000 of receipts; 2000 advertising, 1500 office,
   * 800 supplies, 1200 utilities and 500 of meals give 5750 of expenses and
   * 69250 of profit.
   */
  lemma ScheduleCExample(b: BusinessIncome)
    requires b == NewBusinessIncome().(businessName := Some("Web Design Services"), grossReceipts := 75000.0,
                                       advertising := 2000.0, officeExpense := 1500.0, supplies := 800.0,
                                       utilities := 1200.0, meals := 500.0)
    ensures GrossIncome(b) == 75000.0
    ensures TotalExpenses(b) == 5750.0
    ensures NetProfitLoss(b) == 69250.0
  {
  }
}
