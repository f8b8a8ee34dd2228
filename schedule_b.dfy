/**
 * Schedule B, interest and ordinary dividends: the totals of the 1099-INT
 * and 1099-DIV records, which feed Form 1040 lines 2b and 3b.
 */
module ScheduleB {
  import opened TaxTypes
  import opened Money
  import opened FormAgents

  function InterestOf(x: Form1099Int): real { x.interestIncome }
  function OrdinaryDividendsOf(d: Form1099Div): real { d.ordinaryDividends }

  /** Line 4: the interest of all payers; 0 when there are none. */
  function TotalInterest(xs: seq<Form1099Int>): (r: real)
    ensures xs == [] ==> r == 0.0
  {
    SumBy(xs, InterestOf)
  }

  /** Line 6: the ordinary dividends of all payers; 0 when there are none. */
  function TotalOrdinaryDividends(ds: seq<Form1099Div>): (r: real)
    ensures ds == [] ==> r == 0.0
  {
    SumBy(ds, OrdinaryDividendsOf)
  }

  const InterestLine := "Line 4"
  const InterestSource := "Form 1099-INT aggregation"
  const DividendLine := "Line 6"
  const DividendSource := "Form 1099-DIV aggregation"

  class ScheduleBAgent {
    const base: FormAgent

    constructor (enableCitations: bool)
      ensures fresh(base)
      ensures base.formName == "schedule-b" && base.enableCitations == enableCitations
      ensures base.citations == [] && base.errors == [] && base.warnings == []
    {
      base := new FormAgent("schedule-b", enableCitations);
    }

    /** What one `process` call appends to the citation log. */
    function ProcessEntries(inputs: ScheduleBInputs): seq<Citation>
    {
      (if inputs.interestIncome != [] then base.Entry(InterestLine, InterestSource, "Total interest income") else [])
      + (if inputs.dividendIncome != [] then base.Entry(DividendLine, DividendSource, "Total ordinary dividends") else [])
    }

    /**
     * `process`: sum interest and ordinary dividends, citing line 4 when
     * there are interest records and line 6 when there are dividend
     * records, then publish the line-to-source map of the whole log.
     */
    method Process(inputs: ScheduleBInputs) returns (outputs: ScheduleBOutputs)
      modifies base
      ensures outputs.totalInterest == TotalInterest(inputs.interestIncome)
      ensures outputs.totalDividends == TotalOrdinaryDividends(inputs.dividendIncome)
      ensures base.citations == old(base.citations) + ProcessEntries(inputs)
      ensures outputs.citations == CitationMap(base.citations)
      ensures base.errors == old(base.errors) && base.warnings == old(base.warnings)
    {
      outputs := ScheduleBOutputs(0.0, 0.0, map[]);
      if inputs.interestIncome != [] {
        outputs := outputs.(totalInterest := TotalInterest(inputs.interestIncome));
        base.Cite(InterestLine, InterestSource, "Total interest income");
      }
      if inputs.dividendIncome != [] {
        outputs := outputs.(totalDividends := TotalOrdinaryDividends(inputs.dividendIncome));
        base.Cite(DividendLine, DividendSource, "Total ordinary dividends");
      }
      outputs := outputs.(citations := CitationMap(base.citations));
    }
  }

  /** The totals do not depend on the order of the records. */
  lemma TotalsOrderIndependent(xs: seq<Form1099Int>, xs': seq<Form1099Int>, ds: seq<Form1099Div>, ds': seq<Form1099Div>)
    requires multiset(xs) == multiset(xs') && multiset(ds) == multiset(ds')
    ensures TotalInterest(xs) == TotalInterest(xs')
    ensures TotalOrdinaryDividends(ds) == TotalOrdinaryDividends(ds')
  {
    SumByPermutation(xs, xs', InterestOf);
    SumByPermutation(ds, ds', OrdinaryDividendsOf);
  }

  /** Records with no negative amounts give totals that are not negative. */
  lemma TotalsNonNegative(xs: seq<Form1099Int>, ds: seq<Form1099Div>)
    requires forall i | 0 <= i < |xs| :: xs[i].interestIncome >= 0.0
    requires forall i | 0 <= i < |ds| :: ds[i].ordinaryDividends >= 0.0
    ensures TotalInterest(xs) >= 0.0 && TotalOrdinaryDividends(ds) >= 0.0
  {
    SumByNonNegative(xs, InterestOf);
    SumByNonNegative(ds, OrdinaryDividendsOf);
  }

  /** Combining two payers' lists adds their totals. */
  lemma TotalInterestAppend(xs: seq<Form1099Int>, ys: seq<Form1099Int>)
    ensures TotalInterest(xs + ys) == TotalInterest(xs) + TotalInterest(ys)
  {
    SumByAppend(xs, ys, InterestOf);
  }

  /** Qualified dividends play no part: records that agree on ordinary dividends give the same total. */
  lemma QualifiedDividendsIgnored(ds: seq<Form1099Div>, ds': seq<Form1099Div>)
    requires |ds| == |ds'|
    requires forall i | 0 <= i < |ds| :: ds[i].ordinaryDividends == ds'[i].ordinaryDividends
    ensures TotalOrdinaryDividends(ds) == TotalOrdinaryDividends(ds')
  {
    SumByCongruent(ds, OrdinaryDividendsOf, ds', OrdinaryDividendsOf);
  }

  /** The example: interest of 150.50 and 75.25 totals 225.75; one 500 dividend totals 500. */
  lemma ScheduleBExample(xs: seq<Form1099Int>, ds: seq<Form1099Div>)
    requires xs == [Form1099Int(Some("Bank of America"), 150.50), Form1099Int(Some("Chase Bank"), 75.25)]
    requires ds == [Form1099Div(Some("Vanguard"), 500.0, 500.0)]
    ensures TotalInterest(xs) == 225.75
    ensures TotalOrdinaryDividends(ds) == 500.0
  {
    assert xs[1..][1..] == [];
    assert SumBy(xs[1..][1..], InterestOf) == 0.0;
    assert SumBy(xs[1..], InterestOf) == 75.25;
    assert ds[1..] == [];
    assert SumBy(ds[1..], OrdinaryDividendsOf) == 0.0;
  }
}
