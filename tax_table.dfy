/**
 * The 2024 federal income-tax brackets and the lookups over them: the tax
 * on a taxable income, the marginal rate and the effective rate. A bracket
 * covers the half-open interval [lower, upper); the top bracket has no upper
 * limit. Tax in a bracket is its base tax plus its rate times the income
 * above its lower bound, rounded to the cent.
 */
module TaxTable {
  import opened TaxTypes
  import opened Money
  import opened StatusText

  datatype Upper = Bounded(limit: real) | Unbounded

  datatype Bracket = Bracket(lower: real, upper: Upper, rate: real, baseTax: real)

  /** The errors the lookups raise: ValueError for an unknown status or no bracket, KeyError for a missing key. */
  datatype TaxError =
    | InvalidFilingStatus(text: string)
    | NoBracketFound(income: real)
    | MissingStatusKey(key: string)

  /** `min_income <= x < max_income`. */
  predicate Contains(b: Bracket, x: real) {
    b.lower <= x && (b.upper.Unbounded? || x < b.upper.limit)
  }

  /** The tax formula of one bracket, before rounding. */
  function RawTax(b: Bracket, x: real): real {
    b.baseTax + (x - b.lower) * b.rate
  }

  // ------------------------------------------------------------------ tables

  /** The bracket table of each filing status. */
  function Brackets2024(st: FilingStatus): (bs: seq<Bracket>)
    ensures |bs| == 7
  {
    match st
    case Single => [
      Bracket(0.0, Bounded(11600.0), 0.10, 0.0),
      Bracket(11600.0, Bounded(47150.0), 0.12, 1160.0),
      Bracket(47150.0, Bounded(100525.0), 0.22, 5426.0),
      Bracket(100525.0, Bounded(191950.0), 0.24, 17168.50),
      Bracket(191950.0, Bounded(243725.0), 0.32, 39110.50),
      Bracket(243725.0, Bounded(609350.0), 0.35, 55678.50),
      Bracket(609350.0, Unbounded, 0.37, 183647.25)]
    case MarriedFilingJointly => JointBrackets()
    case MarriedFilingSeparately => [
      Bracket(0.0, Bounded(11600.0), 0.10, 0.0),
      Bracket(11600.0, Bounded(47150.0), 0.12, 1160.0),
      Bracket(47150.0, Bounded(100525.0), 0.22, 5426.0),
      Bracket(100525.0, Bounded(191950.0), 0.24, 17168.50),
      Bracket(191950.0, Bounded(243725.0), 0.32, 39110.50),
      Bracket(243725.0, Bounded(365600.0), 0.35, 55678.50),
      Bracket(365600.0, Unbounded, 0.37, 98334.75)]
    case HeadOfHousehold => [
      Bracket(0.0, Bounded(16550.0), 0.10, 0.0),
      Bracket(16550.0, Bounded(63100.0), 0.12, 1655.0),
      Bracket(63100.0, Bounded(100500.0), 0.22, 7241.0),
      Bracket(100500.0, Bounded(191950.0), 0.24, 15469.0),
      Bracket(191950.0, Bounded(243700.0), 0.32, 37417.0),
      Bracket(243700.0, Bounded(609350.0), 0.35, 53977.0),
      Bracket(609350.0, Unbounded, 0.37, 181954.50)]
    case QualifyingWidow => JointBrackets()
  }

  /** Married filing jointly and qualifying widow(er) share one table. */
  function JointBrackets(): (bs: seq<Bracket>)
    ensures |bs| == 7
  {
    [ Bracket(0.0, Bounded(23200.0), 0.10, 0.0),
      Bracket(23200.0, Bounded(94300.0), 0.12, 2320.0),
      Bracket(94300.0, Bounded(201050.0), 0.22, 10852.0),
      Bracket(201050.0, Bounded(383900.0), 0.24, 34337.0),
      Bracket(383900.0, Bounded(487450.0), 0.32, 78221.0),
      Bracket(487450.0, Bounded(731200.0), 0.35, 111357.0),
      Bracket(731200.0, Unbounded, 0.37, 196669.50)]
  }

  /**
   * Two neighbouring brackets: the first ends where the second starts, the
   * second's base tax is the first's formula at that point (so tax is
   * continuous), and rates do not fall.
   */
  predicate Adjacent(a: Bracket, b: Bracket) {
    a.upper == Bounded(b.lower) && a.lower < b.lower
    && b.baseTax == RawTax(a, b.lower)
    && 0.0 <= a.rate <= b.rate
  }

  /**
   * A table that starts at 0 with no base tax, chains its brackets without
   * gaps or overlaps, and ends with an unbounded bracket.
   */
  predicate WellFormed(bs: seq<Bracket>) {
    |bs| > 0
    && bs[0].lower == 0.0 && bs[0].baseTax == 0.0 && bs[0].rate >= 0.0
    && bs[|bs| - 1].upper.Unbounded?
    && forall i | 0 <= i < |bs| - 1 :: Adjacent(bs[i], bs[i + 1])
  }

  /** All five 2024 tables are well formed, and in every one the top rate is 37%. */
  lemma BracketsWellFormed(st: FilingStatus)
    ensures WellFormed(Brackets2024(st))
    ensures Brackets2024(st)[6].rate == 0.37
  {
    var bs := Brackets2024(st);
    assert Adjacent(bs[0], bs[1]);
    assert Adjacent(bs[1], bs[2]);
    assert Adjacent(bs[2], bs[3]);
    assert Adjacent(bs[3], bs[4]);
    assert Adjacent(bs[4], bs[5]);
    assert Adjacent(bs[5], bs[6]);
    forall i | 0 <= i < |bs| - 1 ensures Adjacent(bs[i], bs[i + 1]) {
      assert i in {0, 1, 2, 3, 4, 5};
    }
  }

  // ------------------------------------------------------------------ search

  /** The first bracket at index `i` or later that contains `x`, as the source's `for` loop finds it. */
  function FirstMatchFrom(bs: seq<Bracket>, x: real, i: nat): (r: Option<nat>)
    requires i <= |bs|
    ensures r.Some? ==> i <= r.value < |bs| && Contains(bs[r.value], x)
    ensures r.Some? ==> forall j | i <= j < r.value :: !Contains(bs[j], x)
    ensures r.None? ==> forall j | i <= j < |bs| :: !Contains(bs[j], x)
    decreases |bs| - i
  {
    if i == |bs| then None
    else if Contains(bs[i], x) then Some(i)
    else FirstMatchFrom(bs, x, i + 1)
  }

  function FirstMatch(bs: seq<Bracket>, x: real): Option<nat> {
    FirstMatchFrom(bs, x, 0)
  }

  /** In a well-formed table, every earlier bracket ends at or below where a later one starts. */
  lemma {:induction false} EndsBefore(bs: seq<Bracket>, i: nat, j: nat)
    requires WellFormed(bs) && i < j < |bs|
    ensures bs[i].upper.Bounded? && bs[i].upper.limit <= bs[j].lower
    ensures bs[i].lower < bs[j].lower
    ensures bs[i].rate <= bs[j].rate
    decreases j - i
  {
    assert Adjacent(bs[i], bs[i + 1]);
    if i + 1 < j {
      EndsBefore(bs, i + 1, j);
    }
  }

  /** Every bracket of a well-formed table contains its own lower bound. */
  lemma LowerInside(bs: seq<Bracket>, i: nat)
    requires WellFormed(bs) && i < |bs|
    ensures Contains(bs[i], bs[i].lower)
  {
    if i < |bs| - 1 {
      assert Adjacent(bs[i], bs[i + 1]);
    }
  }

  /** At most one bracket of a well-formed table contains any income. */
  lemma BracketUnique(bs: seq<Bracket>, x: real, i: nat, j: nat)
    requires WellFormed(bs) && i < |bs| && j < |bs|
    requires Contains(bs[i], x) && Contains(bs[j], x)
    ensures i == j
  {
    if i < j {
      EndsBefore(bs, i, j);
    } else if j < i {
      EndsBefore(bs, j, i);
    }
  }

  /** From any bracket whose lower bound `x` reaches, the search succeeds. */
  lemma {:induction false} MatchExistsFrom(bs: seq<Bracket>, x: real, i: nat)
    requires WellFormed(bs) && i < |bs| && bs[i].lower <= x
    ensures FirstMatchFrom(bs, x, i).Some?
    decreases |bs| - i
  {
    if !Contains(bs[i], x) {
      assert i < |bs| - 1;
      assert Adjacent(bs[i], bs[i + 1]);
      MatchExistsFrom(bs, x, i + 1);
    }
  }

  /**
   * Exactly one bracket contains any non-negative income, and the search
   * finds it: the "no tax bracket found" error cannot happen.
   */
  lemma MatchExists(bs: seq<Bracket>, x: real)
    requires WellFormed(bs) && x >= 0.0
    ensures FirstMatch(bs, x).Some?
    ensures forall j | 0 <= j < |bs| && Contains(bs[j], x) :: j == FirstMatch(bs, x).value
  {
    MatchExistsFrom(bs, x, 0);
    var k := FirstMatch(bs, x).value;
    forall j | 0 <= j < |bs| && Contains(bs[j], x) ensures j == k {
      BracketUnique(bs, x, j, k);
    }
  }

  /** Half-open brackets: income exactly at a boundary belongs to the upper bracket. */
  lemma BoundaryGoesUp(bs: seq<Bracket>, i: nat)
    requires WellFormed(bs) && 0 < i < |bs|
    ensures FirstMatch(bs, bs[i].lower) == Some(i)
    ensures !Contains(bs[i - 1], bs[i].lower)
  {
    assert Adjacent(bs[i - 1], bs[i]);
    EndsBefore(bs, 0, i);
    LowerInside(bs, i);
    MatchExists(bs, bs[i].lower);
  }

  /** Tax is continuous across a boundary: both neighbouring formulas agree there. */
  lemma ContinuousAtBoundary(bs: seq<Bracket>, i: nat)
    requires WellFormed(bs) && 0 < i < |bs|
    ensures RawTax(bs[i - 1], bs[i].lower) == RawTax(bs[i], bs[i].lower)
  {
    assert Adjacent(bs[i - 1], bs[i]);
  }

  /** The base tax where a later bracket starts is at least an earlier bracket's tax anywhere inside it. */
  lemma {:induction false} BaseTaxCovers(bs: seq<Bracket>, i: nat, j: nat, x: real)
    requires WellFormed(bs) && i < j < |bs| && Contains(bs[i], x)
    ensures RawTax(bs[i], x) <= bs[j].baseTax
    decreases j - i
  {
    assert Adjacent(bs[i], bs[i + 1]);
    var b := bs[i];
    RawTaxMonotoneIn(b, x, bs[i + 1].lower);
    assert RawTax(b, x) <= bs[i + 1].baseTax;
    if i + 1 < j {
      var c := bs[i + 1];
      LowerInside(bs, i + 1);
      BaseTaxCovers(bs, i + 1, j, c.lower);
      assert RawTax(c, c.lower) == c.baseTax;
    }
  }

  /** Before rounding, tax never falls as income rises. */
  lemma RawTaxNonDecreasing(bs: seq<Bracket>, x: real, y: real)
    requires WellFormed(bs) && 0.0 <= x <= y
    ensures FirstMatch(bs, x).Some? && FirstMatch(bs, y).Some?
    ensures RawTax(bs[FirstMatch(bs, x).value], x) <= RawTax(bs[FirstMatch(bs, y).value], y)
  {
    MatchExists(bs, x);
    MatchExists(bs, y);
    var i := FirstMatch(bs, x).value;
    var j := FirstMatch(bs, y).value;
    if j < i {
      EndsBefore(bs, j, i);
      assert false;
    }
    if j > 0 {
      EndsBefore(bs, 0, j);
    }
    if i == j {
      RawTaxMonotoneIn(bs[j], x, y);
    } else {
      BaseTaxCovers(bs, i, j, x);
      RawTaxMonotoneIn(bs[j], bs[j].lower, y);
    }
  }

  /** Inside one bracket with a non-negative rate, the formula does not fall. */
  lemma RawTaxMonotoneIn(b: Bracket, x: real, y: real)
    requires b.rate >= 0.0 && x <= y
    ensures RawTax(b, x) <= RawTax(b, y)
  {
    MulMonotone(x - b.lower, y - b.lower, b.rate);
  }

  /** Within a bracket, tax is non-negative and at most the bracket's rate times the whole income. */
  lemma {:induction false} RawTaxBounds(bs: seq<Bracket>, i: nat, x: real)
    requires WellFormed(bs) && i < |bs| && bs[i].lower <= x
    ensures 0.0 <= RawTax(bs[i], x) <= bs[i].rate * x
  {
    var b := bs[i];
    if i == 0 {
      assert RawTax(b, x) == x * b.rate;
    } else {
      assert Adjacent(bs[i - 1], b);
      EndsBefore(bs, 0, i - 1 + 1);
      RawTaxBounds(bs, i - 1, b.lower);
      var a := bs[i - 1];
      assert a.rate * b.lower <= b.rate * b.lower;
      assert RawTax(b, x) == RawTax(a, b.lower) + (x - b.lower) * b.rate;
      assert 0.0 <= (x - b.lower) * b.rate;
    }
  }

  // ------------------------------------------------------------- operations

  /**
   * `calculate_tax(taxable_income, filing_status)`: 0 for a non-positive
   * income (checked before the status), an error for an unknown status,
   * otherwise the rounded formula of the bracket containing the income.
   */
  function CalculateTax(taxableIncome: real, filingStatus: string): (r: Result<real, TaxError>)
    ensures taxableIncome <= 0.0 ==> r == Ok(0.0)
    ensures taxableIncome > 0.0 ==> (r.Err? <==> ParseStatusText(filingStatus).None?)
    ensures r.Err? ==> r.error == InvalidFilingStatus(filingStatus)
    ensures r.Ok? && taxableIncome > 0.0 ==>
      var bs := Brackets2024(ParseStatusText(filingStatus).value);
      exists i | 0 <= i < |bs| :: Contains(bs[i], taxableIncome) && r.value == RoundCents(RawTax(bs[i], taxableIncome))
    ensures r.Ok? ==> r.value >= 0.0
  {
    if taxableIncome <= 0.0 then Ok(0.0)
    else match ParseStatusText(filingStatus)
      case None => Err(InvalidFilingStatus(filingStatus))
      case Some(st) =>
        var bs := Brackets2024(st);
        BracketsWellFormed(st);
        MatchExists(bs, taxableIncome);
        match FirstMatch(bs, taxableIncome)
        case None => Err(NoBracketFound(taxableIncome))
        case Some(i) =>
          RawTaxBounds(bs, i, taxableIncome);
          RoundCentsNonNegative(RawTax(bs[i], taxableIncome));
          Ok(RoundCents(RawTax(bs[i], taxableIncome)))
  }

  /** The tax of a status given as the enum, whose value always parses. */
  function TaxFor(taxableIncome: real, st: FilingStatus): (r: real)
    ensures r >= 0.0
    ensures taxableIncome <= 0.0 ==> r == 0.0
    ensures CalculateTax(taxableIncome, st.Value()) == Ok(r)
  {
    ParseStatusValue(st);
    CalculateTax(taxableIncome, st.Value()).value
  }

  /** `tax_table_lookup` is `calculate_tax` under another name. */
  function TaxTableLookup(taxableIncome: real, filingStatus: string): (r: Result<real, TaxError>)
    ensures r == CalculateTax(taxableIncome, filingStatus)
  {
    CalculateTax(taxableIncome, filingStatus)
  }

  /** For a fixed status, tax never falls as taxable income rises. */
  lemma TaxNonDecreasing(st: FilingStatus, x: real, y: real)
    requires x <= y
    ensures TaxFor(x, st) <= TaxFor(y, st)
  {
    var bs := Brackets2024(st);
    BracketsWellFormed(st);
    if x > 0.0 {
      ParseStatusValue(st);
      RawTaxNonDecreasing(bs, x, y);
      RoundCentsMonotone(RawTax(bs[FirstMatch(bs, x).value], x), RawTax(bs[FirstMatch(bs, y).value], y));
    }
  }

  /** The tax of a positive income is the rounded formula of the one bracket that contains it. */
  lemma TaxForInBracket(st: FilingStatus, x: real, i: nat)
    requires x > 0.0 && i < 7 && Contains(Brackets2024(st)[i], x)
    ensures TaxFor(x, st) == RoundCents(RawTax(Brackets2024(st)[i], x))
  {
    var bs := Brackets2024(st);
    BracketsWellFormed(st);
    ParseStatusValue(st);
    MatchExists(bs, x);
  }

  /** In a well-formed table, the formula is at most the top bracket's rate on the whole income. */
  lemma RawTaxAtMostTopRate(bs: seq<Bracket>, i: nat, x: real)
    requires WellFormed(bs) && i < |bs| && bs[i].lower <= x && x >= 0.0
    ensures RawTax(bs[i], x) <= bs[|bs| - 1].rate * x
  {
    RawTaxBounds(bs, i, x);
    if i < |bs| - 1 {
      EndsBefore(bs, i, |bs| - 1);
    }
    MulMonotone(bs[i].rate, bs[|bs| - 1].rate, x);
  }

  /** Tax is at most the top (37%) rate on the whole income, give or take half a cent of rounding. */
  lemma TaxAtMostTopRate(st: FilingStatus, x: real)
    requires x > 0.0
    ensures TaxFor(x, st) <= 0.37 * x + 0.005
  {
    var bs := Brackets2024(st);
    BracketsWellFormed(st);
    MatchExists(bs, x);
    var i := FirstMatch(bs, x).value;
    TaxForInBracket(st, x, i);
    RawTaxAtMostTopRate(bs, i, x);
  }

  /** The test vector: single filer with taxable income 35,400 owes 1,160 + 23,800 × 12% = 4,016. */
  lemma TaxSingleExample(x: real)
    requires x == 35400.0
    ensures TaxFor(x, Single) == 4016.0
    ensures 4000.0 < TaxFor(x, Single) < 4100.0
  {
    var b := Brackets2024(Single)[1];
    assert b == Bracket(11600.0, Bounded(47150.0), 0.12, 1160.0);
    TaxForInBracket(Single, x, 1);
    assert RawTax(b, x) == 4016.0;
    RoundCentsOfCents(4016.0);
  }

  /**
   * `get_marginal_tax_rate`: the rate of the bracket containing the income;
   * no check for a non-positive income, so an income below every bracket
   * falls through to the top rate. An unknown status is a key error.
   */
  function MarginalTaxRate(taxableIncome: real, filingStatus: string): (r: Result<real, TaxError>)
    ensures r.Err? <==> ParseStatusText(filingStatus).None?
    ensures r.Err? ==> r.error == MissingStatusKey(Normalize(filingStatus))
    ensures r.Ok? ==>
      var bs := Brackets2024(ParseStatusText(filingStatus).value);
      (exists i | 0 <= i < |bs| :: Contains(bs[i], taxableIncome) && r.value == bs[i].rate)
      || ((forall i | 0 <= i < |bs| :: !Contains(bs[i], taxableIncome)) && r.value == bs[|bs| - 1].rate)
  {
    match ParseStatusText(filingStatus)
    case None => Err(MissingStatusKey(Normalize(filingStatus)))
    case Some(st) =>
      var bs := Brackets2024(st);
      match FirstMatch(bs, taxableIncome)
      case Some(i) => Ok(bs[i].rate)
      case None => Ok(bs[|bs| - 1].rate)
  }

  /** A non-negative income gets its own bracket's rate; a negative one gets 37%. */
  lemma MarginalRateCases(st: FilingStatus, x: real)
    ensures MarginalTaxRate(x, st.Value()).Ok?
    ensures x < 0.0 ==> MarginalTaxRate(x, st.Value()) == Ok(0.37)
    ensures x >= 0.0 ==> forall i | 0 <= i < 7 && Contains(Brackets2024(st)[i], x) ::
      MarginalTaxRate(x, st.Value()) == Ok(Brackets2024(st)[i].rate)
  {
    var bs := Brackets2024(st);
    ParseStatusValue(st);
    BracketsWellFormed(st);
    if x >= 0.0 {
      MatchExists(bs, x);
    } else {
      assert forall i | 0 <= i < |bs| :: !Contains(bs[i], x) by {
        forall i | 0 <= i < |bs| ensures !Contains(bs[i], x) {
          if i > 0 {
            EndsBefore(bs, 0, i);
          }
        }
      }
    }
  }

  /** `get_effective_tax_rate`: 0 for a non-positive income, otherwise tax over income. */
  function EffectiveTaxRate(taxableIncome: real, filingStatus: string): (r: Result<real, TaxError>)
    ensures taxableIncome <= 0.0 ==> r == Ok(0.0)
    ensures taxableIncome > 0.0 ==> (r.Err? <==> CalculateTax(taxableIncome, filingStatus).Err?)
    ensures r.Ok? ==> r.value >= 0.0
    ensures taxableIncome > 0.0 && r.Ok? ==>
      CalculateTax(taxableIncome, filingStatus).Ok? && IsRate(r.value, CalculateTax(taxableIncome, filingStatus).value, taxableIncome)
  {
    if taxableIncome <= 0.0 then Ok(0.0)
    else
      var t := CalculateTax(taxableIncome, filingStatus);
      if t.Err? then Err(t.error)
      else
        Ok(Quotient(t.value, taxableIncome))
  }

  /** For a status of the enumeration the effective rate exists and stays below the top rate, up to half a cent of rounding. */
  lemma EffectiveRateAtMostTopRate(st: FilingStatus, x: real)
    requires x > 0.0
    ensures EffectiveTaxRate(x, st.Value()).Ok?
    ensures EffectiveTaxRate(x, st.Value()).value * x <= 0.37 * x + 0.005
  {
    TaxAtMostTopRate(st, x);
    assert CalculateTax(x, st.Value()) == Ok(TaxFor(x, st));
  }
}
