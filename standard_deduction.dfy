/**
 * The 2024 standard deduction: a base amount per filing status, plus one
 * additional amount for each of up to four conditions (taxpayer 65 or older,
 * taxpayer blind, and, for joint filers and qualifying widow(er)s only,
 * spouse 65 or older and spouse blind). Also the choice between the
 * standard deduction and itemizing.
 */
module StandardDeduction {
  import opened TaxTypes
  import opened Money
  import opened StatusText

  datatype DeductionError = UnknownFilingStatus(text: string)

  datatype DeductionKind = Standard | Itemized

  /** `STANDARD_DEDUCTION_2024`. */
  function BaseDeduction(st: FilingStatus): real {
    match st
    case Single => 14600.0
    case MarriedFilingJointly => 29200.0
    case MarriedFilingSeparately => 14600.0
    case HeadOfHousehold => 21900.0
    case QualifyingWidow => 29200.0
  }

  /** `ADDITIONAL_DEDUCTION_2024`: the amount each condition adds. */
  function AdditionalDeduction(st: FilingStatus): real {
    match st
    case Single => 1950.0
    case MarriedFilingJointly => 1550.0
    case MarriedFilingSeparately => 1550.0
    case HeadOfHousehold => 1950.0
    case QualifyingWidow => 1550.0
  }

  /** `age and age >= 65`: a missing age (and, in the source, an age of 0) is falsy. */
  predicate Is65OrOlder(age: Option<int>) {
    age.Some? && age.value != 0 && age.value >= 65
  }

  /** The statuses whose spouse conditions count: married filing jointly and qualifying widow(er). */
  predicate SpouseCounts(st: FilingStatus) {
    st == MarriedFilingJointly || st == QualifyingWidow
  }

  function B2I(b: bool): nat { if b then 1 else 0 }

  /** How many of the four conditions apply. */
  function ConditionCount(st: FilingStatus, age: Option<int>, blind: bool, spouseAge: Option<int>, spouseBlind: bool): (n: nat)
    ensures n <= 4
    ensures !SpouseCounts(st) ==> n <= 2
  {
    B2I(Is65OrOlder(age)) + B2I(blind)
    + (if SpouseCounts(st) then B2I(Is65OrOlder(spouseAge)) + B2I(spouseBlind) else 0)
  }

  /** The deduction of a known status: the base plus one additional amount per condition. */
  function DeductionFor(st: FilingStatus, age: Option<int>, blind: bool, spouseAge: Option<int>, spouseBlind: bool): real {
    BaseDeduction(st) + AdditionalDeduction(st) * ConditionCount(st, age, blind, spouseAge, spouseBlind) as real
  }

  /** The specification of `get_standard_deduction`: an unknown status (after normalisation) is an error. */
  function StandardDeduction(filingStatus: string, age: Option<int>, blind: bool, spouseAge: Option<int>, spouseBlind: bool)
    : Result<real, DeductionError>
  {
    match ParseStatusText(filingStatus)
    case None => Err(UnknownFilingStatus(filingStatus))
    case Some(st) => Ok(DeductionFor(st, age, blind, spouseAge, spouseBlind))
  }

  /**
   * `get_standard_deduction`, step by step: start from the base amount and
   * add the additional amount once per condition that holds.
   */
  method GetStandardDeduction(filingStatus: string, taxpayerAge: Option<int>, taxpayerBlind: bool,
                              spouseAge: Option<int>, spouseBlind: bool)
    returns (r: Result<real, DeductionError>)
    ensures r == StandardDeduction(filingStatus, taxpayerAge, taxpayerBlind, spouseAge, spouseBlind)
  {
    var parsed := ParseStatusText(filingStatus);
    if parsed.None? {
      return Err(UnknownFilingStatus(filingStatus));
    }
    var st := parsed.value;
    var deduction := BaseDeduction(st);
    var additional := AdditionalDeduction(st);
    if taxpayerAge.Some? && taxpayerAge.value != 0 && taxpayerAge.value >= 65 {
      deduction := deduction + additional;
    }
    ghost var sum := BaseDeduction(st) + (if Is65OrOlder(taxpayerAge) then additional else 0.0);
    assert deduction == sum;
    if taxpayerBlind {
      deduction := deduction + additional;
    }
    sum := sum + (if taxpayerBlind then additional else 0.0);
    assert deduction == sum;
    if st == MarriedFilingJointly || st == QualifyingWidow {
      if spouseAge.Some? && spouseAge.value != 0 && spouseAge.value >= 65 {
        deduction := deduction + additional;
      }
      if spouseBlind {
        deduction := deduction + additional;
      }
    }
    sum := sum + (if SpouseCounts(st) && Is65OrOlder(spouseAge) then additional else 0.0)
               + (if SpouseCounts(st) && spouseBlind then additional else 0.0);
    assert deduction == sum;
    DeductionAsSum(st, taxpayerAge, taxpayerBlind, spouseAge, spouseBlind);
    return Ok(deduction);
  }

  /** The deduction as the base plus the additional amount once for each condition that holds. */
  lemma DeductionAsSum(st: FilingStatus, age: Option<int>, blind: bool, spouseAge: Option<int>, spouseBlind: bool)
    ensures DeductionFor(st, age, blind, spouseAge, spouseBlind) ==
      var a := AdditionalDeduction(st);
      BaseDeduction(st) + (if Is65OrOlder(age) then a else 0.0) + (if blind then a else 0.0)
      + (if SpouseCounts(st) && Is65OrOlder(spouseAge) then a else 0.0)
      + (if SpouseCounts(st) && spouseBlind then a else 0.0)
  {
    var a := AdditionalDeduction(st);
    var n := ConditionCount(st, age, blind, spouseAge, spouseBlind);
    assert n == 0 || n == 1 || n == 2 || n == 3 || n == 4;
    assert a * n as real == a * (B2I(Is65OrOlder(age)) + B2I(blind)) as real
      + a * (if SpouseCounts(st) then B2I(Is65OrOlder(spouseAge)) + B2I(spouseBlind) else 0) as real;
  }

  /** Every status value is accepted; any text that does not normalise to one is refused. */
  lemma StandardDeductionErrors(filingStatus: string, age: Option<int>, blind: bool, spouseAge: Option<int>, spouseBlind: bool)
    ensures StandardDeduction(filingStatus, age, blind, spouseAge, spouseBlind).Err?
        <==> ParseStatusText(filingStatus).None?
    ensures forall st: FilingStatus ::
      StandardDeduction(st.Value(), age, blind, spouseAge, spouseBlind) == Ok(DeductionFor(st, age, blind, spouseAge, spouseBlind))
  {
    forall st: FilingStatus
      ensures StandardDeduction(st.Value(), age, blind, spouseAge, spouseBlind) == Ok(DeductionFor(st, age, blind, spouseAge, spouseBlind))
    {
      ParseStatusValue(st);
    }
  }

  /** The deduction lies between the base and the base plus four additional amounts (two if the spouse does not count). */
  lemma DeductionBounds(st: FilingStatus, age: Option<int>, blind: bool, spouseAge: Option<int>, spouseBlind: bool)
    ensures BaseDeduction(st) <= DeductionFor(st, age, blind, spouseAge, spouseBlind)
    ensures DeductionFor(st, age, blind, spouseAge, spouseBlind) <= BaseDeduction(st) + 4.0 * AdditionalDeduction(st)
    ensures !SpouseCounts(st) ==> DeductionFor(st, age, blind, spouseAge, spouseBlind) <= BaseDeduction(st) + 2.0 * AdditionalDeduction(st)
  {
    var n := ConditionCount(st, age, blind, spouseAge, spouseBlind);
    MulMonotone(0.0, n as real, AdditionalDeduction(st));
    MulMonotone(n as real, 4.0, AdditionalDeduction(st));
    if !SpouseCounts(st) {
      MulMonotone(n as real, 2.0, AdditionalDeduction(st));
    }
  }

  /** Blindness of the taxpayer adds exactly one additional amount. */
  lemma BlindAddsOne(st: FilingStatus, age: Option<int>, spouseAge: Option<int>, spouseBlind: bool)
    ensures DeductionFor(st, age, true, spouseAge, spouseBlind)
         == DeductionFor(st, age, false, spouseAge, spouseBlind) + AdditionalDeduction(st)
  {
  }

  /** Reaching 65 adds exactly one additional amount; a missing age or one under 65 adds nothing. */
  lemma AgeAddsOne(st: FilingStatus, young: Option<int>, senior: Option<int>, blind: bool, spouseAge: Option<int>, spouseBlind: bool)
    requires Is65OrOlder(senior)
    ensures DeductionFor(st, senior, blind, spouseAge, spouseBlind)
         == DeductionFor(st, None, blind, spouseAge, spouseBlind) + AdditionalDeduction(st)
    ensures (young.None? || young.value < 65) ==>
      DeductionFor(st, young, blind, spouseAge, spouseBlind) == DeductionFor(st, None, blind, spouseAge, spouseBlind)
  {
  }

  /** The spouse's age and blindness change the deduction only for joint filers and qualifying widow(er)s. */
  lemma SpouseOnlyWhenJoint(st: FilingStatus, age: Option<int>, blind: bool,
                            spouseAge: Option<int>, spouseBlind: bool, otherAge: Option<int>, otherBlind: bool)
    ensures !SpouseCounts(st) ==>
      DeductionFor(st, age, blind, spouseAge, spouseBlind) == DeductionFor(st, age, blind, otherAge, otherBlind)
    ensures SpouseCounts(st) ==>
      DeductionFor(st, age, blind, spouseAge, true) == DeductionFor(st, age, blind, spouseAge, false) + AdditionalDeduction(st)
    ensures SpouseCounts(st) && Is65OrOlder(otherAge) ==>
      DeductionFor(st, age, blind, otherAge, spouseBlind) == DeductionFor(st, age, blind, None, spouseBlind) + AdditionalDeduction(st)
  {
  }

  /** Adding conditions never lowers the deduction. */
  lemma DeductionMonotone(st: FilingStatus, age: Option<int>, blind: bool, spouseAge: Option<int>, spouseBlind: bool,
                          age': Option<int>, blind': bool, spouseAge': Option<int>, spouseBlind': bool)
    requires Is65OrOlder(age) ==> Is65OrOlder(age')
    requires blind ==> blind'
    requires Is65OrOlder(spouseAge) ==> Is65OrOlder(spouseAge')
    requires spouseBlind ==> spouseBlind'
    ensures DeductionFor(st, age, blind, spouseAge, spouseBlind) <= DeductionFor(st, age', blind', spouseAge', spouseBlind')
  {
    ConditionCountMonotone(st, age, blind, spouseAge, spouseBlind, age', blind', spouseAge', spouseBlind');
    MulMonotone(ConditionCount(st, age, blind, spouseAge, spouseBlind) as real,
                ConditionCount(st, age', blind', spouseAge', spouseBlind') as real, AdditionalDeduction(st));
  }

  /** Adding conditions never lowers their count. */
  lemma ConditionCountMonotone(st: FilingStatus, age: Option<int>, blind: bool, spouseAge: Option<int>, spouseBlind: bool,
                               age': Option<int>, blind': bool, spouseAge': Option<int>, spouseBlind': bool)
    requires Is65OrOlder(age) ==> Is65OrOlder(age')
    requires blind ==> blind'
    requires Is65OrOlder(spouseAge) ==> Is65OrOlder(spouseAge')
    requires spouseBlind ==> spouseBlind'
    ensures ConditionCount(st, age, blind, spouseAge, spouseBlind) <= ConditionCount(st, age', blind', spouseAge', spouseBlind')
  {
  }

  /** The documented amounts: single 14,600, joint 29,200, single aged 66 16,550. */
  lemma DeductionExamples(single: string, joint: string)
    requires single == "single" && joint == "married_filing_jointly"
    ensures StandardDeduction(single, None, false, None, false) == Ok(14600.0)
    ensures StandardDeduction(joint, None, false, None, false) == Ok(29200.0)
    ensures StandardDeduction(single, Some(66), false, None, false) == Ok(16550.0)
  {
    ParseStatusValue(Single);
    ParseStatusValue(MarriedFilingJointly);
  }

  /** `should_itemize`: itemize exactly when the itemized total exceeds the standard deduction. */
  function ShouldItemize(filingStatus: string, totalItemized: real, age: Option<int>, blind: bool,
                         spouseAge: Option<int>, spouseBlind: bool): (r: Result<bool, DeductionError>)
    ensures r.Err? <==> StandardDeduction(filingStatus, age, blind, spouseAge, spouseBlind).Err?
    ensures r.Ok? ==> (r.value <==> totalItemized > StandardDeduction(filingStatus, age, blind, spouseAge, spouseBlind).value)
  {
    match StandardDeduction(filingStatus, age, blind, spouseAge, spouseBlind)
    case Err(e) => Err(e)
    case Ok(standard) => Ok(totalItemized > standard)
  }

  /**
   * `get_deduction_amount`: the standard deduction when nothing is itemized
   * or the itemized total does not exceed it, otherwise the itemized total.
   */
  function DeductionAmount(filingStatus: string, itemized: Option<real>, age: Option<int>, blind: bool,
                           spouseAge: Option<int>, spouseBlind: bool): (r: Result<(real, DeductionKind), DeductionError>)
    ensures r.Err? <==> StandardDeduction(filingStatus, age, blind, spouseAge, spouseBlind).Err?
    ensures r.Ok? ==>
      var standard := StandardDeduction(filingStatus, age, blind, spouseAge, spouseBlind).value;
      && (itemized.None? ==> r.value == (standard, Standard))
      && (itemized.Some? ==> r.value.0 == Max(standard, itemized.value))
      && (r.value.1 == Itemized <==> itemized.Some? && itemized.value > standard)
  {
    match StandardDeduction(filingStatus, age, blind, spouseAge, spouseBlind)
    case Err(e) => Err(e)
    case Ok(standard) =>
      if itemized.None? || itemized.value <= standard then Ok((standard, Standard))
      else Ok((itemized.value, Itemized))
  }

  /** Itemizing is chosen by the amount function exactly when `should_itemize` says so. */
  lemma DeductionChoiceAgrees(filingStatus: string, totalItemized: real, age: Option<int>, blind: bool,
                              spouseAge: Option<int>, spouseBlind: bool)
    requires ParseStatusText(filingStatus).Some?
    ensures ShouldItemize(filingStatus, totalItemized, age, blind, spouseAge, spouseBlind).Ok?
    ensures DeductionAmount(filingStatus, Some(totalItemized), age, blind, spouseAge, spouseBlind).Ok?
    ensures ShouldItemize(filingStatus, totalItemized, age, blind, spouseAge, spouseBlind).value
        <==> DeductionAmount(filingStatus, Some(totalItemized), age, blind, spouseAge, spouseBlind).value.1 == Itemized
  {
  }
}
