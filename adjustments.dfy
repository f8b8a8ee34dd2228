/**
 * Schedule 1 adjustments: the educator-expense deduction ($300 per eligible
 * educator), the student-loan-interest deduction ($2,500 at most, phased out
 * linearly over a MAGI window) and the excess-business-loss add-back.
 *
 * Each takes the filing status, and its married-filing-jointly branch is
 * meant to fire for a joint return. As written, the source tests that branch
 * by comparing `str(filing_status)` with the enum member; `str()` of a member
 * is "FilingStatus.MARRIED_FILING_JOINTLY", never equal to the member's value,
 * so only a caller passing the plain string "married_filing_jointly" reaches
 * it. The `...AsWritten` functions model that test; the functions without
 * the suffix take the status as the enum and model the intended joint rule,
 * and are the ones the rest of the model uses.
 */
module Adjustments {
  import opened TaxTypes
  import opened Money

  const EducatorLimit: real := 300.0
  const StudentLoanMax: real := 2500.0

  // ------------------------------------------------------ the joint branch

  /** What a caller may pass as `filing_status`: an enum member or a plain string. */
  datatype StatusArg = Member(status: FilingStatus) | Text(text: string)

  /** `str(filing_status)`. */
  function StrOf(arg: StatusArg): string {
    match arg
    case Member(st) => "FilingStatus." + st.Name()
    case Text(s) => s
  }

  /** The source's test `str(filing_status) == FilingStatus.MARRIED_FILING_JOINTLY`. */
  predicate JointAsWritten(arg: StatusArg) {
    StrOf(arg) == MarriedFilingJointly.Value()
  }

  /** The intended test: the status is married filing jointly. */
  predicate Joint(st: FilingStatus) {
    st == MarriedFilingJointly
  }

  /** As written, no enum member reaches the joint branch, while the plain string does. */
  lemma JointBranchAsWrittenCases()
    ensures forall st: FilingStatus :: !JointAsWritten(Member(st))
    ensures JointAsWritten(Text(MarriedFilingJointly.Value()))
    ensures Joint(MarriedFilingJointly)
  {
    forall st: FilingStatus ensures !JointAsWritten(Member(st)) {
      assert StrOf(Member(st))[0] == 'F';
      assert MarriedFilingJointly.Value()[0] == 'm';
    }
  }

  // ------------------------------------------------------------- educator

  /** The educator deduction for a given answer to "is this a joint return?". */
  function EducatorExpenseWith(amountPaid: real, isEligible: bool, spouseAmountPaid: real, spouseEligible: bool,
                               joint: bool): real
  {
    (if isEligible then Min(amountPaid, EducatorLimit) else 0.0)
    + (if joint && spouseEligible then Min(spouseAmountPaid, EducatorLimit) else 0.0)
  }

  /**
   * The educator deduction: the taxpayer's outlay capped at $300 if eligible,
   * plus the spouse's capped outlay on a joint return with an eligible spouse.
   */
  function EducatorExpense(amountPaid: real, isEligible: bool, spouseAmountPaid: real, spouseEligible: bool,
                           st: FilingStatus): (r: real)
    ensures r <= 2.0 * EducatorLimit
    ensures !(Joint(st) && spouseEligible) ==> r <= EducatorLimit
    ensures !isEligible && !(Joint(st) && spouseEligible) ==> r == 0.0
    ensures amountPaid >= 0.0 && spouseAmountPaid >= 0.0 ==> r >= 0.0
  {
    EducatorExpenseWith(amountPaid, isEligible, spouseAmountPaid, spouseEligible, Joint(st))
  }

  /**
   * As written: the spouse's part is counted only when the status arrives as
   * the plain string; an enum member, married filing jointly included, gets
   * the deduction of a non-joint return.
   */
  function EducatorExpenseAsWritten(amountPaid: real, isEligible: bool, spouseAmountPaid: real, spouseEligible: bool,
                                    arg: StatusArg): (r: real)
    ensures arg.Member? ==> r == EducatorExpense(amountPaid, isEligible, spouseAmountPaid, spouseEligible, Single)
    ensures arg == Text(MarriedFilingJointly.Value()) ==>
      r == EducatorExpense(amountPaid, isEligible, spouseAmountPaid, spouseEligible, MarriedFilingJointly)
  {
    JointBranchAsWrittenCases();
    EducatorExpenseWith(amountPaid, isEligible, spouseAmountPaid, spouseEligible, JointAsWritten(arg))
  }

  /** `calculate_educator_expense`: accumulate the capped outlays one at a time. */
  method CalculateEducatorExpense(amountPaid: real, isEligible: bool, spouseAmountPaid: real, spouseEligible: bool,
                                  st: FilingStatus)
    returns (deduction: real)
    ensures deduction == EducatorExpense(amountPaid, isEligible, spouseAmountPaid, spouseEligible, st)
  {
    deduction := 0.0;
    if isEligible {
      deduction := deduction + Min(amountPaid, EducatorLimit);
    }
    if st == MarriedFilingJointly && spouseEligible {
      deduction := deduction + Min(spouseAmountPaid, EducatorLimit);
    }
  }

  /**
   * The deduction's value: the taxpayer's outlay capped at $300 when eligible,
   * plus the spouse's capped outlay exactly on a joint return with an eligible
   * spouse; off a joint return the spouse's outlay and eligibility play no part.
   */
  lemma EducatorExpenseShares(amountPaid: real, isEligible: bool, spouseAmountPaid: real, spouseEligible: bool,
                              st: FilingStatus, otherSpousePaid: real, otherSpouseEligible: bool)
    ensures var own := if isEligible then Min(amountPaid, EducatorLimit) else 0.0;
      && (Joint(st) && spouseEligible ==>
            EducatorExpense(amountPaid, isEligible, spouseAmountPaid, spouseEligible, st)
            == own + Min(spouseAmountPaid, EducatorLimit))
      && (!(Joint(st) && spouseEligible) ==>
            EducatorExpense(amountPaid, isEligible, spouseAmountPaid, spouseEligible, st) == own)
    ensures !Joint(st) ==>
      EducatorExpense(amountPaid, isEligible, spouseAmountPaid, spouseEligible, st)
      == EducatorExpense(amountPaid, isEligible, otherSpousePaid, otherSpouseEligible, st)
  {
  }

  /** The documented examples: 400 paid gives 300; a joint couple paying 400 each gives 600. */
  lemma EducatorExamples()
    ensures EducatorExpense(400.0, true, 0.0, false, Single) == 300.0
    ensures EducatorExpense(400.0, true, 400.0, true, MarriedFilingJointly) == 600.0
  {
  }

  /** As written, the joint example with the enum member gives 300, not the documented 600. */
  lemma EducatorJointAsWrittenCounterexample()
    ensures EducatorExpenseAsWritten(400.0, true, 400.0, true, Member(MarriedFilingJointly)) == 300.0
    ensures EducatorExpense(400.0, true, 400.0, true, MarriedFilingJointly) == 600.0
  {
    JointBranchAsWrittenCases();
  }

  // --------------------------------------------------- student loan interest

  /** The MAGI phase-out window: 165,000 to 195,000 for a joint return, 80,000 to 95,000 otherwise. */
  function PhaseOutStart(joint: bool): real { if joint then 165000.0 else 80000.0 }
  function PhaseOutEnd(joint: bool): real { if joint then 195000.0 else 95000.0 }

  /**
   * How far MAGI has gone into the window, as a fraction of its width: the
   * excess over the start divided by end less start (30,000 joint, 15,000
   * otherwise).
   */
  function ReductionRatio(magi: real, joint: bool): real {
    if joint then (magi - 165000.0) / 30000.0 else (magi - 80000.0) / 15000.0
  }

  /** The ratio is the excess MAGI over the window's width. */
  lemma ReductionRatioIsExcessOverRange(magi: real, joint: bool)
    ensures ReductionRatio(magi, joint) == (magi - PhaseOutStart(joint)) / (PhaseOutEnd(joint) - PhaseOutStart(joint))
  {
    if joint {
      assert PhaseOutEnd(joint) - PhaseOutStart(joint) == 30000.0;
    } else {
      assert PhaseOutEnd(joint) - PhaseOutStart(joint) == 15000.0;
    }
  }

  /** The deduction less the same fraction of it as MAGI has gone into the window, before rounding. */
  function PhasedOut(deduction: real, magi: real, joint: bool): real {
    deduction - deduction * ReductionRatio(magi, joint)
  }

  /** The student-loan-interest deduction for a given window. */
  function StudentLoanInterestWith(interestPaid: real, magi: real, joint: bool): real {
    var deduction := Min(interestPaid, StudentLoanMax);
    if magi <= PhaseOutStart(joint) then deduction
    else if magi >= PhaseOutEnd(joint) then 0.0
    else RoundCents(PhasedOut(deduction, magi, joint))
  }

  /**
   * The student-loan-interest deduction: the interest paid capped at 2,500,
   * in full at or below the window's start, nothing at or above its end, and
   * in between reduced in proportion to how far MAGI is into the window,
   * rounded to the cent.
   */
  function StudentLoanInterest(interestPaid: real, magi: real, st: FilingStatus): (r: real)
    ensures magi <= PhaseOutStart(Joint(st)) ==> r == Min(interestPaid, StudentLoanMax)
    ensures magi >= PhaseOutEnd(Joint(st)) ==> r == 0.0
  {
    StudentLoanInterestWith(interestPaid, magi, Joint(st))
  }

  /**
   * As written: the joint window applies only when the status arrives as the
   * plain string; an enum member gets the 80,000 to 95,000 window.
   */
  function StudentLoanInterestAsWritten(interestPaid: real, magi: real, arg: StatusArg): (r: real)
    ensures arg.Member? ==> r == StudentLoanInterest(interestPaid, magi, Single)
    ensures arg == Text(MarriedFilingJointly.Value()) ==> r == StudentLoanInterest(interestPaid, magi, MarriedFilingJointly)
  {
    JointBranchAsWrittenCases();
    StudentLoanInterestWith(interestPaid, magi, JointAsWritten(arg))
  }

  /** Capping a whole-cent payment at 2,500 leaves a whole-cent amount. */
  lemma CapIsCents(interestPaid: real)
    requires IsCents(interestPaid)
    ensures IsCents(Min(interestPaid, StudentLoanMax))
  {
    assert (StudentLoanMax * 100.0).Floor == 250000;
  }

  /** How far into the window a MAGI strictly inside it lies, as a fraction strictly between 0 and 1. */
  lemma PhaseOutRatio(magi: real, joint: bool)
    requires PhaseOutStart(joint) < magi < PhaseOutEnd(joint)
    ensures 0.0 < ReductionRatio(magi, joint) < 1.0
  {
  }

  /** A higher MAGI is further into the window. */
  lemma ReductionRatioMonotone(magi: real, magi': real, joint: bool)
    requires magi <= magi'
    ensures ReductionRatio(magi, joint) <= ReductionRatio(magi', joint)
  {
  }

  /** The phased-out deduction never goes below 0 nor above the capped interest (on whole-cent payments). */
  lemma StudentLoanInterestRange(interestPaid: real, magi: real, joint: bool)
    requires interestPaid >= 0.0 && IsCents(interestPaid)
    ensures 0.0 <= StudentLoanInterestWith(interestPaid, magi, joint) <= Min(interestPaid, StudentLoanMax)
  {
    var base := Min(interestPaid, StudentLoanMax);
    if PhaseOutStart(joint) < magi < PhaseOutEnd(joint) {
      PhaseOutRatio(magi, joint);
      CapIsCents(interestPaid);
      RoundedReductionRange(base, ReductionRatio(magi, joint), PhasedOut(base, magi, joint));
      assert StudentLoanInterestWith(interestPaid, magi, joint) == RoundCents(PhasedOut(base, magi, joint));
    }
  }

  /** Taking a fraction in [0, 1] off a whole-cent amount and rounding stays between 0 and the amount. */
  lemma RoundedReductionRange(base: real, ratio: real, reduced: real)
    requires 0.0 <= base && IsCents(base) && 0.0 <= ratio <= 1.0
    requires reduced == base - base * ratio
    ensures 0.0 <= RoundCents(reduced) <= base
  {
    ReduceByFraction(base, ratio);
    RoundCentsNonNegative(reduced);
    RoundCentsMonotone(reduced, base);
    RoundCentsOfCents(base);
  }

  /** Taking a larger fraction off leaves no more, after rounding. */
  lemma ReducedNonIncreasing(base: real, ratio: real, ratio': real, reduced: real, reduced': real)
    requires 0.0 <= base && ratio <= ratio'
    requires reduced == base - base * ratio && reduced' == base - base * ratio'
    ensures RoundCents(reduced') <= RoundCents(reduced)
  {
    MulMonotone(ratio, ratio', base);
    RoundCentsMonotone(reduced', reduced);
  }

  /** A higher MAGI never gives a larger deduction (on whole-cent payments). */
  lemma StudentLoanInterestNonIncreasing(interestPaid: real, magi: real, magi': real, joint: bool)
    requires interestPaid >= 0.0 && IsCents(interestPaid)
    requires magi <= magi'
    ensures StudentLoanInterestWith(interestPaid, magi', joint) <= StudentLoanInterestWith(interestPaid, magi, joint)
  {
    if PhaseOutStart(joint) < magi && magi' < PhaseOutEnd(joint) {
      InsideWindowNonIncreasing(interestPaid, magi, magi', joint);
    } else {
      StudentLoanInterestRange(interestPaid, magi, joint);
      StudentLoanInterestRange(interestPaid, magi', joint);
    }
  }

  lemma InsideWindowNonIncreasing(interestPaid: real, magi: real, magi': real, joint: bool)
    requires interestPaid >= 0.0
    requires PhaseOutStart(joint) < magi <= magi' < PhaseOutEnd(joint)
    ensures StudentLoanInterestWith(interestPaid, magi', joint) <= StudentLoanInterestWith(interestPaid, magi, joint)
  {
    var base := Min(interestPaid, StudentLoanMax);
    assert StudentLoanInterestWith(interestPaid, magi, joint) == RoundCents(PhasedOut(base, magi, joint));
    assert StudentLoanInterestWith(interestPaid, magi', joint) == RoundCents(PhasedOut(base, magi', joint));
    ReductionRatioMonotone(magi, magi', joint);
    ReducedNonIncreasing(base, ReductionRatio(magi, joint), ReductionRatio(magi', joint),
                         PhasedOut(base, magi, joint), PhasedOut(base, magi', joint));
  }

  /** The documented examples: 3,000 paid at 50,000 gives 2,500; at 87,500 gives 1,250; joint at 180,000 gives 1,250. */
  lemma StudentLoanInterestExamples()
    ensures StudentLoanInterest(3000.0, 50000.0, Single) == 2500.0
    ensures StudentLoanInterest(3000.0, 87500.0, Single) == 1250.0
    ensures StudentLoanInterest(3000.0, 180000.0, MarriedFilingJointly) == 1250.0
  {
    assert PhasedOut(2500.0, 87500.0, false) == 1250.0;
    assert PhasedOut(2500.0, 180000.0, true) == 1250.0;
    RoundCentsOfCents(1250.0);
  }

  /** As written, the joint example with the enum member gets the single window and phases out to 0. */
  lemma StudentLoanJointAsWrittenCounterexample()
    ensures StudentLoanInterestAsWritten(3000.0, 180000.0, Member(MarriedFilingJointly)) == 0.0
    ensures StudentLoanInterest(3000.0, 180000.0, MarriedFilingJointly) == 1250.0
  {
    JointBranchAsWrittenCases();
    StudentLoanInterestExamples();
  }

  // ------------------------------------------------------ excess business loss

  /** The excess-business-loss threshold: 610,000 for a joint return, 305,000 otherwise. */
  function LossThreshold(joint: bool): real { if joint then 610000.0 else 305000.0 }

  function ExcessBusinessLossWith(netBusinessLoss: real, joint: bool): real {
    if netBusinessLoss <= 0.0 then 0.0
    else if netBusinessLoss > LossThreshold(joint) then netBusinessLoss - LossThreshold(joint)
    else 0.0
  }

  /**
   * The excess business loss to add back to income: the part of a loss
   * (given as a positive number) above the threshold; nothing for a profit.
   */
  function ExcessBusinessLoss(netBusinessLoss: real, st: FilingStatus): (r: real)
    ensures netBusinessLoss <= 0.0 ==> r == 0.0
    ensures 0.0 <= r
    ensures netBusinessLoss > 0.0 ==> r < netBusinessLoss
    ensures r > 0.0 <==> netBusinessLoss > LossThreshold(Joint(st))
    ensures r > 0.0 ==> r + LossThreshold(Joint(st)) == netBusinessLoss
  {
    ExcessBusinessLossWith(netBusinessLoss, Joint(st))
  }

  /**
   * As written: the joint threshold applies only when the status arrives as
   * the plain string; an enum member gets the 305,000 threshold.
   */
  function ExcessBusinessLossAsWritten(netBusinessLoss: real, arg: StatusArg): (r: real)
    ensures arg.Member? ==> r == ExcessBusinessLoss(netBusinessLoss, Single)
    ensures arg == Text(MarriedFilingJointly.Value()) ==> r == ExcessBusinessLoss(netBusinessLoss, MarriedFilingJointly)
  {
    JointBranchAsWrittenCases();
    ExcessBusinessLossWith(netBusinessLoss, JointAsWritten(arg))
  }

  /** The documented examples: a 400,000 loss adds back 95,000 for a single filer and nothing jointly. */
  lemma ExcessBusinessLossExamples()
    ensures ExcessBusinessLoss(400000.0, Single) == 95000.0
    ensures ExcessBusinessLoss(400000.0, MarriedFilingJointly) == 0.0
  {
  }

  /** As written, the joint example with the enum member adds back 95,000 instead of nothing. */
  lemma ExcessBusinessLossJointAsWrittenCounterexample()
    ensures ExcessBusinessLossAsWritten(400000.0, Member(MarriedFilingJointly)) == 95000.0
    ensures ExcessBusinessLoss(400000.0, MarriedFilingJointly) == 0.0
  {
    JointBranchAsWrittenCases();
  }

  /** For every status other than married filing jointly, the as-written and intended rules agree. */
  lemma AsWrittenAgreesOffJoint(st: FilingStatus, paid: real, eligible: bool, spousePaid: real, spouseEligible: bool,
                                interestPaid: real, magi: real, loss: real)
    requires st != MarriedFilingJointly
    ensures EducatorExpenseAsWritten(paid, eligible, spousePaid, spouseEligible, Member(st))
         == EducatorExpense(paid, eligible, spousePaid, spouseEligible, st)
    ensures StudentLoanInterestAsWritten(interestPaid, magi, Member(st)) == StudentLoanInterest(interestPaid, magi, st)
    ensures ExcessBusinessLossAsWritten(loss, Member(st)) == ExcessBusinessLoss(loss, st)
  {
    JointBranchAsWrittenCases();
  }
}
