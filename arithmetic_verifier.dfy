/**
 * The arithmetic verifier: it recomputes each derived Form 1040 line from
 * the record's own lines, reports a mismatch of more than one cent as an
 * error, checks the sign and refund/owed rules, and adds two warnings for
 * unusual values. A return passes when there is no error, whatever the
 * warnings.
 */
module ArithmeticVerification {
  import opened TaxTypes
  import opened Money
  import opened Form1040
  import opened FormAgents

  /** Differences of up to a cent are treated as rounding. */
  const Tolerance: real := 0.01
  /** An AGI above this draws a warning. */
  const HighAgi: real := 1000000.0

  const VerifierName := "Arithmetic Verifier"
  const FormName := "1040"
  const Line9 := "Line 9"
  const Line11 := "Line 11"
  const Line15 := "Line 15"
  const Line24 := "Line 24"
  const Line34 := "Line 34"
  const Line37 := "Line 37"
  const Line9Message := "Total income calculation incorrect"
  const Line11Message := "AGI calculation incorrect"
  const Line15Message := "Taxable income calculation incorrect"
  const NegativeIncomeMessage := "Taxable income cannot be negative"
  const Line24Message := "Total tax calculation incorrect"
  const RefundMessage := "Refund calculation incorrect"
  const RefundOwesMessage := "Line 37 should be 0 when there is a refund"
  const OwedMessage := "Amount owed calculation incorrect"
  const OwedRefundMessage := "Line 34 should be 0 when tax is owed"
  const HighAgiWarning := "High AGI - verify accuracy"
  const ZeroTaxWarning := "Tax is $0 despite positive taxable income - verify"

  /** The recorded value is more than a cent away from the recomputed one. */
  predicate Off(actual: real, expected: real)
  {
    Abs(actual - expected) > Tolerance
  }

  function Mismatch(line: string, message: string, expected: real, actual: real): VerificationError
  {
    VerificationError(FormName, line, Arithmetic, message, Some(expected), Some(actual), Error)
  }

  function Violation(line: string, message: string, actual: real, severity: Severity): VerificationError
  {
    VerificationError(FormName, line, Logic, message, Some(0.0), Some(actual), severity)
  }

  // The recomputed value of each checked line, from the record's own lines.

  function ExpectedLine9(o: Form1040Outputs): real { o.line1z + o.line2b + o.line3b + o.line8 }
  function ExpectedLine11(o: Form1040Outputs): real { o.line9 - o.line10 }
  function ExpectedLine15(o: Form1040Outputs): real { Max(0.0, o.line11 - o.line12) }
  function ExpectedLine24(o: Form1040Outputs): real { o.line16 - o.line19 + o.line23 }

  // The errors each check reports, in the order they are made.

  function Line9Errors(o: Form1040Outputs): (r: seq<VerificationError>)
    ensures |r| <= 1 && (r != [] ==> r[0].line == Line9)
  {
    if Off(o.line9, ExpectedLine9(o)) then [Mismatch(Line9, Line9Message, ExpectedLine9(o), o.line9)] else []
  }

  function Line11Errors(o: Form1040Outputs): (r: seq<VerificationError>)
    ensures |r| <= 1 && (r != [] ==> r[0].line == Line11)
  {
    if Off(o.line11, ExpectedLine11(o)) then [Mismatch(Line11, Line11Message, ExpectedLine11(o), o.line11)] else []
  }

  function Line15Errors(o: Form1040Outputs): (r: seq<VerificationError>)
    ensures |r| <= 1 && (r != [] ==> r[0].line == Line15)
  {
    if Off(o.line15, ExpectedLine15(o)) then [Mismatch(Line15, Line15Message, ExpectedLine15(o), o.line15)] else []
  }

  function SignErrors(o: Form1040Outputs): (r: seq<VerificationError>)
    ensures |r| <= 1 && (r != [] ==> r[0].line == Line15)
  {
    if o.line15 < 0.0 then [Violation(Line15, NegativeIncomeMessage, o.line15, Critical)] else []
  }

  function Line24Errors(o: Form1040Outputs): (r: seq<VerificationError>)
    ensures |r| <= 1 && (r != [] ==> r[0].line == Line24)
  {
    if Off(o.line24, ExpectedLine24(o)) then [Mismatch(Line24, Line24Message, ExpectedLine24(o), o.line24)] else []
  }

  /** Refund branch when payments exceed the total tax, owed branch otherwise. */
  function SettleErrors(o: Form1040Outputs): seq<VerificationError>
  {
    if o.line33 > o.line24 then
      var refund := o.line33 - o.line24;
      (if Off(o.line34, refund) then [Mismatch(Line34, RefundMessage, refund, o.line34)] else [])
      + (if o.line37 != 0.0 then [Violation(Line37, RefundOwesMessage, o.line37, Error)] else [])
    else
      var owed := o.line24 - o.line33;
      (if Off(o.line37, owed) then [Mismatch(Line37, OwedMessage, owed, o.line37)] else [])
      + (if o.line34 != 0.0 then [Violation(Line34, OwedRefundMessage, o.line34, Error)] else [])
  }

  /** Every error `verify_form_1040` reports for a record, in order. */
  function ExpectedErrors(o: Form1040Outputs): seq<VerificationError>
  {
    Line9Errors(o) + Line11Errors(o) + Line15Errors(o) + SignErrors(o) + Line24Errors(o) + SettleErrors(o)
  }

  function ExpectedWarnings(o: Form1040Outputs): seq<string>
  {
    (if o.line11 > HighAgi then [HighAgiWarning] else [])
    + (if o.line16 == 0.0 && o.line15 > 0.0 then [ZeroTaxWarning] else [])
  }

  /**
   * The rules the verifier enforces, stated directly: each derived line
   * within a cent of its recomputation, taxable income not negative, and
   * exactly one of refund and amount owed in play.
   */
  predicate ChecksHold(o: Form1040Outputs)
  {
    Abs(o.line9 - (o.line1z + o.line2b + o.line3b + o.line8)) <= Tolerance
    && Abs(o.line11 - (o.line9 - o.line10)) <= Tolerance
    && Abs(o.line15 - Max(0.0, o.line11 - o.line12)) <= Tolerance
    && o.line15 >= 0.0
    && Abs(o.line24 - (o.line16 - o.line19 + o.line23)) <= Tolerance
    && (if o.line33 > o.line24
        then Abs(o.line34 - (o.line33 - o.line24)) <= Tolerance && o.line37 == 0.0
        else Abs(o.line37 - (o.line24 - o.line33)) <= Tolerance && o.line34 == 0.0)
  }

  class ArithmeticVerifier {
    const name: string

    constructor ()
      ensures name == VerifierName
    {
      name := VerifierName;
    }

    /**
     * `verify_form_1040`: the checks in order, appending to local error and
     * warning lists; the return passes when the error list is empty.
     */
    method VerifyForm1040(outputs: Form1040Outputs) returns (result: VerificationResult)
      ensures result.verifierName == name
      ensures result.errors == ExpectedErrors(outputs)
      ensures result.warnings == ExpectedWarnings(outputs)
      ensures result.passed <==> result.errors == []
      ensures result.passed <==> ChecksHold(outputs)
    {
      var errors := CheckLineArithmetic(outputs);
      errors := CheckRefundOrOwed(outputs, errors);
      var warnings := CollectWarnings(outputs);
      PassesIffChecksHold(outputs);
      result := VerificationResult(name, |errors| == 0, errors, warnings);
    }
  }

  /** The checks of lines 9, 11, 15 (twice) and 24, each appending at most one error. */
  method CheckLineArithmetic(o: Form1040Outputs) returns (errors: seq<VerificationError>)
    ensures errors == Line9Errors(o) + Line11Errors(o) + Line15Errors(o) + SignErrors(o) + Line24Errors(o)
  {
    errors := [];
    var expectedLine9 := o.line1z + o.line2b + o.line3b + o.line8;
    if Abs(o.line9 - expectedLine9) > Tolerance {
      errors := errors + [Mismatch(Line9, Line9Message, expectedLine9, o.line9)];
    }
    assert errors == Line9Errors(o);

    var expectedLine11 := o.line9 - o.line10;
    if Abs(o.line11 - expectedLine11) > Tolerance {
      errors := errors + [Mismatch(Line11, Line11Message, expectedLine11, o.line11)];
    }
    assert errors == Line9Errors(o) + Line11Errors(o);

    var expectedLine15 := Max(0.0, o.line11 - o.line12);
    if Abs(o.line15 - expectedLine15) > Tolerance {
      errors := errors + [Mismatch(Line15, Line15Message, expectedLine15, o.line15)];
    }
    assert errors == Line9Errors(o) + Line11Errors(o) + Line15Errors(o);

    if o.line15 < 0.0 {
      errors := errors + [Violation(Line15, NegativeIncomeMessage, o.line15, Critical)];
    }
    assert errors == Line9Errors(o) + Line11Errors(o) + Line15Errors(o) + SignErrors(o);

    var expectedLine24 := o.line16 - o.line19 + o.line23;
    if Abs(o.line24 - expectedLine24) > Tolerance {
      errors := errors + [Mismatch(Line24, Line24Message, expectedLine24, o.line24)];
    }
  }

  /** The refund branch when payments exceed the total tax, the owed branch otherwise. */
  method CheckRefundOrOwed(o: Form1040Outputs, checked: seq<VerificationError>) returns (errors: seq<VerificationError>)
    ensures errors == checked + SettleErrors(o)
  {
    errors := checked;
    if o.line33 > o.line24 {
      var expectedRefund := o.line33 - o.line24;
      if Abs(o.line34 - expectedRefund) > Tolerance {
        errors := errors + [Mismatch(Line34, RefundMessage, expectedRefund, o.line34)];
      }
      ghost var first := if Off(o.line34, expectedRefund) then [Mismatch(Line34, RefundMessage, expectedRefund, o.line34)] else [];
      assert errors == checked + first;
      if o.line37 != 0.0 {
        errors := errors + [Violation(Line37, RefundOwesMessage, o.line37, Error)];
      }
      ghost var second := if o.line37 != 0.0 then [Violation(Line37, RefundOwesMessage, o.line37, Error)] else [];
      assert errors == checked + first + second;
      LogAppend(checked, first, second);
    } else {
      var expectedOwed := o.line24 - o.line33;
      if Abs(o.line37 - expectedOwed) > Tolerance {
        errors := errors + [Mismatch(Line37, OwedMessage, expectedOwed, o.line37)];
      }
      ghost var first := if Off(o.line37, expectedOwed) then [Mismatch(Line37, OwedMessage, expectedOwed, o.line37)] else [];
      assert errors == checked + first;
      if o.line34 != 0.0 {
        errors := errors + [Violation(Line34, OwedRefundMessage, o.line34, Error)];
      }
      ghost var second := if o.line34 != 0.0 then [Violation(Line34, OwedRefundMessage, o.line34, Error)] else [];
      assert errors == checked + first + second;
      LogAppend(checked, first, second);
    }
  }

  /** The two warnings for unusual values. */
  method CollectWarnings(o: Form1040Outputs) returns (warnings: seq<string>)
    ensures warnings == ExpectedWarnings(o)
  {
    warnings := [];
    if o.line11 > HighAgi {
      warnings := warnings + [HighAgiWarning];
    }
    if o.line16 == 0.0 && o.line15 > 0.0 {
      warnings := warnings + [ZeroTaxWarning];
    }
  }

  // ---------------------------------------------------------------- properties

  /** No error is reported exactly when every rule holds. */
  lemma PassesIffChecksHold(o: Form1040Outputs)
    ensures ExpectedErrors(o) == [] <==> ChecksHold(o)
  {
    if ExpectedErrors(o) == [] {
      assert Line9Errors(o) == [] && Line11Errors(o) == [] && Line15Errors(o) == [];
      assert SignErrors(o) == [] && Line24Errors(o) == [] && SettleErrors(o) == [];
    }
  }

  /** Errors for a line, in the order reported. */
  function ErrorsOn(errs: seq<VerificationError>, line: string): (r: seq<VerificationError>)
    ensures |r| <= |errs|
    ensures forall i | 0 <= i < |r| :: r[i].line == line
  {
    if errs == [] then []
    else (if errs[0].line == line then [errs[0]] else []) + ErrorsOn(errs[1..], line)
  }

  lemma {:induction false} ErrorsOnAppend(a: seq<VerificationError>, b: seq<VerificationError>, line: string)
    ensures ErrorsOn(a + b, line) == ErrorsOn(a, line) + ErrorsOn(b, line)
  {
    if a == [] {
      assert a + b == b;
    } else {
      assert (a + b)[0] == a[0];
      assert (a + b)[1..] == a[1..] + b;
      ErrorsOnAppend(a[1..], b, line);
    }
  }

  /** The line labels the checks use are all different. */
  lemma LineLabelsDistinct()
    ensures Line9 != Line11 && Line9 != Line15 && Line9 != Line24 && Line9 != Line34 && Line9 != Line37
    ensures Line11 != Line15 && Line11 != Line24 && Line11 != Line34 && Line11 != Line37
    ensures Line15 != Line24 && Line15 != Line34 && Line15 != Line37
    ensures Line24 != Line34 && Line24 != Line37 && Line34 != Line37
  {
    assert |Line9| == 6 && |Line11| == 7;
    assert Line11[5] == '1' && Line15[5] == '1' && Line24[5] == '2' && Line34[5] == '3' && Line37[5] == '3';
    assert Line11[6] == '1' && Line15[6] == '5' && Line24[6] == '4' && Line34[6] == '4' && Line37[6] == '7';
  }

  /** The refund/owed checks only ever report on lines 34 and 37. */
  lemma SettleErrorsOnLines34And37(o: Form1040Outputs, line: string)
    requires line != Line34 && line != Line37
    ensures ErrorsOn(SettleErrors(o), line) == []
  {
    var s := SettleErrors(o);
    assert forall i | 0 <= i < |s| :: s[i].line == Line34 || s[i].line == Line37;
    ErrorsOnNone(s, line);
  }

  lemma {:induction false} ErrorsOnNone(errs: seq<VerificationError>, line: string)
    requires forall i | 0 <= i < |errs| :: errs[i].line != line
    ensures ErrorsOn(errs, line) == []
  {
    if errs != [] {
      assert forall i | 0 <= i < |errs[1..]| :: errs[1..][i] == errs[i + 1];
      ErrorsOnNone(errs[1..], line);
    }
  }

  /** A one-or-no-element list of errors on one line, filtered by another line. */
  lemma ErrorsOnSingle(errs: seq<VerificationError>, line: string)
    requires |errs| <= 1
    ensures ErrorsOn(errs, line) == (if errs != [] && errs[0].line == line then errs else [])
  {
    if errs != [] {
      assert errs[1..] == [];
    }
  }

  /** A check's result: at most one error, reported under one line label. */
  predicate Tagged(errs: seq<VerificationError>, tag: string)
  {
    |errs| <= 1 && (errs != [] ==> errs[0].line == tag)
  }

  /** A check that reports at most one error, under one tag, filtered by a line. */
  lemma CheckErrorsOn(errs: seq<VerificationError>, tag: string, line: string)
    requires Tagged(errs, tag)
    ensures ErrorsOn(errs, line) == (if tag == line then errs else [])
  {
    ErrorsOnSingle(errs, line);
  }

  /**
   * Five tagged checks followed by errors that never mention the line:
   * filtering keeps the checks whose tag is that line, in order.
   */
  lemma ErrorsOnTagged(a: seq<VerificationError>, ta: string, b: seq<VerificationError>, tb: string,
                       c: seq<VerificationError>, tc: string, d: seq<VerificationError>, td: string,
                       e: seq<VerificationError>, te: string, f: seq<VerificationError>, line: string)
    requires Tagged(a, ta) && Tagged(b, tb) && Tagged(c, tc) && Tagged(d, td) && Tagged(e, te)
    requires ErrorsOn(f, line) == []
    ensures ErrorsOn(a + b + c + d + e + f, line) ==
      (if ta == line then a else []) + (if tb == line then b else []) + (if tc == line then c else [])
      + (if td == line then d else []) + (if te == line then e else [])
  {
    ErrorsOnAppend(a, b, line);
    ErrorsOnAppend(a + b, c, line);
    ErrorsOnAppend(a + b + c, d, line);
    ErrorsOnAppend(a + b + c + d, e, line);
    ErrorsOnAppend(a + b + c + d + e, f, line);
    CheckErrorsOn(a, ta, line);
    CheckErrorsOn(b, tb, line);
    CheckErrorsOn(c, tc, line);
    CheckErrorsOn(d, td, line);
    CheckErrorsOn(e, te, line);
  }

  /** Filtering the whole error list by a line other than 34 and 37. */
  lemma ErrorsOnLine(o: Form1040Outputs, line: string)
    requires line != Line34 && line != Line37
    ensures ErrorsOn(ExpectedErrors(o), line) ==
      (if Line9 == line then Line9Errors(o) else []) + (if Line11 == line then Line11Errors(o) else [])
      + (if Line15 == line then Line15Errors(o) else []) + (if Line15 == line then SignErrors(o) else [])
      + (if Line24 == line then Line24Errors(o) else [])
  {
    SettleErrorsOnLines34And37(o, line);
    ErrorsOnTagged(Line9Errors(o), Line9, Line11Errors(o), Line11, Line15Errors(o), Line15,
                   SignErrors(o), Line15, Line24Errors(o), Line24, SettleErrors(o), line);
  }

  /** Line 9 draws one error exactly when it is more than a cent off the sum of lines 1z, 2b, 3b and 8. */
  lemma Line9ErrorIff(o: Form1040Outputs)
    ensures ErrorsOn(ExpectedErrors(o), Line9) == Line9Errors(o)
    ensures |Line9Errors(o)| == 1 <==> Off(o.line9, o.line1z + o.line2b + o.line3b + o.line8)
  {
    LineLabelsDistinct();
    ErrorsOnLine(o, Line9);
  }

  /** Line 11 is checked against the record's own lines 9 and 10, not against a recomputed total income. */
  lemma Line11ErrorIff(o: Form1040Outputs)
    ensures ErrorsOn(ExpectedErrors(o), Line11) == Line11Errors(o)
    ensures |Line11Errors(o)| == 1 <==> Off(o.line11, o.line9 - o.line10)
  {
    LineLabelsDistinct();
    ErrorsOnLine(o, Line11);
  }

  /** Line 15 draws an arithmetic error when off, and in addition a critical logic error when negative. */
  lemma Line15ErrorIff(o: Form1040Outputs)
    ensures ErrorsOn(ExpectedErrors(o), Line15) == Line15Errors(o) + SignErrors(o)
    ensures |Line15Errors(o)| == 1 <==> Off(o.line15, Max(0.0, o.line11 - o.line12))
    ensures |SignErrors(o)| == 1 <==> o.line15 < 0.0
    ensures SignErrors(o) != [] ==> SignErrors(o)[0].severity == Critical && SignErrors(o)[0].errorType == Logic
  {
    LineLabelsDistinct();
    ErrorsOnLine(o, Line15);
  }

  /** Line 24 draws one error exactly when it is more than a cent off line 16 less line 19 plus line 23. */
  lemma Line24ErrorIff(o: Form1040Outputs)
    ensures ErrorsOn(ExpectedErrors(o), Line24) == Line24Errors(o)
    ensures |Line24Errors(o)| == 1 <==> Off(o.line24, o.line16 - o.line19 + o.line23)
  {
    LineLabelsDistinct();
    ErrorsOnLine(o, Line24);
  }

  /**
   * The refund branch demands line 34 within a cent of the overpayment and
   * line 37 exactly 0; the owed branch the converse.
   */
  lemma SettleChecks(o: Form1040Outputs)
    ensures o.line33 > o.line24 ==>
      (SettleErrors(o) == [] <==> !Off(o.line34, o.line33 - o.line24) && o.line37 == 0.0)
    ensures o.line33 <= o.line24 ==>
      (SettleErrors(o) == [] <==> !Off(o.line37, o.line24 - o.line33) && o.line34 == 0.0)
  {
  }

  /** A warning never fails a return: warnings appear only for a high AGI and for no tax on positive income. */
  lemma WarningsOnlyForUnusualValues(o: Form1040Outputs)
    ensures |ExpectedWarnings(o)| <= 2
    ensures HighAgiWarning in ExpectedWarnings(o) <==> o.line11 > HighAgi
    ensures ZeroTaxWarning in ExpectedWarnings(o) <==> o.line16 == 0.0 && o.line15 > 0.0
  {
    assert |HighAgiWarning| == 26 && |ZeroTaxWarning| == 50;
  }

  /** The citations of a record play no part in its verification. */
  lemma ErrorsIgnoreCitations(o: Form1040Outputs, citations: map<string, string>)
    ensures ExpectedErrors(o) == ExpectedErrors(o.(citations := citations))
    ensures ExpectedWarnings(o) == ExpectedWarnings(o.(citations := citations))
  {
    var o' := o.(citations := citations);
    assert Line9Errors(o) == Line9Errors(o') && Line11Errors(o) == Line11Errors(o');
    assert Line15Errors(o) == Line15Errors(o') && SignErrors(o) == SignErrors(o');
    assert Line24Errors(o) == Line24Errors(o') && SettleErrors(o) == SettleErrors(o');
  }

  /** The record the Form 1040 agent returns satisfies every check, with no warning about unusual values needed to pass. */
  lemma AgentOutputPasses(inputs: Form1040Inputs, citations: map<string, string>)
    ensures ChecksHold(ComputeLines(inputs).(citations := citations))
    ensures ExpectedErrors(ComputeLines(inputs).(citations := citations)) == []
  {
    ComputedLinesRelations(inputs);
    AgentReturnAlwaysOwes(inputs);
    PassesIffChecksHold(ComputeLines(inputs).(citations := citations));
  }

  /** The first example: a correct single-filer record with a 973 refund passes with no error and no warning. */
  lemma CorrectRecordPasses(o: Form1040Outputs)
    requires o.line1z == 50000.0 && o.line2b == o.line3b == o.line8 == 0.0 && o.line9 == 50000.0
    requires o.line10 == 0.0 && o.line11 == 50000.0 && o.line12 == 14600.0 && o.line15 == 35400.0
    requires o.line16 == 4027.0 && o.line19 == o.line23 == 0.0 && o.line24 == 4027.0
    requires o.line33 == 5000.0 && o.line34 == 973.0 && o.line37 == 0.0
    ensures ExpectedErrors(o) == [] && ExpectedWarnings(o) == []
  {
    assert Line9Errors(o) == [] && Line11Errors(o) == [] && Line15Errors(o) == [];
    assert SignErrors(o) == [] && Line24Errors(o) == [] && SettleErrors(o) == [];
  }

  /**
   * The second example: 500 of interest left out of line 9, and line 15
   * understated by 400, draw exactly two errors, on line 9 and line 15.
   */
  lemma IncorrectRecordErrors(o: Form1040Outputs)
    requires o.line1z == 50000.0 && o.line2b == 500.0 && o.line3b == o.line8 == 0.0 && o.line9 == 50000.0
    requires o.line10 == 0.0 && o.line11 == 50000.0 && o.line12 == 14600.0 && o.line15 == 35000.0
    requires o.line16 == 4027.0 && o.line19 == o.line23 == 0.0 && o.line24 == 4027.0
    requires o.line25a == o.line33 == 5000.0 && o.line34 == 973.0 && o.line37 == 0.0
    ensures ExpectedErrors(o) == [Mismatch(Line9, Line9Message, 50500.0, 50000.0),
                                  Mismatch(Line15, Line15Message, 35400.0, 35000.0)]
  {
    assert Line9Errors(o) == [Mismatch(Line9, Line9Message, 50500.0, 50000.0)];
    assert Line11Errors(o) == [];
    assert Line15Errors(o) == [Mismatch(Line15, Line15Message, 35400.0, 35000.0)];
    assert SignErrors(o) == [] && Line24Errors(o) == [] && SettleErrors(o) == [];
  }
}
