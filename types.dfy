/**
 * The record types of the tax pipeline: filing status, income documents,
 * the typed inputs and outputs of every form, verification results and the
 * citation audit trail. Each record keeps the source's field defaults as a
 * constructor function.
 */
module TaxTypes {

  datatype Option<+T> = None | Some(value: T)

  datatype Result<+T, +E> = Ok(value: T) | Err(error: E)

  /** IRS filing status: a closed enumeration of five members. */
  datatype FilingStatus =
    | Single
    | MarriedFilingJointly
    | MarriedFilingSeparately
    | HeadOfHousehold
    | QualifyingWidow
  {
    /** The member's string value (`FilingStatus.X.value`). */
    function Value(): string
    {
      match this
      case Single => "single"
      case MarriedFilingJointly => "married_filing_jointly"
      case MarriedFilingSeparately => "married_filing_separately"
      case HeadOfHousehold => "head_of_household"
      case QualifyingWidow => "qualifying_widow"
    }

    /** The member's name, as `str()` of the member prints after "FilingStatus.". */
    function Name(): string
    {
      match this
      case Single => "SINGLE"
      case MarriedFilingJointly => "MARRIED_FILING_JOINTLY"
      case MarriedFilingSeparately => "MARRIED_FILING_SEPARATELY"
      case HeadOfHousehold => "HEAD_OF_HOUSEHOLD"
      case QualifyingWidow => "QUALIFYING_WIDOW"
    }
  }

  const AllStatuses: set<FilingStatus> :=
    {Single, MarriedFilingJointly, MarriedFilingSeparately, HeadOfHousehold, QualifyingWidow}

  /** The enumeration has exactly five members, with distinct values. */
  lemma FilingStatusHasFiveMembers()
    ensures forall s: FilingStatus :: s in AllStatuses
    ensures |AllStatuses| == 5
    ensures forall s: FilingStatus, t: FilingStatus :: s.Value() == t.Value() ==> s == t
  {
    var four := {Single, MarriedFilingJointly, MarriedFilingSeparately, HeadOfHousehold};
    var three := {Single, MarriedFilingJointly, MarriedFilingSeparately};
    assert |{Single, MarriedFilingJointly}| == 2;
    assert |three| == 3 by { assert three == {Single, MarriedFilingJointly} + {MarriedFilingSeparately}; }
    assert |four| == 4 by { assert four == three + {HeadOfHousehold}; }
    assert AllStatuses == four + {QualifyingWidow};
    forall s: FilingStatus ensures s in AllStatuses {
      match s
      case Single =>
      case MarriedFilingJointly =>
      case MarriedFilingSeparately =>
      case HeadOfHousehold =>
      case QualifyingWidow =>
    }
  }

  // ---------------------------------------------------------------- documents

  /** W-2 wage and tax statement. */
  datatype W2 = W2(
    employer: Option<string>,
    wages: real,
    federalWithholding: real,
    socialSecurityWages: Option<real>,
    medicareWages: Option<real>)

  /** A W-2 given only its wages: withholding defaults to 0. */
  function NewW2(wages: real): (w: W2)
    ensures w.wages == wages && w.federalWithholding == 0.0
    ensures w.employer.None? && w.socialSecurityWages.None? && w.medicareWages.None?
  {
    W2(None, wages, 0.0, None, None)
  }

  /** 1099-INT interest income. */
  datatype Form1099Int = Form1099Int(payer: Option<string>, interestIncome: real)

  /** 1099-DIV dividend income. */
  datatype Form1099Div = Form1099Div(payer: Option<string>, ordinaryDividends: real, qualifiedDividends: real)

  /** A 1099-DIV with nothing filled in: both dividend boxes default to 0. */
  function NewForm1099Div(): (d: Form1099Div)
    ensures d.ordinaryDividends == 0.0 && d.qualifiedDividends == 0.0 && d.payer.None?
  {
    Form1099Div(None, 0.0, 0.0)
  }

  /** One named entry of Schedule C's open list of other expenses. */
  datatype NamedExpense = NamedExpense(name: string, amount: real)

  /** Schedule C business income and its expense categories. */
  datatype BusinessIncome = BusinessIncome(
    businessName: Option<string>,
    grossReceipts: real,
    returnsAllowances: real,
    costOfGoodsSold: real,
    otherIncome: real,
    advertising: real,
    carTruckExpenses: real,
    commissionsFees: real,
    contractLabor: real,
    depreciation: real,
    insurance: real,
    interest: real,
    legalProfessional: real,
    officeExpense: real,
    rentLease: real,
    repairsMaintenance: real,
    supplies: real,
    taxesLicenses: real,
    travel: real,
    meals: real,
    utilities: real,
    wages: real,
    otherExpenses: seq<NamedExpense>)

  /** A business with every amount at its default of 0 and no other expenses. */
  function NewBusinessIncome(): (b: BusinessIncome)
    ensures b.businessName.None?
    ensures b.grossReceipts == b.returnsAllowances == b.costOfGoodsSold == b.otherIncome == 0.0
    ensures b.advertising == b.carTruckExpenses == b.commissionsFees == b.contractLabor == 0.0
    ensures b.depreciation == b.insurance == b.interest == b.legalProfessional == 0.0
    ensures b.officeExpense == b.rentLease == b.repairsMaintenance == b.supplies == 0.0
    ensures b.taxesLicenses == b.travel == b.meals == b.utilities == b.wages == 0.0
    ensures b.otherExpenses == []
  {
    BusinessIncome(None, 0.0, 0.0, 0.0, 0.0, 0.0, 0.0, 0.0, 0.0, 0.0, 0.0, 0.0, 0.0, 0.0,
                   0.0, 0.0, 0.0, 0.0, 0.0, 0.0, 0.0, 0.0, [])
  }

  datatype Dependent = Dependent(
    name: string,
    ssn: string,
    relationship: string,
    qualifyingChild: bool,
    creditForOtherDependents: bool)

  datatype TaxpayerInfo = TaxpayerInfo(
    name: string,
    ssn: string,
    dob: Option<string>,
    age: Option<int>,
    blind: bool,
    spouseName: Option<string>,
    spouseSsn: Option<string>,
    spouseDob: Option<string>,
    spouseAge: Option<int>,
    spouseBlind: bool)

  /** A taxpayer given name, SSN and age: not blind, no spouse data. */
  function NewTaxpayer(name: string, ssn: string, age: Option<int>): (t: TaxpayerInfo)
    ensures t.name == name && t.ssn == ssn && t.age == age
    ensures !t.blind && !t.spouseBlind && t.spouseAge.None? && t.dob.None?
    ensures t.spouseName.None? && t.spouseSsn.None? && t.spouseDob.None?
  {
    TaxpayerInfo(name, ssn, None, age, false, None, None, None, None, false)
  }

  // ------------------------------------------------------------------- inputs

  /** The whole return's typed input. */
  datatype TaxInputs = TaxInputs(
    filingStatus: FilingStatus,
    taxpayer: TaxpayerInfo,
    dependents: seq<Dependent>,
    w2: seq<W2>,
    income1099Int: seq<Form1099Int>,
    income1099Div: seq<Form1099Div>,
    businessIncome: Option<BusinessIncome>)

  /** Inputs given only status and taxpayer: empty lists, no business. */
  function NewTaxInputs(status: FilingStatus, taxpayer: TaxpayerInfo): (t: TaxInputs)
    ensures t.filingStatus == status && t.taxpayer == taxpayer
    ensures t.dependents == [] && t.w2 == [] && t.income1099Int == [] && t.income1099Div == []
    ensures t.businessIncome.None?
  {
    TaxInputs(status, taxpayer, [], [], [], [], None)
  }

  datatype ScheduleBInputs = ScheduleBInputs(interestIncome: seq<Form1099Int>, dividendIncome: seq<Form1099Div>)

  datatype ScheduleCInputs = ScheduleCInputs(business: BusinessIncome, filingStatus: FilingStatus)

  datatype ScheduleSEInputs = ScheduleSEInputs(netProfitLoss: real, filingStatus: FilingStatus)

  datatype Schedule1Inputs = Schedule1Inputs(
    taxableRefunds: real,
    alimonyReceived: real,
    businessIncome: real,
    capitalGainLoss: real,
    otherIncome: real,
    educatorExpenses: real,
    businessExpenses: real,
    healthSavingsDeduction: real,
    selfEmploymentTaxDeduction: real,
    selfEmployedRetirement: real,
    selfEmployedHealthInsurance: real,
    studentLoanInterest: real)

  datatype Form1040Inputs = Form1040Inputs(
    filingStatus: FilingStatus,
    taxpayer: TaxpayerInfo,
    dependents: seq<Dependent>,
    wages: real,
    interest: real,
    dividends: real,
    schedule1AdditionalIncome: real,
    schedule1Adjustments: real)

  datatype Schedule8812Inputs = Schedule8812Inputs(
    dependents: seq<Dependent>,
    agi: real,
    taxBeforeCredits: real,
    filingStatus: FilingStatus)

  // ------------------------------------------------------------------ outputs

  datatype ScheduleBOutputs = ScheduleBOutputs(totalInterest: real, totalDividends: real, citations: map<string, string>)

  datatype ScheduleCOutputs = ScheduleCOutputs(
    grossIncome: real, totalExpenses: real, netProfitLoss: real, citations: map<string, string>)

  datatype ScheduleSEOutputs = ScheduleSEOutputs(
    netEarnings: real, selfEmploymentTax: real, deduction: real, citations: map<string, string>)

  datatype Schedule1Outputs = Schedule1Outputs(
    totalAdditionalIncome: real, totalAdjustments: real, citations: map<string, string>)

  /** Form 1040 lines, labelled by their line numbers. */
  datatype Form1040Outputs = Form1040Outputs(
    line1z: real,   // wages
    line2b: real,   // taxable interest
    line3b: real,   // dividends
    line8: real,    // additional income from Schedule 1
    line9: real,    // total income
    line10: real,   // adjustments to income
    line11: real,   // adjusted gross income
    line12: real,   // standard deduction
    line15: real,   // taxable income
    line16: real,   // tax
    line19: real,   // child tax credit
    line22: real,   // total other taxes
    line23: real,   // self-employment tax
    line24: real,   // total tax
    line25a: real,  // federal income tax withheld
    line33: real,   // total payments
    line34: real,   // overpayment (refund)
    line37: real,   // amount owed
    citations: map<string, string>)

  /** A fresh Form 1040 record: every line 0 and no citations. */
  function NewForm1040Outputs(): (o: Form1040Outputs)
    ensures o.line1z == o.line2b == o.line3b == o.line8 == o.line9 == o.line10 == o.line11 == 0.0
    ensures o.line12 == o.line15 == o.line16 == o.line19 == o.line22 == o.line23 == o.line24 == 0.0
    ensures o.line25a == o.line33 == o.line34 == o.line37 == 0.0
    ensures o.citations == map[]
  {
    Form1040Outputs(0.0, 0.0, 0.0, 0.0, 0.0, 0.0, 0.0, 0.0, 0.0, 0.0, 0.0, 0.0, 0.0, 0.0,
                    0.0, 0.0, 0.0, 0.0, map[])
  }

  datatype Schedule8812Outputs = Schedule8812Outputs(
    childTaxCredit: real, additionalChildTaxCredit: real, citations: map<string, string>)

  // ------------------------------------------------------------- verification

  datatype Severity = Warning | Error | Critical

  /** The kind of a verification finding: arithmetic mismatch or violated logic rule. */
  datatype ErrorKind = Arithmetic | Logic

  datatype VerificationError = VerificationError(
    form: string,
    line: string,
    errorType: ErrorKind,
    message: string,
    expected: Option<real>,
    actual: Option<real>,
    severity: Severity)

  /** A finding with no expected/actual value given: severity defaults to "error". */
  function NewVerificationError(form: string, line: string, errorType: ErrorKind, message: string): (e: VerificationError)
    ensures e.form == form && e.line == line && e.errorType == errorType && e.message == message
    ensures e.severity == Error && e.expected.None? && e.actual.None?
  {
    VerificationError(form, line, errorType, message, None, None, Error)
  }

  datatype VerificationResult = VerificationResult(
    verifierName: string,
    passed: bool,
    errors: seq<VerificationError>,
    warnings: seq<string>)

  /** A result given only name and verdict: no errors and no warnings. */
  function NewVerificationResult(verifierName: string, passed: bool): (r: VerificationResult)
    ensures r.verifierName == verifierName && r.passed == passed
    ensures r.errors == [] && r.warnings == []
  {
    VerificationResult(verifierName, passed, [], [])
  }

  // ------------------------------------------------------------------- agents

  /** An audit-trail entry: which form and line, the authority, and free-text reasoning. */
  datatype Citation = Citation(form: string, line: string, source: string, reasoning: string)

  datatype AgentResponse<T> = AgentResponse(
    formName: string,
    outputs: T,
    citations: seq<Citation>,
    errors: seq<string>,
    warnings: seq<string>)
}
