# LightTaxes 2024 Form 1040 pipeline, in Dafny

This project models the deterministic part of LightTaxes, a tax-return preparer
for U.S. tax year 2024, and proves properties of it. The modelled pipeline has
four layers:

- **Rate tables and formulas.**
  - The 2024 bracket tables: `calculate_tax`, `tax_table_lookup`, the marginal
    and effective rates.
  - The standard deduction with its age-65 and blindness additions,
    `should_itemize` and `get_deduction_amount`.
  - The three Schedule 1 adjustments: the educator-expense cap, the
    student-loan-interest phase-out and the excess-business-loss add-back.
- **Form agents.**
  - The common base: a citation log, an error log and a warning log that
    every agent keeps, and `_extract_number`.
  - Schedule B (interest and ordinary dividends).
  - Schedule C (profit or loss from business, with the 50% meals rule).
  - Schedule SE (self-employment tax: the $400 gate, the 92.35% factor,
    Social Security capped at the wage base, uncapped Medicare, and the
    half-tax deduction).
  - The Form 1040 agent, with its eleven ordered `_calculate_*` steps.
- **The arithmetic verifier.** It recomputes each derived line of a
  Form 1040 record, to within one cent, and reports errors and warnings.
- **The orchestrator.** `TaxReturnProcessor` does the following:
  - It decides which schedules run.
  - It accumulates Schedule 1 income and adjustments, and runs Form 1040.
  - It patches lines 23, 24, 25a, 33, 34 and 37 of the agent's record.
  - It stores the results, and `verify_results` runs the verifier on them.
  - Of `_parse_inputs`, only the filing-status mapping is modelled.

Money is Dafny's exact `real`. Python's `round(x, 2)` is `Money.RoundCents`,
which rounds half up to a whole number of cents. Invalid inputs are values of
`Result` and `Option`, not exceptions:

- `ValueError` when a status is unknown or no bracket matches;
- `KeyError` when a dictionary lookup fails.

**Form of the model.**

- **Types.** Records and the `FilingStatus` enumeration are datatypes, one
  module (`TaxTypes`).
- **State.** Each agent is a class with a `FormAgent` base whose three logs
  are `seq` fields. `cite`, `add_error` and `add_warning` append to them.
- **Form 1040.** The `_calculate_*` steps are methods of `Form1040Agent`.
  Each updates the record field `out` and appends to the log. Each is proved
  against a step function on the record.
- **Verifier.** `verify_form_1040` is a method building its error and warning
  lists check by check. It is proved equal to the reference functions
  `ExpectedErrors` / `ExpectedWarnings`, and `passed` is proved equivalent to
  the predicate `ChecksHold`.
- **Orchestrator.** `process_tax_return` is a method of `TaxReturnProcessor`
  with four agent objects and a `results` field.

The headline theorem is `Orchestrator.TaxReturnProcessor.ProcessTaxReturn`:
every record the orchestrator returns passes every check of the arithmetic
verifier. `Orchestrator.ReturnedLinesPass` states the same about the reference
function.

## Model

| member | source | states |
|---|---|---|
| TaxTypes.FilingStatusHasFiveMembers | src/core/types.py:11-17 | the filing status has exactly five members, and their string values are pairwise distinct |
| TaxTypes.NewW2 | src/core/types.py:20-26 | a W-2 given only wages has withholding 0 and no employer or Social Security/Medicare wages |
| TaxTypes.NewForm1099Div | src/core/types.py:35-39 | both dividend boxes of a 1099-DIV default to 0 and the payer to none |
| TaxTypes.NewBusinessIncome | src/core/types.py:42-66 | every Schedule C amount defaults to 0, other expenses to empty, the name to none |
| TaxTypes.NewTaxpayer | src/core/types.py:78-89 | a taxpayer given name, SSN and age is not blind and has no spouse data |
| TaxTypes.NewTaxInputs | src/core/types.py:96-104 | the dependents, W-2, 1099-INT and 1099-DIV lists default to empty and the business to none |
| TaxTypes.NewForm1040Outputs | src/core/types.py:199-229 | every Form 1040 line defaults to 0 and the citation map to empty |
| TaxTypes.NewVerificationError | src/core/types.py:243-251 | a finding's severity defaults to "error" and expected/actual to none |
| TaxTypes.NewVerificationResult | src/core/types.py:254-259 | a result's error and warning lists default to empty |
| Money.RoundCents | src/tools/tax_table.py:95 | `round(x, 2)` lands on a whole number of cents within half a cent of x |
| Money.RoundCentsMonotone | src/agents/schedule_se_agent.py:107-108 | rounding to cents never reverses the order of two amounts |
| StatusText.Lower | src/tools/tax_table.py:84 | `lower()` keeps the length and lower-cases exactly the ASCII capitals |
| StatusText.ReplaceSpaces | src/tools/tax_table.py:84 | `replace(" ", "_")` keeps the length and turns every space, and nothing else, into `_` |
| StatusText.Normalize | src/tools/tax_table.py:84 | the normalised status has no capital and no space |
| StatusText.NormalizeIdempotent | src/tools/tax_table.py:84 | normalising twice gives the same text as normalising once |
| StatusText.StatusFromKey | src/tools/tax_table.py:86-89 | a dictionary key found names the status whose value is that key |
| StatusText.StatusFromKeyComplete | src/tools/tax_table.py:15-60 | every status value is a key of the tables and names its own status |
| StatusText.ParseStatusText | src/tools/tax_table.py:84-87 | a parsed status's value is the normalised input text |
| StatusText.ValueNormalized | src/core/types.py:13-17 | every status value is lower-case snake case |
| StatusText.ParseStatusValue | src/agents/form_1040_agent.py:212 | `filing_status.value` always parses back to the same status, so the agent's lookups never raise |
| StatusText.ParseStatusTextIff | src/tools/standard_deduction.py:61-64 | text parses to a status if and only if it normalises to that status's value |
| TaxTable.Brackets2024 | src/tools/tax_table.py:15-61 | each status has a table of seven brackets |
| TaxTable.JointBrackets | src/tools/tax_table.py:25-60 | married filing jointly and qualifying widow(er) share one seven-bracket table |
| TaxTable.BracketsWellFormed | src/tools/tax_table.py:16-60 | every table starts at 0 with no base tax, each lower bound is the previous upper bound, the last bracket is unbounded, rates never fall, each base tax is the previous bracket's tax at its upper bound, and the top rate is 37% |
| TaxTable.RawTax | src/tools/tax_table.py:94 | definition: the base tax plus the rate times the income above the bracket's lower bound; its bounds and monotonicity are stated by `RawTaxBounds`, `RawTaxNonDecreasing` and `ContinuousAtBoundary` |
| TaxTable.FirstMatch | src/tools/tax_table.py:92-95 | definition: the bracket search from the first bracket; what it finds is stated by `FirstMatchFrom`, `BracketUnique` and `MatchExists` |
| TaxTable.FirstMatchFrom | src/tools/tax_table.py:92-95 | the search returns the first bracket containing the income, and none only when no bracket contains it |
| TaxTable.BracketUnique | src/tools/tax_table.py:92-93 | at most one bracket of a well-formed table contains any income |
| TaxTable.MatchExists | src/tools/tax_table.py:92-98 | every non-negative income finds a bracket, so "No tax bracket found" is unreachable |
| TaxTable.BoundaryGoesUp | src/tools/tax_table.py:93 | income exactly at a boundary falls in the upper bracket, not the lower |
| TaxTable.ContinuousAtBoundary | src/tools/tax_table.py:94 | at each boundary the two neighbouring bracket formulas give the same tax |
| TaxTable.RawTaxNonDecreasing | src/tools/tax_table.py:92-94 | before rounding, the bracket tax never falls as income rises, across brackets too |
| TaxTable.RawTaxBounds | src/tools/tax_table.py:94 | at or above a bracket's lower bound, its formula gives a tax between 0 and its rate times the whole income |
| TaxTable.CalculateTax | src/tools/tax_table.py:64-98 | income <= 0 gives 0; otherwise an unparsable status is the "Invalid filing status" error and a valid one gives the rounded formula of the bracket containing the income; the tax is never negative |
| TaxTable.TaxFor | src/tools/tax_table.py:80-95 | for an enumeration status the lookup never fails and the tax is not negative |
| TaxTable.TaxTableLookup | src/tools/tax_table.py:101-118 | `tax_table_lookup` is `calculate_tax` |
| TaxTable.TaxNonDecreasing | src/tools/tax_table.py:92-95 | for a fixed status, tax never falls as taxable income rises |
| TaxTable.TaxForInBracket | src/tools/tax_table.py:92-95 | a positive income's tax is the rounded formula of any bracket that contains it |
| TaxTable.TaxAtMostTopRate | src/tools/tax_table.py:23 | tax is at most 37% of the income plus half a cent |
| TaxTable.TaxSingleExample | tests/test_components.py:20-24 | a single filer with taxable income 35,400 owes 4,016, within the expected range (4,000, 4,100) |
| TaxTable.MarginalTaxRate | src/tools/tax_table.py:121-139 | an unknown status is a missing-key error; otherwise the rate is that of the first bracket containing the income, or the top rate when none does |
| TaxTable.MarginalRateCases | src/tools/tax_table.py:135-139 | a negative income gets 37%; a non-negative one gets its own bracket's rate |
| TaxTable.EffectiveTaxRate | src/tools/tax_table.py:142-157 | income <= 0 gives 0; otherwise it fails exactly when `calculate_tax` fails, and when it succeeds the rate times the income is the tax; it is never negative |
| TaxTable.EffectiveRateAtMostTopRate | src/tools/tax_table.py:142-157 | for an enumeration status the rate exists, and the rate times the income is at most 37% of the income plus half a cent |
| TaxTable.Contains | src/tools/tax_table.py:93 | definition: `min_income <= x < max_income`, with no upper limit for the top bracket; stated by `BracketUnique` (at most one bracket of a well-formed table contains an income), `MatchExists` (for a non-negative income one does) and `BoundaryGoesUp` (a bracket's lower bound belongs to it, not to the one below) |
| StandardDeduction.ConditionCount | src/tools/standard_deduction.py:73-83 | at most four conditions apply, and at most two when the spouse does not count |
| StandardDeduction.StandardDeduction | src/tools/standard_deduction.py:33-85 | definition: the reference function for `get_standard_deduction`; its error cases and amounts are stated by `StandardDeductionErrors`, `DeductionAsSum`, `DeductionBounds` and the lemmas below, and `GetStandardDeduction` is proved to compute it |
| StandardDeduction.GetStandardDeduction | src/tools/standard_deduction.py:33-85 | the step-by-step additions compute the reference function: an error for an unknown status, else the base plus one additional amount per condition |
| StandardDeduction.DeductionAsSum | src/tools/standard_deduction.py:67-85 | the deduction is the base plus the additional amount once for each condition that holds |
| StandardDeduction.StandardDeductionErrors | src/tools/standard_deduction.py:61-64 | the lookup fails exactly when the text does not parse, and every status value is accepted |
| StandardDeduction.DeductionBounds | src/tools/standard_deduction.py:67-85 | the deduction lies between the base and the base plus four additional amounts, two when the spouse does not count |
| StandardDeduction.BlindAddsOne | src/tools/standard_deduction.py:75-76 | blindness adds exactly one additional amount |
| StandardDeduction.AgeAddsOne | src/tools/standard_deduction.py:73-74 | age 65 or over adds exactly one additional amount; a missing age or one under 65 adds nothing |
| StandardDeduction.SpouseOnlyWhenJoint | src/tools/standard_deduction.py:79-83 | the spouse's age and blindness change the deduction only for joint filers and qualifying widow(er)s |
| StandardDeduction.DeductionMonotone | src/tools/standard_deduction.py:67-85 | adding conditions never lowers the deduction |
| StandardDeduction.DeductionExamples | src/tools/standard_deduction.py:54-58 | single 14,600, joint 29,200, single aged 66 16,550 |
| StandardDeduction.ShouldItemize | src/tools/standard_deduction.py:88-118 | fails exactly when the deduction lookup fails; otherwise true if and only if the itemized total exceeds the standard deduction |
| StandardDeduction.DeductionAmount | src/tools/standard_deduction.py:121-154 | fails exactly when the lookup fails; with nothing itemized it is the standard deduction; otherwise the larger amount, labelled itemized exactly when the itemized total is larger |
| StandardDeduction.DeductionChoiceAgrees | src/tools/standard_deduction.py:110-154 | `get_deduction_amount` chooses itemized exactly when `should_itemize` says so |
| StandardDeduction.BaseDeduction | src/tools/standard_deduction.py:15-21 | definition: the 2024 base amounts 14,600 / 29,200 / 14,600 / 21,900 / 29,200 per status; stated by `DeductionBounds` (no deduction is below the base) and `DeductionExamples` |
| StandardDeduction.AdditionalDeduction | src/tools/standard_deduction.py:24-30 | definition: the 2024 amount per condition, 1,950 for single and head of household and 1,550 otherwise; stated by `DeductionBounds` (at most four of them are added, at most two without a counting spouse) and `AgeAddsOne`/`BlindAddsOne` (each condition adds exactly one) |
| StandardDeduction.Is65OrOlder | src/tools/standard_deduction.py:73 | definition: `age and age >= 65`, so a missing age (and the falsy age 0) adds nothing; stated by `AgeAddsOne` (a qualifying age adds one amount, any younger or missing age none) |
| StandardDeduction.SpouseCounts | src/tools/standard_deduction.py:79 | definition: the spouse's conditions count only for married filing jointly and qualifying widow(er); stated by `SpouseOnlyWhenJoint` (otherwise the spouse fields change nothing) and `ConditionCount` |
| StandardDeduction.DeductionFor | src/tools/standard_deduction.py:67-85 | definition: the base plus one additional amount per condition that applies; stated by `DeductionAsSum` (the source's four separate additions), `DeductionBounds` and `DeductionMonotone` |
| Adjustments.JointBranchAsWrittenCases | src/tools/adjustments.py:30 | the as-written joint test is false for every enumeration member and true only for the plain string |
| Adjustments.EducatorExpense | src/tools/adjustments.py:13-33 | at most 600; at most 300 unless a joint spouse is eligible; 0 when nobody counts; not negative for non-negative outlays; its value is stated by `EducatorExpenseShares` |
| Adjustments.EducatorExpenseShares | src/tools/adjustments.py:24-33 | the deduction is the taxpayer's share (the outlay capped at 300 when eligible, else 0) plus the spouse's capped outlay exactly when the return is joint and the spouse is eligible; off a joint return the spouse's figures do not matter |
| Adjustments.EducatorExpenseAsWritten | src/tools/adjustments.py:13-33 | the code as written: every enumeration status gets the single-filer result, even married filing jointly; only the plain string "married_filing_jointly" gets the joint result |
| Adjustments.CalculateEducatorExpense | src/tools/adjustments.py:24-33 | the accumulation computes the intended educator deduction |
| Adjustments.EducatorExamples | src/tools/adjustments.py:108-109 | 400 paid gives 300; a joint couple paying 400 each gives 600 |
| Adjustments.EducatorJointAsWrittenCounterexample | src/tools/adjustments.py:109 | as written, the joint couple with the enumeration status gets 300 instead of 600 |
| Adjustments.ReductionRatioIsExcessOverRange | src/tools/adjustments.py:67-69 | the reduction ratio is the excess MAGI over the width of the status's window |
| Adjustments.StudentLoanInterest | src/tools/adjustments.py:36-71 | MAGI at or below the window start gives `min(paid, 2500)`; at or above the end gives 0 |
| Adjustments.StudentLoanInterestAsWritten | src/tools/adjustments.py:36-71 | the code as written: every enumeration status gets the single filer's 80,000 to 95,000 window; only the plain string "married_filing_jointly" gets the joint window |
| Adjustments.PhaseOutRatio | src/tools/adjustments.py:65-69 | strictly inside the window the ratio is strictly between 0 and 1 |
| Adjustments.ReductionRatioMonotone | src/tools/adjustments.py:68-69 | a higher MAGI gives a larger reduction ratio |
| Adjustments.StudentLoanInterestRange | src/tools/adjustments.py:49-71 | the deduction is between 0 and `min(paid, 2500)` |
| Adjustments.StudentLoanInterestNonIncreasing | src/tools/adjustments.py:61-71 | a higher MAGI never gives a larger deduction |
| Adjustments.InsideWindowNonIncreasing | src/tools/adjustments.py:65-71 | inside the window the rounded phase-out never grows with MAGI |
| Adjustments.StudentLoanInterestExamples | src/tools/adjustments.py:112-114 | 3,000 paid at 50,000 gives 2,500; at 87,500 gives 1,250; jointly at 180,000 gives 1,250 |
| Adjustments.StudentLoanJointAsWrittenCounterexample | src/tools/adjustments.py:114 | as written, the joint example with the enumeration status phases out to 0 instead of 1,250 |
| Adjustments.ExcessBusinessLoss | src/tools/adjustments.py:74-101 | a loss <= 0 gives 0; the add-back is non-negative and below the loss; it is positive exactly when the loss exceeds the status's threshold, and then it is loss minus threshold |
| Adjustments.ExcessBusinessLossAsWritten | src/tools/adjustments.py:74-101 | the code as written: every enumeration status gets the single filer's 305,000 threshold; only the plain string "married_filing_jointly" gets the joint 610,000 threshold |
| Adjustments.ExcessBusinessLossExamples | src/tools/adjustments.py:117-118 | a 400,000 loss adds back 95,000 for a single filer and nothing jointly |
| Adjustments.ExcessBusinessLossJointAsWrittenCounterexample | src/tools/adjustments.py:118 | as written, the joint example with the enumeration status adds back 95,000 instead of 0 |
| Adjustments.AsWrittenAgreesOffJoint | src/tools/adjustments.py:54-59 | for every status but married filing jointly, the as-written and intended adjustments agree |
| Adjustments.StrOf | src/tools/adjustments.py:30 | definition: `str()` of an enumeration member is `FilingStatus.` and the member name, of a plain string the string itself; stated by `JointBranchAsWrittenCases` |
| Adjustments.JointAsWritten | src/tools/adjustments.py:30 | definition: the source's joint test, `str(filing_status)` compared with the member's value; stated by `JointBranchAsWrittenCases` (false for every member, true for the plain string) |
| Adjustments.EducatorExpenseWith | src/tools/adjustments.py:24-33 | definition: the taxpayer's eligible outlay capped at 300, plus the spouse's capped share when the joint branch is taken and the spouse is eligible; stated through `EducatorExpense` (at most 600, at most 300 without the spouse share) and `EducatorExpenseShares` |
| Adjustments.StudentLoanInterestWith | src/tools/adjustments.py:49-71 | definition: the interest capped at 2,500, kept in full up to the phase-out start, 0 from its end, and reduced in proportion in between, rounded to cents; stated by `StudentLoanInterestRange`, `StudentLoanInterestNonIncreasing` and `InsideWindowNonIncreasing` |
| Adjustments.LossThreshold | src/tools/adjustments.py:92-96 | definition: 610,000 on the joint branch and 305,000 otherwise; stated through `ExcessBusinessLoss` (a positive add-back plus the threshold is the loss) |
| Adjustments.ExcessBusinessLossWith | src/tools/adjustments.py:89-101 | definition: 0 for a profit or a loss up to the threshold, the part above it otherwise; stated through `ExcessBusinessLoss` and `ExcessBusinessLossAsWritten` |
| FormAgents.FormAgent.constructor | src/core/form_agent.py:30-54 | a new agent keeps its form name and citation flag, and its three logs start empty |
| FormAgents.FormAgent.Cite | src/core/form_agent.py:108-124 | appends one citation of this form at the end when citations are enabled, nothing otherwise; the other logs are unchanged |
| FormAgents.FormAgent.AddError | src/core/form_agent.py:126-128 | appends one message to the error log and changes nothing else |
| FormAgents.FormAgent.AddWarning | src/core/form_agent.py:130-132 | appends one message to the warning log and changes nothing else |
| FormAgents.FormAgent.CreateResponse | src/core/form_agent.py:134-150 | the response carries the form name, the outputs and the three logs unchanged |
| FormAgents.CitationMap | src/agents/schedule_b_agent.py:70 | every cited line is a key, and every key maps to the source of some citation of that line |
| FormAgents.CitationMapLastWins | src/agents/schedule_c_agent.py:104 | a line cited more than once maps to the source of its last citation |
| FormAgents.CitationMapKeys | src/agents/schedule_se_agent.py:111 | the map's keys are exactly the cited lines |
| FormAgents.RemoveCurrency | src/core/form_agent.py:237 | no `$` or `,` survives, the text does not grow, and text without either symbol is returned unchanged; which characters are kept, and where, is stated by `RemoveCurrencyDollar`, `RemoveCurrencyComma` and `RemoveCurrencyOther` |
| FormAgents.RemoveCurrencyAppend | src/core/form_agent.py:237 | removing the symbols from two texts joined is removing them from each text and joining the results |
| FormAgents.RemoveCurrencyDollar | src/core/form_agent.py:237 | a `$` anywhere in the text is dropped, and the text on each side is kept |
| FormAgents.RemoveCurrencyComma | src/core/form_agent.py:237 | a `,` anywhere in the text is dropped, and the text on each side is kept |
| FormAgents.RemoveCurrencyOther | src/core/form_agent.py:237 | any other character is kept, in its place between the cleaned text on each side |
| FormAgents.FindMatch | src/core/form_agent.py:240 | the search returns the leftmost place where `-?\d` begins, and none only when there is no such place |
| FormAgents.DigitRun | src/core/form_agent.py:240 | the greedy `\d*` run is all digits and stops at a non-digit or the end |
| FormAgents.ExtractNumber | src/core/form_agent.py:232-244 | text with no digit gives 0; the number read from text that holds one, with its sign, thousands commas and fraction, is stated by `ExtractNumberReads` |
| FormAgents.ExtractNumberIgnoresCurrency | src/core/form_agent.py:237 | a `$` or `,` inserted anywhere in the text does not change the number read |
| FormAgents.ExtractNumberReads | src/core/form_agent.py:237-242 | for text made of prose with no digit (and no stray minus sign before the number), an optional minus sign, digits possibly broken by `$` and `,`, an optional point with fraction digits, and prose that does not go on with a digit, the number read is the signed decimal those digits spell |
| FormAgents.ExtractNumberExample | src/core/form_agent.py:232-244 | "Total: $1,234.56 owed" reads 1234.56 |
| FormAgents.ExtractNegativeExample | src/core/form_agent.py:232-244 | "change: -12.5%" reads -12.5 |
| FormAgents.NoDigitsSurvive | src/core/form_agent.py:237-244 | removing `$` and `,` never creates a digit, so a match needs a digit in the original text |
| FormAgents.ExtractNumberAfterProse | src/core/form_agent.py:237-242 | a whole number after digit-free prose is read back as itself, with or without a leading `$` |
| FormAgents.FormAgent.Entry | src/core/form_agent.py:117-124 | definition: one citation of this form when citations are enabled, none otherwise; stated by `FormAgent.Cite` (the log grows by exactly this entry) |
| FormAgents.MatchStartsAt | src/core/form_agent.py:240 | definition: a match of `-?\d+\.?\d*` begins at a digit or at a minus sign right before a digit; stated by `FindMatch` (leftmost such place, none only when there is no such place) |
| FormAgents.MatchValue | src/core/form_agent.py:241-242 | definition: `float(match.group())`, the signed whole digits plus the fraction digits; stated by `MatchValueOf` (the match reads as the decimal its digits spell) and, through it, `ExtractNumberReads` |
| ScheduleB.TotalInterest | src/agents/schedule_b_agent.py:46-49 | no interest records give 0 |
| ScheduleB.TotalOrdinaryDividends | src/agents/schedule_b_agent.py:58-61 | no dividend records give 0 |
| ScheduleB.ScheduleBAgent.constructor | src/agents/schedule_b_agent.py:23-24 | the agent is for form "schedule-b" and starts with empty logs |
| ScheduleB.ScheduleBAgent.Process | src/agents/schedule_b_agent.py:26-72 | line 4 is the interest total and line 6 the ordinary-dividend total; a "Line 4" and a "Line 6" citation are appended exactly when there are such records; the output map is the line-to-source map of the whole accumulated log |
| ScheduleB.TotalsOrderIndependent | src/agents/schedule_b_agent.py:47-61 | the totals do not depend on the order of the records |
| ScheduleB.TotalsNonNegative | src/agents/schedule_b_agent.py:47-61 | records with no negative amounts give totals that are not negative |
| ScheduleB.TotalInterestAppend | src/agents/schedule_b_agent.py:47-49 | combining two lists of 1099-INT adds their totals |
| ScheduleB.QualifiedDividendsIgnored | src/agents/schedule_b_agent.py:59-61 | only ordinary dividends count; qualified dividends play no part |
| ScheduleB.ScheduleBExample | src/agents/schedule_b_agent.py:82-89 | interest of 150.50 and 75.25 totals 225.75; one dividend of 500 totals 500 |
| ScheduleC.ScheduleCAgent.constructor | src/agents/schedule_c_agent.py:23-24 | the agent is for form "schedule-c" and starts with empty logs |
| ScheduleC.ScheduleCAgent.Process | src/agents/schedule_c_agent.py:26-106 | lines 7, 28 and 31 are gross income, total expenses and net profit; net = gross − expenses; exactly the three citations for lines 7, 28 and 31 are appended, in that order; the filing status plays no part |
| ScheduleC.MealsHalfDeductible | src/agents/schedule_c_agent.py:77 | each extra dollar of meals adds half a dollar of expenses and takes half a dollar off the net |
| ScheduleC.AddOtherExpense | src/agents/schedule_c_agent.py:80 | one more other expense, under a name not yet used, raises the total by its amount |
| ScheduleC.OtherExpensesOrderIndependent | src/agents/schedule_c_agent.py:80 | the order of the other expenses does not matter |
| ScheduleC.ExpensesBoundNet | src/agents/schedule_c_agent.py:62-90 | with no negative expense, total expenses are not negative and the net never exceeds gross income |
| ScheduleC.ScheduleCExample | src/agents/schedule_c_agent.py:116-124 | receipts of 75,000 with the example expenses give expenses of 5,750 and a net of 69,250 |
| ScheduleC.GrossIncome | src/agents/schedule_c_agent.py:53 | definition: line 7 is receipts less returns less cost of goods sold plus other income; stated by `ScheduleCAgent.Process` (the reported line 7) and `ScheduleCExample` |
| ScheduleC.FullyDeductible | src/agents/schedule_c_agent.py:62-79 | definition: the sum of the sixteen categories deducted in full, all but meals and other expenses; stated through `TotalExpenses` and `ExpensesBoundNet` (expenses of non-negative amounts are non-negative) |
| ScheduleC.OtherExpensesTotal | src/agents/schedule_c_agent.py:80 | definition: the sum of the other-expense amounts; stated by `AddOtherExpense` (a new expense adds its amount) and `OtherExpensesOrderIndependent` (order does not matter) |
| ScheduleC.TotalExpenses | src/agents/schedule_c_agent.py:62-81 | definition: line 28, the fully deductible categories plus half the meals plus the other expenses; stated by `ScheduleCAgent.Process`, `MealsHalfDeductible` and `ExpensesBoundNet` |
| ScheduleC.NetProfitLoss | src/agents/schedule_c_agent.py:90 | definition: line 31, gross income less total expenses; stated by `ScheduleCAgent.Process`, `ExpensesBoundNet` (never above gross income) and `ScheduleCExample` |
| ScheduleSE.ScheduleSEAgent.constructor | src/agents/schedule_se_agent.py:33-34 | the agent is for form "schedule-se" and starts with empty logs |
| ScheduleSE.ScheduleSEAgent.Process | src/agents/schedule_se_agent.py:36-113 | at most 400 of profit: all three amounts 0, one "Schedule SE" citation, and an empty output map; above: net earnings, the rounded tax and the rounded half-tax deduction, with the line 4, 12 and 13 citations |
| ScheduleSE.TaxableAmounts | src/agents/schedule_se_agent.py:70-109 | the straight-line arithmetic above the threshold gives the reported amounts |
| ScheduleSE.SeTaxUnderWageBase | src/agents/schedule_se_agent.py:80-87 | up to the wage base the tax is 15.3% of net earnings |
| ScheduleSE.SeTaxOverWageBase | src/agents/schedule_se_agent.py:19-87 | from the wage base on, Social Security is fixed at 20,906.40 and only Medicare grows |
| ScheduleSE.SocialSecurityCapped | src/agents/schedule_se_agent.py:80-81 | the Social Security portion never exceeds 20,906.40, and is not negative for non-negative earnings |
| ScheduleSE.UnroundedSeTaxMonotone | src/agents/schedule_se_agent.py:80-87 | before rounding, more earnings never give less tax |
| ScheduleSE.UnroundedSeTaxAboveThreshold | src/agents/schedule_se_agent.py:52-87 | above the 400 threshold the tax exceeds 56 before rounding |
| ScheduleSE.SeTaxZeroIffNotTaxable | src/agents/schedule_se_agent.py:52-109 | the tax, and also the deduction, is 0 if and only if the profit is at most 400 |
| ScheduleSE.SeTaxNonDecreasing | src/agents/schedule_se_agent.py:70-109 | more profit never gives less tax or a smaller deduction |
| ScheduleSE.DeductionIsHalfTax | src/agents/schedule_se_agent.py:97-109 | the deduction is at most the tax and within 0.0075 of half of it |
| ScheduleSE.ScheduleSEExampleOverWageBase | src/agents/schedule_se_agent.py:137-143 | 200,000 of profit gives net earnings of 184,700, a tax of 26,262.70 and a deduction of 13,131.35 |
| ScheduleSE.ThresholdIsInclusive | src/agents/schedule_se_agent.py:52 | exactly 400 owes nothing; 400.01 owes a positive tax |
| ScheduleSE.Taxable | src/agents/schedule_se_agent.py:52 | definition: SE tax applies only to a net profit above 400, and 400 itself is exempt; stated by `SeTaxZeroIffNotTaxable` and `ThresholdIsInclusive` |
| ScheduleSE.NetEarnings | src/agents/schedule_se_agent.py:70 | definition: line 4, net profit times 92.35%; stated by `TaxableAmounts` and `UnroundedSeTaxAboveThreshold` (above the threshold the tax on it exceeds 56) |
| ScheduleSE.SocialSecurityPortion | src/agents/schedule_se_agent.py:80-81 | definition: 12.4% of the earnings up to the 168,600 wage base; stated by `SocialSecurityCapped` (never above 20,906.40) and `SeTaxOverWageBase` |
| ScheduleSE.MedicarePortion | src/agents/schedule_se_agent.py:84 | definition: 2.9% of all earnings, with no cap; stated through `UnroundedSeTax` by `SeTaxUnderWageBase` (15.3% in all under the wage base) and `SeTaxOverWageBase` |
| ScheduleSE.UnroundedSeTax | src/agents/schedule_se_agent.py:87 | definition: line 12 before rounding, the Social Security and Medicare portions together; stated by `SeTaxUnderWageBase`, `SeTaxOverWageBase` and `UnroundedSeTaxMonotone` |
| ScheduleSE.ReportedNetEarnings | src/agents/schedule_se_agent.py:52-106 | definition: the reported net earnings, 0 at or under the threshold and unrounded above it; stated by `ScheduleSEAgent.Process`, `TaxableAmounts` and `ScheduleSEExampleOverWageBase` |
| ScheduleSE.ReportedSeTax | src/agents/schedule_se_agent.py:52-107 | definition: the reported tax, 0 at or under the threshold and rounded to cents above it; stated by `ScheduleSEAgent.Process`, `SeTaxZeroIffNotTaxable`, `SeTaxNonDecreasing` and `ThresholdIsInclusive` |
| ScheduleSE.ReportedDeduction | src/agents/schedule_se_agent.py:97-108 | definition: the reported deduction, half the unrounded tax rounded to cents, 0 at or under the threshold; stated by `ScheduleSEAgent.Process` and `DeductionIsHalfTax` (within 0.0075 of half the reported tax) |
| Form1040.QualifyingChildren | src/agents/form_1040_agent.py:227 | the count is at most the number of dependents, and 0 exactly when none is a qualifying child |
| Form1040.IncomeStep | src/agents/form_1040_agent.py:93-142 | definition of step 1 on the record; `CalculateIncome` is proved to compute it |
| Form1040.AdjustmentStep | src/agents/form_1040_agent.py:144-154 | definition of step 2; `CalculateAdjustments` is proved to compute it |
| Form1040.AgiStep | src/agents/form_1040_agent.py:156-165 | definition of step 3; `CalculateAgi` is proved to compute it |
| Form1040.DeductionStep | src/agents/form_1040_agent.py:167-191 | definition of step 4; `CalculateDeductions` is proved to compute it |
| Form1040.TaxableIncomeStep | src/agents/form_1040_agent.py:193-205 | definition of step 5; `CalculateTaxableIncome` is proved to compute it |
| Form1040.TaxStep | src/agents/form_1040_agent.py:207-218 | definition of step 6; `CalculateTax` is proved to compute it |
| Form1040.CreditStep | src/agents/form_1040_agent.py:220-240 | definition of step 7; `CalculateCredits` is proved to compute it and `ChildCreditBounds` bounds the credit |
| Form1040.TotalTaxStep | src/agents/form_1040_agent.py:250-261 | definition of step 9; `CalculateTotalTax` is proved to compute it |
| Form1040.PaymentStep | src/agents/form_1040_agent.py:263-289 | definition of step 10; `CalculatePayments` is proved to compute it |
| Form1040.Settle | src/agents/form_1040_agent.py:291-314 | definition of step 11; `CalculateRefundOrOwed` is proved to compute it and `SettleIsEitherOr` states what it means |
| Form1040.FilledLines | src/agents/form_1040_agent.py:31-89 | definition: steps 1 to 10 in the agent's order on a record with every line 0 |
| Form1040.ComputeLines | src/agents/form_1040_agent.py:31-91 | definition: the eleven steps in order; `Process` is proved to compute it, and its line relations are stated by `ComputedLinesRelations`, `ComputedLineArithmetic`, `ComputedIncomeLines` and `AgentReturnAlwaysOwes` |
| Form1040.Form1040Agent.constructor | src/agents/form_1040_agent.py:28-29 | the agent is for form "1040", its logs start empty and its record has every line 0 |
| Form1040.Form1040Agent.CalculateIncome | src/agents/form_1040_agent.py:93-142 | lines 1z, 2b, 3b and 8 copy the inputs and line 9 is their sum; 2b, 3b and 8 are cited only when positive |
| Form1040.Form1040Agent.CalculateAdjustments | src/agents/form_1040_agent.py:144-154 | line 10 copies the Schedule 1 adjustments, cited only when positive |
| Form1040.Form1040Agent.CalculateAgi | src/agents/form_1040_agent.py:156-165 | line 11 is line 9 less line 10 of the record |
| Form1040.Form1040Agent.CalculateDeductions | src/agents/form_1040_agent.py:167-191 | line 12 is the standard deduction of the status and the age and blindness fields, and the lookup cannot fail |
| Form1040.Form1040Agent.CalculateTaxableIncome | src/agents/form_1040_agent.py:193-205 | line 15 is AGI less the deduction, floored at 0 |
| Form1040.Form1040Agent.CalculateTax | src/agents/form_1040_agent.py:207-218 | line 16 is the bracket tax of line 15, and the lookup cannot fail |
| Form1040.Form1040Agent.CalculateCredits | src/agents/form_1040_agent.py:220-240 | with a qualifying child line 19 is the smaller of 2,000 per child and line 16, cited; otherwise it and the log are unchanged |
| Form1040.Form1040Agent.CalculateOtherTaxes | src/agents/form_1040_agent.py:242-248 | lines 22 and 23 are left as they are |
| Form1040.Form1040Agent.CalculateTotalTax | src/agents/form_1040_agent.py:250-261 | line 24 is line 16 less line 19 plus line 23 |
| Form1040.Form1040Agent.CalculatePayments | src/agents/form_1040_agent.py:263-289 | lines 25a and 33 are 0 because the taxpayer record has no W-2 list; only line 33 is cited |
| Form1040.Form1040Agent.CalculateRefundOrOwed | src/agents/form_1040_agent.py:291-314 | payments above the total tax give a refund on line 34 and 0 on line 37, otherwise 0 and the amount owed; the branch taken is cited |
| Form1040.Form1040Agent.Process | src/agents/form_1040_agent.py:31-91 | the eleven steps in order on a fresh record, with the line-to-source map of the agent's whole log |
| Form1040.SettleIsEitherOr | src/agents/form_1040_agent.py:295-308 | refund and amount owed are never both non-zero, never negative, their difference is payments less total tax, and a refund appears exactly when payments exceed the tax; no other line changes |
| Form1040.ChildCreditBounds | src/agents/form_1040_agent.py:227-234 | the credit is between 0 and the tax, at most 2,000 per child, and 0 exactly when there is no child or no tax |
| Form1040.ComputedLinesRelations | src/agents/form_1040_agent.py:93-261 | on the agent's record: line 9 is the sum of the income lines, 11 = 9 − 10, line 15 is not negative and is 11 − 12 when positive, 16 is the tax of 15, 12 is the standard deduction, 0 <= 19 <= 16, 24 = 16 − 19 + 23, and 22 = 23 = 0 |
| Form1040.ComputedLineArithmetic | src/agents/form_1040_agent.py:131-255 | the sums, the floor at 0 on line 15, and line 23 left at 0 |
| Form1040.ComputedIncomeLines | src/agents/form_1040_agent.py:96-148 | lines 1z, 2b, 3b, 8 and 10 copy the agent's inputs |
| Form1040.AgentReturnAlwaysOwes | src/agents/form_1040_agent.py:266-308 | with payments always 0, the agent's own record never shows a refund and owes the whole total tax |
| Form1040.TaxNonDecreasingInWages | src/agents/form_1040_agent.py:97-212 | more wages never lower line 16 |
| Form1040.SingleWageEarnerExample | tests/test_components.py:55-84 | a single filer with 50,000 of wages gets line 12 14,600, line 15 35,400, tax 4,016 and owes 4,016 |
| Form1040.LineDeduction | src/agents/form_1040_agent.py:174-185 | definition: line 12 is the standard deduction for the status and the taxpayer's and spouse's age and blindness; stated by `Form1040Agent.CalculateDeductions` and `SingleWageEarnerExample` (14,600 for a single filer of 35) |
| Form1040.ChildCredit | src/agents/form_1040_agent.py:229-234 | definition: 2,000 per qualifying child, never more than the tax; stated by `ChildCreditBounds` |
| ArithmeticVerification.Line9Errors | src/verifiers/arithmetic_verifier.py:40-56 | at most one error, on line 9 |
| ArithmeticVerification.Line11Errors | src/verifiers/arithmetic_verifier.py:59-70 | at most one error, on line 11 |
| ArithmeticVerification.Line15Errors | src/verifiers/arithmetic_verifier.py:73-84 | at most one error, on line 15 |
| ArithmeticVerification.SignErrors | src/verifiers/arithmetic_verifier.py:87-96 | at most one error, on line 15 |
| ArithmeticVerification.Line24Errors | src/verifiers/arithmetic_verifier.py:99-110 | at most one error, on line 24 |
| ArithmeticVerification.ArithmeticVerifier.constructor | src/verifiers/arithmetic_verifier.py:23-24 | the verifier is named "Arithmetic Verifier" |
| ArithmeticVerification.ArithmeticVerifier.VerifyForm1040 | src/verifiers/arithmetic_verifier.py:26-176 | the errors are those of the line checks then the refund-or-owed checks (`ExpectedErrors`), the warnings those of `ExpectedWarnings`, and passed holds if and only if there is no error, which is if and only if every rule holds |
| ArithmeticVerification.CheckLineArithmetic | src/verifiers/arithmetic_verifier.py:39-110 | the checks of lines 9, 11, 15 (twice) and 24 give their errors in that order |
| ArithmeticVerification.CheckRefundOrOwed | src/verifiers/arithmetic_verifier.py:112-162 | appends the refund-branch or the owed-branch errors |
| ArithmeticVerification.CollectWarnings | src/verifiers/arithmetic_verifier.py:164-169 | the high-AGI warning, then the zero-tax warning, each when its condition holds (`ExpectedWarnings`) |
| ArithmeticVerification.PassesIffChecksHold | src/verifiers/arithmetic_verifier.py:39-173 | no error is reported if and only if every rule holds |
| ArithmeticVerification.Line9ErrorIff | src/verifiers/arithmetic_verifier.py:40-56 | line 9 draws an error if and only if it is more than a cent off lines 1z + 2b + 3b + 8 |
| ArithmeticVerification.Line11ErrorIff | src/verifiers/arithmetic_verifier.py:59-70 | line 11 draws an error if and only if it is more than a cent off the record's own line 9 less line 10 |
| ArithmeticVerification.Line15ErrorIff | src/verifiers/arithmetic_verifier.py:73-96 | line 15 draws an arithmetic error if and only if more than a cent off max(0, 11 − 12), and a separate critical logic error if and only if it is negative |
| ArithmeticVerification.Line24ErrorIff | src/verifiers/arithmetic_verifier.py:99-110 | line 24 draws an error if and only if it is more than a cent off 16 − 19 + 23 |
| ArithmeticVerification.SettleChecks | src/verifiers/arithmetic_verifier.py:113-162 | refund branch: no error if and only if line 34 is within a cent and line 37 exactly 0; owed branch the converse |
| ArithmeticVerification.WarningsOnlyForUnusualValues | src/verifiers/arithmetic_verifier.py:165-176 | at most two warnings: one if and only if AGI exceeds 1,000,000, one if and only if the tax is 0 on positive taxable income |
| ArithmeticVerification.ErrorsIgnoreCitations | src/verifiers/arithmetic_verifier.py:26-176 | the verdict depends on the lines alone, not on the citations |
| ArithmeticVerification.AgentOutputPasses | src/verifiers/arithmetic_verifier.py:39-162 | the Form 1040 agent's own record passes every check |
| ArithmeticVerification.CorrectRecordPasses | tests/test_components.py:97-117 | the correct single-filer record with a 973 refund draws no error and no warning |
| ArithmeticVerification.IncorrectRecordErrors | src/verifiers/arithmetic_verifier.py:220-240 | the second example draws exactly two errors, on line 9 and on line 15, with their expected and actual values |
| ArithmeticVerification.Off | src/verifiers/arithmetic_verifier.py:47 | definition: a recorded line more than a cent from its recomputation; stated by `Line9ErrorIff`, `Line11ErrorIff`, `Line15ErrorIff` and `Line24ErrorIff` (a line is reported exactly when it is off) |
| ArithmeticVerification.SettleErrors | src/verifiers/arithmetic_verifier.py:112-162 | definition: the refund checks when payments exceed the tax, the amount-owed checks otherwise; stated by `CheckRefundOrOwed` and `SettleChecks` |
| ArithmeticVerification.ExpectedErrors | src/verifiers/arithmetic_verifier.py:36-162 | definition: every finding in the source's order; stated by `ArithmeticVerifier.VerifyForm1040`, `PassesIffChecksHold` and the `Line*ErrorIff` lemmas |
| ArithmeticVerification.ExpectedWarnings | src/verifiers/arithmetic_verifier.py:164-169 | definition: the high-AGI and zero-tax warnings; stated by `CollectWarnings` and `WarningsOnlyForUnusualValues` (each appears exactly when its condition holds) |
| ArithmeticVerification.ChecksHold | src/verifiers/arithmetic_verifier.py:39-162 | definition: the verifier's rules stated directly; stated by `PassesIffChecksHold` (no error exactly when they hold) and used as the property `ProcessTaxReturn` promises |
| Orchestrator.MapFilingStatusIff | main.py:269-280 | text maps to a status if and only if it lower-cases to that status's value, or it is no key at all and the status is SINGLE |
| Orchestrator.MissingStatusIsSingle | main.py:277-280 | a missing status is SINGLE |
| Orchestrator.SpelledOutStatusIsSingle | main.py:277-280 | "Married Filing Jointly", with its spaces, is not found and files as SINGLE |
| Orchestrator.TaxReturnProcessor.constructor | main.py:36-49 | four fresh agents with citations enabled and empty logs; no results yet |
| Orchestrator.TaxReturnProcessor.RunScheduleB | main.py:79-87 | Schedule B runs exactly when there is an interest or dividend record, and gives the two totals |
| Orchestrator.TaxReturnProcessor.RunBusinessSchedules | main.py:90-110 | Schedule C runs exactly when there is a business; Schedule SE runs exactly when its net profit is positive, and gives the SE tax and deduction, with the citation map of its log only when that profit exceeds 400; each runs appending to its own log only |
| Orchestrator.TaxReturnProcessor.RunSchedules | main.py:74-174 | each schedule output is present exactly when its schedule runs, with its totals and the citation map of its agent's log (`ScheduleOutputsOf`); a schedule that runs appends its entries to its own log, one that does not appends nothing, and no error or warning is logged; Form 1040's inputs, the SE tax and the total withholding are those `process_tax_return` hands on (`Form1040InputsOf`, `SeTax`, the W-2 withholding sum) |
| Orchestrator.TaxReturnProcessor.RunForm1040 | main.py:176-206 | the returned record is the agent's record, patched, and it passes every check; the agent's own record stays the unpatched one, since the patches apply to the copy the agent returned |
| Orchestrator.TaxReturnProcessor.ProcessTaxReturn | main.py:56-227 | the returned record is the agent's record with the late-line patches (`ReturnedLines`) and passes every verifier check; it is stored with the schedule outputs, each present exactly when its schedule ran and equal to its totals and citation map (`ScheduleOutputsOf`); each agent that runs appends its entries to its own log, and no error or warning is logged; the Form 1040 agent's own record stays unpatched |
| Orchestrator.TaxReturnProcessor.VerifyResults | main.py:229-263 | false with no results; otherwise true if and only if the stored record passes every check |
| Orchestrator.Schedule1Amounts | main.py:132-174 | additional income is the business result net of the excess-loss add-back; total adjustments are the SE-tax deduction plus the educator and student-loan deductions, each counted only when positive (`TotalAdjustments`); the SE tax is passed through |
| Orchestrator.PatchReturn | main.py:190-206 | the patches compute `PatchLines`: lines 25a and 33 the withholding, and lines 23 and 24 redone only with SE tax, then the refund or amount owed |
| Orchestrator.PatchKeepsCitations | main.py:190-206 | the patches leave the citation map alone |
| Orchestrator.PatchChangesOnlyLateLines | main.py:191-198 | only lines 23, 24, 25a, 33, 34 and 37 change, and without SE tax lines 23 and 24 do not |
| Orchestrator.AgentRecordRelations | src/agents/form_1040_agent.py:131-261 | the agent's record satisfies the line relations the patches rely on |
| Orchestrator.PatchPasses | main.py:188-206 | patching any record with those relations gives one that passes every check and is settled on the withholding |
| Orchestrator.ReturnedLinesPass | main.py:188-206 | every record the orchestrator returns passes every check of the arithmetic verifier |
| Orchestrator.ReturnedLinesSettle | main.py:197-206 | the returned record's payments are the withholding, and the refund or the amount owed settles the balance |
| Orchestrator.SeTaxOnlyAboveMinimumProfit | main.py:100-108 | SE tax is owed exactly for a business whose profit exceeds 400; it and its deduction are not negative, and the deduction is at most the tax |
| Orchestrator.AdditionalIncomeCapsLoss | main.py:137-145 | additional income is at least the business result and at least minus the loss threshold; it equals the business result down to that threshold, and is exactly minus the threshold below it, the excess loss being added back |
| Orchestrator.StudentLoanPhaseOutUsesPriorIncome | main.py:164-174 | line 9 is the total income, line 10 the total adjustments, and line 11 the income the student-loan phase-out was measured on, less that deduction |
| Orchestrator.NoBusinessNoScheduleAmounts | main.py:136-150 | with no business there is no additional income, no SE tax and nothing on line 23 |
| Orchestrator.MapFilingStatus | main.py:269-280 | definition: the lower-cased text looked up among the status values, SINGLE when absent; stated by `MapFilingStatusIff` |
| Orchestrator.AdditionalIncome | main.py:137-145 | definition: the business result, with the excess loss added back when it is a loss; stated by `AdditionalIncomeCapsLoss` |
| Orchestrator.EducatorDeduction | main.py:152-162 | definition: the educator deduction of the return's amounts and status |
| Orchestrator.StudentLoanDeduction | main.py:164-174 | definition: the student-loan deduction at the income before it; stated by `StudentLoanPhaseOutUsesPriorIncome` |
| Orchestrator.TotalAdjustments | main.py:147-174 | definition: the SE-tax deduction and the positive educator and student-loan deductions; stated by `Schedule1Amounts` and `StudentLoanPhaseOutUsesPriorIncome` |
| Orchestrator.Form1040InputsOf | main.py:176-185 | definition: what Form 1040 is given; `RunSchedules` is proved to build it |
| Orchestrator.PatchLines | main.py:190-206 | definition: the late-line patches; stated by `PatchReturn`, `PatchChangesOnlyLateLines` and `PatchPasses` |
| Orchestrator.ReturnedLines | main.py:176-206 | definition: the patched agent record; stated by `ProcessTaxReturn`, `ReturnedLinesPass` and `ReturnedLinesSettle` |
| Orchestrator.AdditionalIncomeAsCalled | main.py:137-145 | definition: additional income with the excess-loss add-back as the source calls it, on the enumeration member |
| Orchestrator.EducatorDeductionAsCalled | main.py:152-162 | definition: the educator deduction as the source calls it |
| Orchestrator.StudentLoanDeductionAsCalled | main.py:164-174 | definition: the student-loan deduction as the source calls it, at the as-called income before it |
| Orchestrator.TotalAdjustmentsAsCalled | main.py:147-174 | definition: the total adjustments as the source calls the adjustment functions |
| Orchestrator.Form1040InputsAsCalled | main.py:176-185 | definition: Form 1040's inputs as the source builds them |
| Orchestrator.ReturnedLinesAsCalled | main.py:176-206 | definition: the record the source returns, every adjustment called on the enumeration member |
| Orchestrator.AsCalledNeverJoint | main.py:137-174 | as called, every return's additional income, adjustments and Form 1040 inputs are those of the intended rules applied to the same return filed as SINGLE: the joint branch is never taken |
| Orchestrator.AsCalledAgreesOffJoint | main.py:132-206 | for every status but married filing jointly, the as-called Form 1040 inputs and returned record are exactly the modelled ones |
| Orchestrator.AsCalledJointLossDiverges | main.py:141-145 | a joint return with a 400,000 business loss: as called, additional income is -305,000; under the intended rule it is -400,000 |
| Orchestrator.ReturnedLinesAsCalledPass | main.py:188-206 | the record the source returns, as called, also passes every check of the arithmetic verifier |
| Orchestrator.RunsScheduleB | main.py:79 | definition: Schedule B runs when there is any 1099-INT or 1099-DIV record; stated by `TaxReturnProcessor.RunScheduleB` |
| Orchestrator.Interest | main.py:120 | definition: line 2b is Schedule B's interest, or 0 when it did not run; stated by `TaxReturnProcessor.RunScheduleB` and `Schedule1Amounts` |
| Orchestrator.Dividends | main.py:121 | definition: line 3b is Schedule B's dividends, or 0 when it did not run; stated by `TaxReturnProcessor.RunScheduleB` and `Schedule1Amounts` |
| Orchestrator.NetBusiness | main.py:137 | definition: Schedule C's net profit or loss, or 0 without a business; stated by `TaxReturnProcessor.RunBusinessSchedules` and `SeTaxOnlyAboveMinimumProfit` |
| Orchestrator.RunsScheduleSE | main.py:90-101 | definition: Schedule SE runs only for a business with a profit; stated by `TaxReturnProcessor.RunBusinessSchedules` |
| Orchestrator.SeTax | main.py:133-150 | definition: Schedule SE's tax when it ran, 0 otherwise; stated by `SeTaxOnlyAboveMinimumProfit` (positive exactly for a business above the 400 threshold) and `NoBusinessNoScheduleAmounts` |
| Orchestrator.SeDeduction | main.py:147-149 | definition: Schedule SE's deduction when it ran, 0 otherwise; stated by `SeTaxOnlyAboveMinimumProfit` (never above the SE tax) and `NoBusinessNoScheduleAmounts` |
| Orchestrator.TotalIncome | main.py:166 | definition: wages, interest, dividends and additional income; stated by `StudentLoanPhaseOutUsesPriorIncome` (it is line 9 of the returned record) |
| Orchestrator.StudentLoanMagi | main.py:166 | definition: the income less the adjustments known before the student-loan interest; stated by `StudentLoanPhaseOutUsesPriorIncome` (line 11 is this income less the student-loan deduction) |

## Left out

- Python floats: amounts are exact reals, so binary representation error, `inf` and `round`'s round-half-even on floats are not modelled.
- RoundCents: rounds half up. Python's `round(x, 2)` on a float can differ on an exact half cent, where the float's binary value decides.
- The LLM and PDF plumbing of the agent base: `LLMEngine`, `PDFNavigator`, `_load_form_pdf`, `get_irs_instructions`, `generate_with_context` and `calculate_line`. All of these are foreign calls whose values never reach the deterministic pipeline. The one trace they can leave is a warning: `_load_form_pdf` appends one when no PDF opens (src/core/form_agent.py:57, 68-74). The modelled agents start with empty warning logs, as when the PDF is found, so that warning is not modelled. `src/core/llm_engine.py` and `src/tools/pdf_navigator.py` are not part of this model.
- The f-string text of citation reasoning and of the "High AGI" warning: each is an opaque constant string. The amount the source formats into the text is not modelled.
- `_extract_number` handles ASCII digits only. Python's `\d` also matches other Unicode digits. Likewise `lower()` is modelled on ASCII letters only.
- `_parse_inputs` is modelled only for its filing-status mapping (`MapFilingStatus`). The orchestrator works on already-parsed `TaxInputs`. The dict-reading loops, their defaults, and the way they never parse 1099-DIV records are not modelled. A `TaxInputs` value may still carry dividend records.
- The educator and student-loan amounts and flags are not declared on `TaxInputs` or `TaxpayerInfo` (src/core/types.py:78-104), which are pydantic models with the default configuration. As written, `_parse_inputs` assigns `taxpayer.is_eligible_educator` (main.py:339), which such a model refuses with a `ValueError`. The three amount keywords of the `TaxInputs(...)` call (main.py:342-351) are dropped, so `process_tax_return` reading `tax_inputs.educator_expenses_paid` (main.py:153) would fail with an `AttributeError` even on a directly built `TaxInputs`. As the text stands, `process_tax_return` therefore raises on every input and returns no record. The model follows the evidently intended pipeline, in which these values are carried: it takes them as explicit inputs (`ReturnInputs`). The failure itself is not modelled.
- `main()`, `_log`, `app.py`, `demo.py`, the `print_*` helpers and the `__main__` blocks: console, file and UI code. Their expected values appear only as example lemmas.
- `BusinessIncome.other_expenses` is a `Dict[str, float]`. It is modelled as a sequence of named amounts in insertion order, which stands for a dictionary only when the names are distinct; a second entry under an existing name, which a dictionary would replace, is not modelled.
- `Dependent` details beyond the qualifying-child flag, `Schedule1Inputs`/`Outputs` and `Schedule8812Inputs`/`Outputs` are declared but unused by the pipeline, so they carry no properties.
- Adjustments.StudentLoanInterest: the range and monotonicity lemmas assume a paid amount that is a whole number of cents. It is the rounding that needs this. The closed form strictly inside the window is stated through `ReductionRatio`, `PhasedOut` and `ReductionRatioIsExcessOverRange`, not as one ensures. It states the intended joint window; as called with the enumeration member the source uses the single one (`StudentLoanInterestAsWritten`).
- Adjustments.EducatorExpense: states the intended joint rule. Every call in the source passes the enumeration member and so gets the single-filer result (`EducatorExpenseAsWritten`); only the plain string "married_filing_jointly" reaches the joint rule.
- Adjustments.ExcessBusinessLoss: states the intended joint threshold. As called with the enumeration member it uses the single filer's (`ExcessBusinessLossAsWritten`).
- Orchestrator.TaxReturnProcessor.ProcessTaxReturn: on a married-filing-jointly return it applies the intended joint rules of the three adjustments. The source as called never takes the joint branch. Its record is `ReturnedLinesAsCalled`: `AsCalledNeverJoint` relates it to the SINGLE rules, `AsCalledAgreesOffJoint` shows it equal to the modelled record for every other status, and `AsCalledJointLossDiverges` gives a joint return where the two differ.
- Orchestrator.TaxReturnProcessor.RunSchedules: the same intended joint rules; the as-called inputs are `Form1040InputsAsCalled`.
- Orchestrator.Schedule1Amounts: the same intended joint rules; the as-called amounts are `AdditionalIncomeAsCalled` and `TotalAdjustmentsAsCalled`.
- Orchestrator.AdditionalIncome: the intended joint threshold; the as-called twin is `AdditionalIncomeAsCalled`.
- Orchestrator.EducatorDeduction: the intended joint rule; the as-called twin is `EducatorDeductionAsCalled`.
- Orchestrator.StudentLoanDeduction: the intended joint window; the as-called twin is `StudentLoanDeductionAsCalled`.
- Orchestrator.TotalAdjustments: the intended joint rules; the as-called twin is `TotalAdjustmentsAsCalled`.
- Orchestrator.Form1040InputsOf: the intended joint rules; the as-called twin is `Form1040InputsAsCalled`.
- Orchestrator.ReturnedLines: the intended joint rules; the as-called twin is `ReturnedLinesAsCalled`, equal to it off married filing jointly (`AsCalledAgreesOffJoint`).
- Orchestrator.AdditionalIncomeCapsLoss: the threshold is the intended one of the status; as called, a joint return gets the single filer's (`AsCalledJointLossDiverges`).
- ArithmeticVerification.ArithmeticVerifier.VerifyForm1040: its check-by-check list building is split across the methods `CheckLineArithmetic`, `CheckRefundOrOwed` and `CollectWarnings`.
- ScheduleSE.ScheduleSEAgent.Process: the $400 gate tests the net profit itself, as the code does, and not the net earnings that its comment speaks of.
- Orchestrator.MapFilingStatusIff: an unrecognised status becomes SINGLE silently, as in the source. No error path exists.
- Form1040.Form1040Agent.CalculatePayments: line 25a is always 0, because `hasattr(inputs.taxpayer, 'w2')` is false for every taxpayer record.
- Orchestrator.PatchPasses: the product `line34 × line37 == 0` is stated in the form "line 37 is 0 on a refund, line 34 is 0 otherwise".
- The concurrency and persistence of agents across returns: one `TaxReturnProcessor` is modelled. Its agents' logs accumulate across calls, as the source's do.

## Findings

| source | as written | input that shows it | evidently intended | confidence | as-written member | corrected member |
|---|---|---|---|---|---|---|
| src/tools/adjustments.py:30 | `str(filing_status) == FilingStatus.MARRIED_FILING_JOINTLY` is false for every enumeration member, because `str()` of a `(str, Enum)` member is `"FilingStatus.MARRIED_FILING_JOINTLY"` | `calculate_educator_expense(400, True, 400, True, FilingStatus.MARRIED_FILING_JOINTLY)` gives 300 (`Adjustments.EducatorJointAsWrittenCounterexample`) | 600, the value documented at line 109 | not executed | Adjustments.EducatorExpenseAsWritten | Adjustments.EducatorExpense |
| src/tools/adjustments.py:54 | the same test selects the single phase-out window (80,000 to 95,000) for a joint return passed as the enumeration, which is how the orchestrator passes it (main.py:170) | `calculate_student_loan_interest(3000, 180000, FilingStatus.MARRIED_FILING_JOINTLY)` gives 0 (`Adjustments.StudentLoanJointAsWrittenCounterexample`) | 1,250, the value documented at line 114 | not executed | Adjustments.StudentLoanInterestAsWritten | Adjustments.StudentLoanInterest |
| src/tools/adjustments.py:93 | the same test selects the 305,000 threshold for a joint return passed as the enumeration | `calculate_excess_business_loss(400000, FilingStatus.MARRIED_FILING_JOINTLY)` gives 95,000 (`Adjustments.ExcessBusinessLossJointAsWrittenCounterexample`) | 0, the value documented at line 118 | not executed | Adjustments.ExcessBusinessLossAsWritten | Adjustments.ExcessBusinessLoss |
