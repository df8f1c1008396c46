# federal-tax-prep: the 2018 Form 1040 arithmetic, in Dafny

This project models the tax arithmetic of a Python preparer for the 2018
U.S. individual return. The preparer reads one finance record (a JSON data
file) and fills Form 1040 with the schedules, worksheets and forms it
needs. It then hands the filled documents to a PDF merger in a fixed order.

The model covers these parts of the preparer:

- **Constants** (`forms/constants.py`): the year/status tables and `get_value`.
- **Schedule C-EZ** (`forms/cez_1040.py`): five expense slots, the vehicle
  line, meals, receipts and net profit.
- **Schedule SE** (`forms/se_1040.py`): the short and long schedules,
  self-employment tax, and the deduction of half that tax.
- **Schedule 1** (`forms/s1_1040.py`): additional income, adjustments, and
  the student-loan interest deduction.
- **Schedule 3** (`forms/s3_1040.py`): foreign tax and education credits,
  and the short-circuit modes.
- **Form 8863 Part III** (`forms/f_8863_iii.py`): one student's American
  Opportunity or Lifetime Learning entry.
- **Form 8863 Parts I and II** (`forms/f_8863_i.py`): the phase-outs and the
  credit limit worksheet.
- **Child tax credit worksheet** (`forms/worksheet__child_credit.py`).
- **Form 1040** (`forms/s_1040.py`), in stages:
  1. the header;
  2. income down to adjusted gross income;
  3. deductions, including the QBI deduction, down to taxable income;
  4. the tax;
  5. credits, payments, and the refund or amount owed.
- **Payment voucher** (`forms/s_1040v.py`).
- **The driver** (`do_taxes.py`): argument normalisation, and which forms
  are attached in which order.

Every raise in the source on a key the record may lack, and every other raise
listed here, becomes an `Err` of `Outcomes.Result`. The exception is the
`line_27` KeyError of the second finding below, which the composed return
does not raise because it is built on the corrected Form 8863 Part III. Keys
every record must carry are plain fields (see "## Left out"). The raises:

- a key read without a guard;
- a missing constant;
- a sixth expense line;
- a fifth dependent;
- taxable income above the QBI threshold.

Money is `real`, and a dollars/cents field stores its value exactly.

The composed return (Form 1040, the voucher and the driver's list) is built on
the corrected halves of both findings below: the corrected long Schedule SE
and the corrected Form 8863 Part III. "## Left out" names the members this
affects.

The Form 1040 builder and the schedules call one another. Schedule 1 asks
Form 1040 for `total_income`. Form 8863 Part I asks it for `tax_due`. Those
names are not checkpoints of the 1040 builder, so as written the calls
recurse without end. The model builds the return in stages instead:

1. Schedule 1 is built once without total income, for its additional
   income. That income does not depend on total income
   (`Schedule1.SumIncomeIgnoresTotalIncome`).
2. Schedule 1 is built again with total income, for its adjustments.
3. Schedule 3, Form 8863 and the child credit worksheet are built once AGI
   and the tax are known.

The 1040 checkpoints (`Schedule A`, `Tax Worksheet`, `Child Credit`) are
the enumeration `Form1040.Checkpoint`, and the Schedule 3 modes are
`Schedule3.Mode`.

The model follows the code in these places:

- A sixth Schedule C-EZ expense aborts the build (an IndexError). It is
  not dropped silently.
- `get_value` has no composite-key case.
- Payments exactly equal to the total tax give an amount owed of 0, not a
  refund of 0.
- Inside the phase-out range, the student-loan deduction is the capped
  interest times the fraction of the range already crossed. It therefore
  grows with income there (`Schedule1.StudentLoanRisesInsideRange`).

## Model

| member | source | states |
|---|---|---|
| Constants.GetValue | forms/constants.py:27-34 | the lookup succeeds exactly when the table, the year, and the wildcard or the status entry exist; the `all` entry wins over the status entry; every failure is a missing constant, never a default |
| Constants.WildcardIgnoresStatus | forms/constants.py:30-32 | with an `all` entry, every two statuses get the same value, namely that entry |
| Constants.ShippedDefaults | forms/constants.py:25-27 | a lookup with the default status and year reads the single 2018 entry (12,000 standard deduction, 157,500 QBI threshold) |
| Constants.ShippedStandardDeduction | forms/constants.py:3-11 | every status has a 2018 standard deduction; joint and surviving spouse are twice single; married separate equals single |
| Constants.ShippedWildcardTables | forms/constants.py:13-23 | the QBI threshold and the state-tax cap are the same for any status string |
| Constants.ShippedLookupFailures | forms/constants.py:27-34 | another year, an unknown status, or the absent `STANDARD_DEDUCTION+` table fail with the missing key named |
| Constants.StatusSubstrings | forms/s_1040.py:122-123 | the substring test for `married` holds exactly for the two married statuses, and the one for `widow` exactly for the surviving spouse |
| Finance.RequiredStatus | forms/f_8863_i.py:44 | reading the filing status without a default fails exactly when the record has none |
| Finance.StatusOrSingle | forms/s_1040.py:142 | a missing filing status defaults to single |
| ScheduleCEZ.AllExpenses | forms/cez_1040.py:58-64 | the listed expenses, unchanged and in order, followed by the vehicle line when there is a vehicle |
| ScheduleCEZ.FillSlots | forms/cez_1040.py:56-71 | expense j goes to slot j with its description and amount; an expense past the fifth slot fails |
| ScheduleCEZ.CalculateExpenses | forms/cez_1040.py:49-80 | fails iff there are more than five expenses; otherwise every expense fills its own slot in order, and the total is all amounts plus meals |
| ScheduleCEZ.Receipts | forms/cez_1040.py:97-104 | receipts are a whole number, the 1099-MISC income cut toward zero, or 0 without 1099-MISC forms |
| ScheduleCEZ.Build | forms/cez_1040.py:82-122 | net profit is receipts less all expenses and meals; the whole worksheet is carried into the schedule |
| ScheduleCEZ.VehicleOverflowFails | forms/cez_1040.py:56-67 | five listed expenses and a vehicle make the build fail rather than drop the vehicle |
| ScheduleCEZ.VehicleLineLast | forms/cez_1040.py:58-71 | with a vehicle, the last slot is the vehicle line and the earlier slots are the listed expenses in their input order |
| ScheduleCEZ.TotalIsSumOfSlots | forms/cez_1040.py:66-78 | the worksheet total is the sum of the slot amounts plus meals |
| ScheduleSE.BuildShort | forms/se_1040.py:57-78 | line 4 is income times one less half the combined rate; the tax is line 4 at the combined rate; the deduction is half the tax |
| ScheduleSE.LongLine4Bounds | forms/se_1040.py:65-93 | with a combined rate between 0 and 200%, long line 4 never exceeds line 3, is non-negative for a profit, and for a profit equals the short schedule's line 4 |
| ScheduleSE.Line9 | forms/se_1040.py:111 | line 9 is the larger of 0 and the threshold less the wages |
| ScheduleSE.BuildLongAsWritten | forms/se_1040.py:81-127 | the long schedule as written: exempt (tax and deduction 0) iff line 4 is under the minimum; otherwise line 10 is the smaller of lines 4 and 9 at the combined rate, plus Medicare on line 11 |
| ScheduleSE.BuildLong | forms/se_1040.py:81-127 | the same schedule with line 10 at the social security rate |
| ScheduleSE.Build | forms/se_1040.py:43-55 | the long schedule is used iff income plus social security wages exceed the threshold, and it is the corrected long schedule `ScheduleSE.BuildLong`, not the as-written one; the deduction is half the tax on either path |
| ScheduleSE.ThresholdBoundary | forms/se_1040.py:50-53 | with no wages, the short schedule is used at the threshold and one dollar below it, and the long one a dollar above it |
| ScheduleSE.LongAgreesWithShort | forms/se_1040.py:57-127 | where both schedules apply, the long one charges exactly what the short one does |
| ScheduleSE.LongAsWrittenChargesMedicareTwice | forms/se_1040.py:114-121 | where both apply, the long schedule as written charges the Medicare rate on line 4 once more than the short one |
| ScheduleSE.LongAsWrittenCounterexample | forms/se_1040.py:114-121 | a 2018 return with $120,000 of wages and $10,000 of profit is charged $1,553.015 instead of $1,309.415 |
| Schedule1.CappedInterest | forms/s1_1040.py:49-50 | the interest used is at most the maximum deduction, and is one of the two |
| Schedule1.StudentLoanDeduction | forms/s1_1040.py:46-59 | the full capped interest at or under the phase-out start; 0 at or over the end; in between, the capped interest times the fraction of the range crossed |
| Schedule1.StudentLoanBounds | forms/s1_1040.py:46-59 | the deduction lies between 0 and the capped interest at every income |
| Schedule1.StudentLoanRisesInsideRange | forms/s1_1040.py:55-57 | inside the phase-out range, the deduction as written does not fall as income rises |
| Schedule1.IncomeFields | forms/s1_1040.py:81-93 | business income is written iff self-employed, and capital gain iff there are 1099-DIVs; nothing else is written |
| Schedule1.LoanInterest | forms/s1_1040.py:130-136 | the deduction is taken iff the record has interest and total income is supplied; it then needs the filing status, and it uses total income, not AGI |
| Schedule1.Build | forms/s1_1040.py:62-147 | fails only on the student-loan status read; `sum_income` and `adjustments` sum their stem lists over the written amounts |
| Schedule1.IncomeStemsUnrolled | forms/s1_1040.py:97-104 | the income total is the sum of the nine named stems |
| Schedule1.AdjustmentStemsUnrolled | forms/s1_1040.py:138-145 | the adjustment total is the sum of the eleven named stems |
| Schedule1.IncomeFieldsTotal | forms/s1_1040.py:81-104 | the written income amounts total business income plus capital gain |
| Schedule1.SumIncomeClosedForm | forms/s1_1040.py:81-104 | `sum_income` is business income plus capital gain, each 0 when absent; the other seven stems count 0 |
| Schedule1.AdjustmentAmounts | forms/s1_1040.py:108-136 | each adjustment stem the schedule writes holds its record amount, or 0 when absent |
| Schedule1.UnwrittenAdjustments | forms/s1_1040.py:138-141 | the five adjustment stems the schedule never writes count 0 |
| Schedule1.AdjustmentFieldsTotal | forms/s1_1040.py:106-145 | the written adjustment amounts total the five adjustments the schedule fills in |
| Schedule1.AdjustmentsClosedForm | forms/s1_1040.py:106-145 | `adjustments` is educator expenses + HSA + SE deduction + SEP + IRA + student-loan deduction, each 0 when absent |
| Schedule1.SumIncomeIgnoresTotalIncome | forms/s1_1040.py:71-104 | additional income is the same whatever total income is fed back |
| Form8863PartIII.UndergradIffLetter | forms/f_8863_iii.py:54 | the undergraduate test holds iff the answer contains the letter `y` |
| Form8863PartIII.Line27 | forms/f_8863_iii.py:60 | line 27 is the smaller of the maximum claim and the expenses |
| Form8863PartIII.Line28 | forms/f_8863_iii.py:62 | line 28 is the larger of 0 and line 27 less the fully covered amount |
| Form8863PartIII.AocAsWritten | forms/f_8863_iii.py:60-70 | as written, the credit fails with the key `line_27` missing iff line 28 is 0; otherwise it is line 29 plus the fully covered amount |
| Form8863PartIII.Aoc | forms/f_8863_iii.py:60-70 | the corrected credit: line 27 when line 28 is 0, otherwise line 29 plus the fully covered amount |
| Form8863PartIII.AocAgreesWhereDefined | forms/f_8863_iii.py:60-70 | wherever the code as written succeeds, it equals the corrected credit |
| Form8863PartIII.AocClosedForm | forms/f_8863_iii.py:60-70 | the credit is the claim up to the fully covered amount, plus the partial rate on line 28 |
| Form8863PartIII.AocBounds | forms/f_8863_iii.py:60-70 | for non-negative expenses and a rate of at most 100%, the credit lies between 0 and line 27 |
| Form8863PartIII.AocAsWrittenCounterexample | forms/f_8863_iii.py:65-66 | $1,500 of expenses under the 2018 amounts fails as written; the intended credit is $1,500 |
| Form8863PartIII.CreditAsWritten | forms/f_8863_iii.py:54-76 | an undergraduate gets the credit as written; anyone else gets the Lifetime Learning entry of their expenses |
| Form8863PartIII.StudentCredit | forms/f_8863_iii.py:54-76 | American Opportunity iff undergraduate; otherwise Lifetime Learning with the expenses |
| Form8863PartIII.Fill | forms/f_8863_iii.py:32-52 | the SSN boxes are the `-`-separated groups, and the EIN box holds the EIN without dashes |
| Form8863PartIII.BuildAsWritten | forms/f_8863_iii.py:28-78 | the filing status is read first and its absence fails; otherwise it succeeds iff the credit as written does |
| Form8863PartIII.Build | forms/f_8863_iii.py:28-78 | fails iff there is no filing status; otherwise it is the filled part with the corrected credit |
| Form8863PartIII.OneCreditLine | forms/f_8863_iii.py:54-76 | exactly one of lines 30 and 31 is written: line 30 for an undergraduate, and line 31 (the expenses) for anyone else |
| Form8863PartIII.SsnGroupsRoundTrip | forms/f_8863_iii.py:42-48 | there is one SSN box more than dashes; no box holds a dash; joining the boxes with `-` gives the SSN back |
| Form8863PartIII.EinDigits | forms/f_8863_iii.py:50-52 | the EIN boxes are the EIN's groups run together: no dash, and the length is the EIN's less its dashes |
| Schedule3.ModeNamed | forms/s3_1040.py:51-65 | the three short-circuit names select their modes, and every other string selects the full build |
| Schedule3.ForeignTaxAppend | forms/s3_1040.py:44-49 | the foreign tax over two lists of 1099-DIVs is the sum of the foreign tax over each |
| Schedule3.Build | forms/s3_1040.py:35-79 | the two early modes return the foreign credit without education; the education mode adds the education credit; the full build totals the six stems, with `_total_credits` equal to that total |
| Schedule3.CreditStemsUnrolled | forms/s3_1040.py:68-75 | the total is the sum of the six named credit stems |
| Schedule3.FullTotalIsAccrued | forms/s3_1040.py:42-77 | the full total is the foreign credit plus the education credit, the amount the education mode reports |
| Schedule3.EarlyModesIgnoreEducation | forms/s3_1040.py:51-55 | the `foreign_tax_credit` and `child_care` modes return the same result whatever the education credit |
| Schedule3.NoForeignTax | forms/s3_1040.py:45-48 | without any `foreign_tax` entry, the foreign credit is 0 |
| Form8863PartI.PhaseoutMultiplier | forms/f_8863_i.py:75-82 | the multiplier is 1 with boxes `1`/`000` when line 4 covers the range; otherwise it is the rounded ratio, with `0` and its thousandths |
| Form8863PartI.MultiplierInUnit | forms/f_8863_i.py:79-82 | under a three-place rounding, the multiplier lies in [0, 1] and its thousandths box carries no sign |
| Form8863PartI.BuildPartII | forms/f_8863_i.py:101-136 | line 11 is the smaller of line 10 and the maximum; line 18 stays 0 unless line 10 and line 15 are both positive |
| Form8863PartI.Build | forms/f_8863_i.py:37-145 | fails iff there is no filing status; no credit iff line 4 is at or under 0; otherwise line 19 is the smaller of line 18 + line 9 and the tax due less accrued credits |
| Form8863PartI.NoCreditAtOrOverThreshold | forms/f_8863_i.py:68-94 | AGI at or over the refundable threshold leaves both totals 0 |
| Form8863PartI.NonrefundableWithinTax | forms/f_8863_i.py:138-143 | the nonrefundable total never exceeds the tax due less the accrued credits |
| Form8863PartI.AllUndergraduatesLeaveLine10Empty | forms/f_8863_i.py:101 | line 10 is 0 when every student takes the American Opportunity credit |
| Form8863PartI.Line1Append | forms/f_8863_i.py:59 | adding a student adds their line 30 to line 1, and 0 when they have none |
| ChildCredit.QualifiesChild | forms/worksheet__child_credit.py:27-28 | a child needs an SSN and a `y` answer; with an SSN, a missing answer fails |
| ChildCredit.QualifiesOther | forms/worksheet__child_credit.py:30-31 | no SSN, or no `y` answer; with an SSN, a missing answer fails |
| ChildCredit.OtherIsNotChild | forms/worksheet__child_credit.py:27-31 | the two tests fail on the same dependents, and otherwise one is the negation of the other |
| ChildCredit.MarkOne | forms/worksheet__child_credit.py:48-51 | `other_credit` is set exactly when `child_credit` is false |
| ChildCredit.Mark | forms/worksheet__child_credit.py:48-51 | every dependent is flagged in order, and the worksheet fails iff some dependent cannot be classified |
| ChildCredit.Line3Counts | forms/worksheet__child_credit.py:46-58 | line 3 is the number of children times the child amount plus the number of others times the other amount |
| ChildCredit.EveryoneCounted | forms/worksheet__child_credit.py:48-56 | every dependent earns exactly one of the two amounts |
| ChildCredit.Line8 | forms/worksheet__child_credit.py:70-75 | line 8 exists iff income exceeds the threshold; it is the excess raised to the next multiple of $1,000 |
| ChildCredit.Line9IsExact | forms/worksheet__child_credit.py:74-76 | line 9 is exactly $50 per $1,000 of line 8, with nothing lost to truncation, and positive |
| ChildCredit.Build | forms/worksheet__child_credit.py:34-97 | the credit is 0 when line 3 does not exceed line 9; otherwise it is the smaller of line 3 less line 9 and the tax due less Schedule 3's credits |
| ChildCredit.FullCreditUnderThreshold | forms/worksheet__child_credit.py:63-95 | at or under the threshold, with enough tax, the whole of line 3 is the credit |
| ChildCredit.NegativeCreditExample | forms/worksheet__child_credit.py:88-95 | the credit is not clamped: $100 of tax against $300 of Schedule 3 credits gives −$200 |
| Form1040.CheckpointNamed | forms/s_1040.py:246-284 | the three checkpoint names select their stops, and every other string builds the whole return |
| Form1040.SsnBoxes | forms/s_1040.py:147 | the SSN keeps its length and every non-dash character, with each dash replaced by a space |
| Form1040.DependentRows | forms/s_1040.py:174-182 | fails iff there are more than four dependents; otherwise one row per dependent, with the SSN in boxes when present |
| Form1040.Spouse | forms/s_1040.py:161-172 | spouse lines exist iff the status mentions `married` and the record has a spouse; they carry the spouse's boxes |
| Form1040.HeaderOf | forms/s_1040.py:142-187 | the status defaults to single; the header fails only on a fifth dependent; `address_apt` goes on the apartment line |
| Form1040.SpouseOnlyWhenMarried | forms/s_1040.py:162 | spouse lines appear only on the two married statuses, never for a surviving spouse |
| Form1040.IraLines | forms/s_1040.py:203-223 | the rollover flag is set iff some 1099-R is a rollover |
| Form1040.IraTaxableCounts | forms/s_1040.py:203-223 | the taxable IRA amount is Form 8606's amount once per backdoor conversion |
| Form1040.OtherDistributionsIgnored | forms/s_1040.py:205-216 | 1099-Rs of other types add nothing to either IRA line |
| Form1040.SelfEmploymentOf | forms/s1_1040.py:64-69 | only a self-employed return reads Schedules C-EZ and SE; the SE deduction is half the SE tax on the net profit, computed on the corrected long Schedule SE |
| Form1040.IncomeOf | forms/s_1040.py:189-244 | total income is wages + dividends + interest + taxable IRA + Schedule 1 income; AGI is total income less adjustments; no 1099-DIV list fails |
| Form1040.IncomeFailsOnlyForLoanStatus | forms/s1_1040.py:130-136 | with the CEZ and 1099-DIV reads passing, income fails only for a student-loan deduction without a filing status |
| Form1040.ElderlyOrBlind | forms/s_1040.py:120-125 | at most four boxes count, and at most two without a married or widow status or without spouse lines |
| Form1040.StandardDeduction | forms/s_1040.py:120-130 | succeeds iff both tables resolve for the status; the base amount plus one additional amount per checked box |
| Form1040.StandardDeductionRange | forms/s_1040.py:120-130 | the deduction lies between the base and base + 4 additional amounts, and at most base + 2 with two boxes or fewer |
| Form1040.ShippedStandardDeductionFails | forms/s_1040.py:127-128 | with the shipped tables, the standard deduction fails for every status on the missing `STANDARD_DEDUCTION+` |
| Form1040.QbiJointDoubles | forms/s_1040.py:91-93 | with an `all` entry for the year, every status has a threshold and a joint return's is twice every other status's |
| Form1040.ShippedQbiThresholds | forms/constants.py:13-17 | with the shipped table the threshold is $315,000 for a joint return and $157,500 for every other status |
| Form1040.QbiWithinFifth | forms/s_1040.py:100-117 | a claimed deduction is at most 20% of taxable income when the capital gain is not negative, and not negative when the business income is not negative and taxable income covers the capital gain |
| Form1040.QualifiedBusinessDeduction | forms/s_1040.py:84-117 | 0 unless `qbi_deduction` is exactly true; fails above the threshold; fails without business income; otherwise the smaller of the two 20% options, capital gain 0 when absent |
| Form1040.DeductionsOf | forms/s_1040.py:249-270 | the deduction is the larger of itemized and standard, plus the QBI deduction computed on the taxable income before it; taxable income is AGI less the deduction |
| Form1040.NoQbiClaim | forms/s_1040.py:255-267 | without a claim, the deduction covers both itemized and standard, and taxable income is AGI less the larger |
| Form1040.StudentParts | forms/f_8863_i.py:46 | one Part III per student in order; fails iff there are students and no filing status; the Part IIIs are the corrected ones, so the `line_27` KeyError does not occur |
| Form1040.EducationCredit | forms/s3_1040.py:57-62 | education needs the student list and the filing status; Part I gets the credits Schedule 3 accrues before child care; it uses the corrected Part IIIs |
| Form1040.Box | forms/s_1040.py:297-301 | the child box iff `child_credit`; the other box iff not `child_credit` and `other_credit` |
| Form1040.Boxes | forms/s_1040.py:297-301 | one box per dependent, in order |
| Form1040.DependentCredit | forms/s_1040.py:294-295 | the worksheet runs iff the record has dependents, and fails iff it fails |
| Form1040.CreditsOf | forms/s_1040.py:286-307 | line 12 is Schedule 3's total, plus the worksheet's credit when there are dependents |
| Form1040.DependentsAddChildCredit | forms/s_1040.py:294-307 | with dependents, there is one box per dependent and the child credit is added to line 12 |
| Form1040.PaymentsOf | forms/s_1040.py:309-346 | line 13 is the larger of 0 and tax less credits; total tax adds other taxes; payments are withholding plus refundable credits; a refund iff payments strictly exceed the total tax |
| Form1040.Build | forms/s_1040.py:132-348 | stops at the named checkpoint; each stage equals its stage function; the child credit checkpoint returns the record's dependents |
| Form1040.CheckpointsAgree | forms/s_1040.py:246-284 | a complete return implies that every earlier checkpoint succeeds, with the same income, deductions and tax |
| Form1040.ChildCreditNeedsDependents | forms/s_1040.py:282-284 | without dependents, the child credit checkpoint fails on the missing key |
| Form1040.TooManyDependentsFails | forms/s_1040.py:175-178 | a fifth dependent fails every checkpoint |
| Form1040.SettlesOneWay | forms/s_1040.py:309-346 | a complete return is either a refund or an amount owed, and the difference of payments and tax is exactly that amount |
| Form1040.EvenReturnOwesZero | forms/s_1040.py:339-346 | payments equal to the total tax give an amount owed of 0 |
| Form1040.TaxableIncomeIdentity | forms/s_1040.py:242-267 | taxable income is total income less adjustments, less the larger deduction, less the QBI deduction |
| Voucher.Fill | forms/s_1040v.py:32-44 | the identity lines come from the record; `apartment` comes from its own key; pay appears iff the amount owed is above 0, and equals it |
| Voucher.Build | forms/s_1040v.py:28-46 | the voucher needs the complete 1040 and fails iff the 1040 does |
| Voucher.PayOnlyWhenOwed | forms/s_1040v.py:43-44 | pay appears iff the total tax exceeds payments, and is their difference |
| Voucher.ApartmentIgnoresAddressApt | forms/s_1040v.py:40-41 | the voucher's apartment does not depend on the 1040's `address_apt` |
| Voucher.SsnKeepsDashes | forms/s_1040v.py:33 | the voucher keeps the SSN's dashes, so it differs from the 1040's boxes whenever there is a dash |
| Driver.Standardize | do_taxes.py:41-52 | `.json` is appended iff missing; the base name is taken before that; a missing output directory defaults by whether the path mentions `sample`, and a given one is kept |
| Driver.StandardizeIdempotent | do_taxes.py:41-52 | normalising the normalised arguments changes nothing |
| Driver.BasenameHasNoSlash | do_taxes.py:42 | the base name is one path segment |
| Driver.EducationForms | do_taxes.py:98-102 | Part I comes first, then one Part III per student in input order |
| Driver.EducationPart | do_taxes.py:98-99 | no forms without education; with education, the student list is read without a guard |
| Driver.FormsToAttach | do_taxes.py:76-106 | Form 1040, the fixed forms, then the self-employment, IRA, education and voucher forms that apply |
| Driver.AttachedInOrder | do_taxes.py:76-106 | the list is ordered group by group |
| Driver.FixedFormsFirst | do_taxes.py:76-82 | Form 1040 comes first, and the seven fixed forms follow in their listed order |
| Driver.OptionalFormsExactlyWhen | do_taxes.py:86-92 | C-EZ and SE are attached iff self-employed; 8606 iff deductible IRA; the SEP worksheet iff both |
| Driver.EducationAndVoucherExactlyWhen | do_taxes.py:98-106 | Part I is attached iff education; the voucher iff an amount above 0 is owed, and then it is last |
| Driver.StudentsInInputOrder | do_taxes.py:98-102 | Part III for student k comes k + 1 places after Part I |
| Driver.Attachments | do_taxes.py:76-106 | the list needs the complete 1040, and the 1040's settlement decides the voucher |

## Left out

- PDF filling, signature and date placement, and merging (`fill_in_form`, the merger in `do_taxes.py`): these are I/O. A form is an identifier here.
- `pdf_utils/dump_file.py`: PDF introspection; I/O only.
- `forms/configs.py`: global configuration read from a file. The year and data path are parameters.
- `forms/utils.py` is not part of this model:
  - the dollars/cents split and `subtract_dc`: an amount stores its real value exactly, and no rounding property is claimed;
  - `add_fields`: modelled by `Money.AddFields`;
  - `has_self_employment`, `has_deductible_ira`, `has_education`: these are the boolean inputs `Finance.Predicates`.
- Schedules A, B, 4 and 5, Form 8606, the SEP-IRA worksheet, the capital gains worksheet and the tax worksheet are not part of this model. Their figures (itemized deductions as a function of AGI, interest and dividend totals, other taxes, refundable credits, the 8606 taxable amount, the SEP contribution, and the tax as a function of taxable income) are the inputs `Form1040.Supporting`.
- The constants the builders read but the shipped table lacks are parameter records with no sign assumption except where a lemma states one: `SE_TAXES`, `STUDENT_LOAN_DEDUCTION`, `EDUCATION_CREDIT`, `DEPENDENTS_CREDIT_*`. The source looks three of them up by filing status: `STUDENT_LOAN_DEDUCTION` (forms/s1_1040.py:47, with the status read at :135), `EDUCATION_CREDIT` (forms/f_8863_iii.py:40, forms/f_8863_i.py:44) and `DEPENDENTS_CREDIT_INCOME_THRESHOLD` (forms/worksheet__child_credit.py:67-68). The model takes one record of each per return, so it agrees with the source only when the caller supplies the row for the return's filing status; for the child credit that is the `single` row when the record has no `filing_status`. The same goes for `STANDARD_DEDUCTION+`; with the shipped table the standard deduction always fails (`Form1040.ShippedStandardDeductionFails`).
- Python's `round(x, 2)` and `round(x, 3)` are function parameters.
- The KeyErrors on keys every record must carry are not modelled: these keys are plain fields of `Finance.Record` and its parts, so a record without them cannot be written down. They are `name`, `ssn`, `name_first`, `name_middle_i`, `name_last`, `address`, `address_city`, `address_state`, `address_zip`, `occupation`, `w2` and each W-2's `income`, `federal_withheld` and `ss_wages`, each dependent's `name` and `relationship`, each student's keys, each 1099-DIV's `total_qualified`, and the vehicle's keys (read, for example, at forms/s_1040.py:145-153, forms/f_8863_i.py:41 and forms/se_1040.py:35-43).
- Form8863PartI.MultiplierInUnit: assumes only that the three-place rounding returns a whole number of thousandths within half a thousandth, not Python's exact rounding mode.
- The recursive calls between the builders do not terminate as written. They are replaced by the staged build described above.
- Form1040.Build: the checkpoints `Schedule A`, `Tax Worksheet` and `Child Credit` never build Schedule 3 or Form 8863, so the failures of those builders (a record with education and no `filing_status` fails at forms/f_8863_i.py:44) never occur at those checkpoints; in the source, forms/s_1040.py:138 builds the full Schedule 3, and with it Form 8863 Parts I and III, before any checkpoint. When several failures apply to the complete return, the model may report a different one than the source would: the source builds Schedules B, 1, 3, 4 and 5 before the header, and the model checks the header, then income, deductions and credits, in that order.
- ScheduleSE.Build: above the threshold it uses the corrected long schedule (`ScheduleSE.BuildLong`, line 10 at the social security rate), not the as-written one of forms/se_1040.py:114, so its SE tax is lower than the source's wherever the two differ (`ScheduleSE.LongAsWrittenChargesMedicareTwice`).
- Form1040.SelfEmploymentOf: the SE deduction, and so AGI and everything after it, follow the corrected Schedule SE; on the example of the first finding the deduction is $654.7075 where the source's would be $776.5075.
- Form1040.StudentParts: the Part IIIs are built with the corrected `Form8863PartIII.Build`, so an undergraduate whose line 28 is 0 gets the credit where the source raises the `line_27` KeyError; the same holds for `Form1040.EducationCredit`, `Form1040.Build`, `Voucher.Build` and `Driver.Attachments`, which succeed on such a record.
- Form1040.EducationCredit: as for `Form1040.StudentParts`, it does not fail on the `line_27` read.
- Display-only fields are not modelled:
  - the rounded strings `tax_amount`, `schedule_1_additional_income`, `refundable_schedule_5` and `dependent_tax_credit`;
  - the constant check boxes (health coverage, election campaign, preparer name, the 1098-T and vehicle answers);
  - the name and SSN lines that Schedules 1, 3, SE and C-EZ copy from the record;
  - the per-student output file name.
- Schedule C-EZ's profession, code and business address lines, and the vehicle's date and mileage boxes: these are copies of record fields with no arithmetic.
- Schedule 1's `schedule_d_unneeded_y` flag and Form 1040's `_rollover_flag` key; the flag is kept as `Ira.rollover`.
- ChildCredit.Line9: its own contract states only the case without line 8. The value with line 8 is stated by `ChildCredit.Line9IsExact`.

## Findings

| source | as written | input that shows it | evidently intended | confidence | as-written member | corrected member |
|---|---|---|---|---|---|---|
| forms/se_1040.py:114-121 | long Schedule SE line 10 takes the smaller of lines 6 and 9 at the combined social security + Medicare rate, and line 11 then adds Medicare on line 6 again | 2018 rates (12.4% + 2.9%, threshold $128,400, minimum $400), $120,000 of social security wages and $10,000 of profit: tax $1,553.015 | line 10 at the social security rate (12.4%) only, as on the printed form: tax $1,309.415, which matches the short schedule wherever both apply | not executed | ScheduleSE.BuildLongAsWritten, ScheduleSE.LongAsWrittenCounterexample | ScheduleSE.BuildLong, ScheduleSE.LongAgreesWithShort |
| forms/f_8863_iii.py:65-66 | when line 28 is 0, the American Opportunity total is read from the key `line_27`, which is never written (line 27 is stored as `american_opportunity_credit_aqe`), so the build raises | an undergraduate with $1,500 of expenses under a $4,000 claim limit and $2,000 fully covered | the total is line 27 itself ($1,500) | not executed | Form8863PartIII.AocAsWritten, Form8863PartIII.AocAsWrittenCounterexample | Form8863PartIII.Aoc, Form8863PartIII.AocClosedForm |
