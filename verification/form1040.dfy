/** Form 1040 (`forms/s_1040.py`): the return itself.

    The builder fills the header (status, names, SSNs, address, spouse and
    dependents), then income down to adjusted gross income, then deductions
    down to taxable income, then the tax, and finally credits, other taxes and
    payments, ending in either a refund or an amount owed. A caller that only
    needs the return up to some point names a checkpoint: `Schedule A` stops
    after AGI, `Tax Worksheet` after taxable income, `Child Credit` after the
    tax (handing back the dependents).

    The source builds Schedules 1 and 3 at its start, and those builders call
    back into this one for total income and the tax due; the names they pass
    (`total_income`, `tax_due`) are not checkpoints, so the call recurses
    without end. Here the return is built in stages instead: Schedule 1 is
    built once for its income (which does not depend on total income) and
    again with the total income for its adjustments, and Schedule 3 and
    Form 8863 are built once AGI and the tax are known.

    Schedules A, B, 4 and 5, Form 8606, the SEP-IRA worksheet and the tax
    worksheet are outside this model: their figures come in as `Supporting`.
 */
module Form1040 {
  import opened Outcomes
  import opened Strings
  import opened Money
  import opened Constants
  import opened Finance
  import Schedule1
  import Schedule3
  import ScheduleCEZ
  import ScheduleSE
  import Form8863PartI
  import Form8863PartIII
  import ChildCredit

  /** Where a build stops. */
  datatype Checkpoint = ScheduleA | TaxWorksheet | ChildCreditWorksheet | Full

  /** The checkpoint a `short_circuit` string selects; every other string,
      `total_income` and `tax_due` among them, builds the whole return. */
  function CheckpointNamed(name: string): (c: Checkpoint)
    ensures name == "Schedule A" <==> c == ScheduleA
    ensures name == "Tax Worksheet" <==> c == TaxWorksheet
    ensures name == "Child Credit" <==> c == ChildCreditWorksheet
  {
    if name == "Schedule A" then ScheduleA
    else if name == "Tax Worksheet" then TaxWorksheet
    else if name == "Child Credit" then ChildCreditWorksheet
    else Full
  }

  /** The constant tables and the parameter records of the schedules. */
  datatype Parameters = Parameters(
    tables: Tables,
    seTaxes: SeTaxes,
    loanLimits: StudentLoanLimits,
    educationLimits: EducationLimits,
    dependentsCredit: DependentsCredit,
    predicates: Predicates)

  /** Figures of the forms outside this model. */
  datatype Supporting = Supporting(
    interestTotal: real,          // Schedule B, `interest_total`
    dividendTotal: real,          // Schedule B, `dividend_total`
    sepContribution: real,        // SEP-IRA worksheet, `final_contrib_amt`
    conversionTaxable: real,      // Form 8606, `_taxable_amt`
    otherTaxes: real,             // Schedule 4, `total_other_taxes`
    refundableCredits: real,      // Schedule 5, `total_credits`
    itemizedFor: real -> real,    // Schedule A's total itemized deductions, given AGI
    taxOn: real -> real,          // the tax worksheet's tax, given taxable income
    round2: real -> real,         // Python's round(x, 2)
    round3: real -> real)         // Python's round(x, 3)

  // ---------------------------------------------------------------- header

  /** The spouse's lines, filled only on a married status. */
  datatype SpouseLines = SpouseLines(
    firstAndInitial: string, last: string, ssn: string, blind: bool, senior: bool)

  /** One dependent's row. */
  datatype DependentLine = DependentLine(name: string, relationship: string, ssn: Option<string>)

  /** The first page's header. */
  datatype Header = Header(
    status: FilingStatus,
    firstAndInitial: string,
    last: string,
    ssn: string,
    homeAddress: string,
    aptNum: Option<string>,
    cityStateZip: string,
    blind: bool,
    senior: bool,
    spouse: Option<SpouseLines>,
    dependents: seq<DependentLine>,
    occupation: string)

  /** `name_first + ' ' + name_middle_i`. */
  function FirstAndInitial(p: Person): string {
    p.first + " " + p.middleInitial
  }

  /** `'%s, %s %s' % (city, state, zip)`. */
  function CityStateZip(r: Record): string {
    r.city + ", " + r.state + " " + r.zip
  }

  /** An optional yes/no answer counts as yes when it holds a `y`. */
  predicate Answered(a: Option<string>) {
    a.Some? && Contains(a.value, "y")
  }

  /** An SSN as the form's boxes take it: the dashes become spaces. */
  function SsnBoxes(ssn: string): (b: string)
    ensures |b| == |ssn| && '-' !in b
    ensures forall i :: 0 <= i < |ssn| && ssn[i] != '-' ==> b[i] == ssn[i]
    ensures forall i :: 0 <= i < |ssn| && ssn[i] == '-' ==> b[i] == ' '
  {
    var b := ReplaceChar(ssn, '-', ' ');
    assert forall i :: 0 <= i < |b| ==> b[i] != '-';
    b
  }

  /** One dependent's row. */
  function DependentRow(d: Dependent): DependentLine {
    DependentLine(d.name, d.relationship, if d.ssn.Some? then Some(SsnBoxes(d.ssn.value)) else None)
  }

  /** The dependent rows; the form has four, and a fifth dependent aborts the build. */
  function DependentRows(ds: seq<Dependent>): (ls: Result<seq<DependentLine>>)
    ensures ls.Err? <==> |ds| > 4
    ensures ls.Err? ==> ls.error == TooManyDependents
    ensures ls.Ok? ==> |ls.value| == |ds|
    ensures ls.Ok? ==> forall i :: 0 <= i < |ds| ==>
      ls.value[i].name == ds[i].name && ls.value[i].relationship == ds[i].relationship
      && (ls.value[i].ssn.Some? <==> ds[i].ssn.Some?)
      && (ds[i].ssn.Some? ==> ls.value[i].ssn.value == SsnBoxes(ds[i].ssn.value))
  {
    if |ds| > 4 then Err(TooManyDependents)
    else Ok(seq(|ds|, i requires 0 <= i < |ds| => DependentRow(ds[i])))
  }

  /** The spouse's lines: only on a status whose key mentions `married`, and
      only when the record has a spouse. */
  function Spouse(r: Record, status: FilingStatus): (s: Option<SpouseLines>)
    ensures s.Some? <==> KeyMentionsMarried(status) && r.spouse.Some?
    ensures s.Some? ==>
      && s.value.ssn == SsnBoxes(r.spouse.value.ssn)
      && s.value.blind == Answered(r.spouse.value.blind)
      && s.value.senior == Answered(r.spouse.value.senior)
  {
    if KeyMentionsMarried(status) && r.spouse.Some? then
      var p := r.spouse.value;
      Some(SpouseLines(FirstAndInitial(p), p.last, SsnBoxes(p.ssn), Answered(p.blind), Answered(p.senior)))
    else None
  }

  /** The header, with the status defaulting to single. */
  function HeaderOf(r: Record): (h: Result<Header>)
    ensures h.Err? <==> r.dependents.Some? && |r.dependents.value| > 4
    ensures h.Err? ==> h.error == TooManyDependents
    ensures h.Ok? ==> h.value.status == StatusOrSingle(r)
    ensures h.Ok? ==> h.value.ssn == SsnBoxes(r.filer.ssn) && h.value.aptNum == r.addressApt
    ensures h.Ok? ==> h.value.blind == Answered(r.filer.blind) && h.value.senior == Answered(r.filer.senior)
    ensures h.Ok? ==> h.value.spouse == Spouse(r, StatusOrSingle(r))
    ensures h.Ok? ==> |h.value.dependents| == |r.dependents.GetOr([])|
  {
    var rows :- DependentRows(r.dependents.GetOr([]));
    var status := StatusOrSingle(r);
    Ok(Header(status, FirstAndInitial(r.filer), r.filer.last, SsnBoxes(r.filer.ssn),
              r.address, r.addressApt, CityStateZip(r),
              Answered(r.filer.blind), Answered(r.filer.senior),
              Spouse(r, status), rows, r.occupation))
  }

  /** Only a married status carries spouse lines, so on any other status
      (the surviving spouse included) the spouse's answers are never read. */
  lemma SpouseOnlyWhenMarried(r: Record)
    requires HeaderOf(r).Ok?
    ensures HeaderOf(r).value.spouse.Some? <==>
      (StatusOrSingle(r) == MarriedJoint || StatusOrSingle(r) == MarriedSeparate) && r.spouse.Some?
  {
    StatusSubstrings(StatusOrSingle(r));
  }

  // ---------------------------------------------------------------- income

  /** Lines 4a and 4b: IRA distributions, and whether any was a rollover. */
  datatype Ira = Ira(total: real, taxable: real, rollover: bool)

  /** What the 1099-Rs add to line 4a: rollover amounts and converted amounts. */
  function IraTotal(ds: seq<Distribution>): real
    decreases |ds|
  {
    if |ds| == 0 then 0.0
    else
      (match ds[0]
       case Rollover(a) => a
       case BackdoorConversion(c) => c
       case OtherDistribution(_) => 0.0)
      + IraTotal(ds[1..])
  }

  /** What the 1099-Rs add to line 4b: Form 8606's taxable amount per conversion. */
  function IraTaxable(ds: seq<Distribution>, perConversion: real): real
    decreases |ds|
  {
    if |ds| == 0 then 0.0
    else (if ds[0].BackdoorConversion? then perConversion else 0.0) + IraTaxable(ds[1..], perConversion)
  }

  /** The number of backdoor conversions. */
  function Conversions(ds: seq<Distribution>): (n: nat)
    ensures n <= |ds|
    decreases |ds|
  {
    if |ds| == 0 then 0 else (if ds[0].BackdoorConversion? then 1 else 0) + Conversions(ds[1..])
  }

  /** Line 4b is the 8606 taxable amount once per conversion: rollovers are
      not taxed. */
  lemma {:induction false} IraTaxableCounts(ds: seq<Distribution>, perConversion: real)
    ensures IraTaxable(ds, perConversion) == Conversions(ds) as real * perConversion
    decreases |ds|
  {
    if |ds| > 0 {
      IraTaxableCounts(ds[1..], perConversion);
    }
  }

  /** Distributions of any other type add nothing to either line. */
  lemma {:induction false} OtherDistributionsIgnored(ds: seq<Distribution>, perConversion: real)
    requires forall i :: 0 <= i < |ds| ==> ds[i].OtherDistribution?
    ensures IraTotal(ds) == 0.0 && IraTaxable(ds, perConversion) == 0.0
    decreases |ds|
  {
    if |ds| > 0 {
      OtherDistributionsIgnored(ds[1..], perConversion);
    }
  }

  /** The IRA lines of a record with 1099-Rs. */
  function IraLines(ds: seq<Distribution>, perConversion: real): (x: Ira)
    ensures x.rollover <==> exists i :: 0 <= i < |ds| && ds[i].Rollover?
  {
    Ira(IraTotal(ds), IraTaxable(ds, perConversion), exists i :: 0 <= i < |ds| && ds[i].Rollover?)
  }

  /** Line 1: wages over all W-2s. */
  function Wages(r: Record): real {
    Sum(seq(|r.w2|, i requires 0 <= i < |r.w2| => r.w2[i].income))
  }

  /** Line 16: federal tax withheld over all W-2s. */
  function Withheld(r: Record): real {
    Sum(seq(|r.w2|, i requires 0 <= i < |r.w2| => r.w2[i].federalWithheld))
  }

  /** Line 3a: qualified dividends over all 1099-DIVs. */
  function QualifiedDividends(divs: seq<Div1099>): real {
    Sum(seq(|divs|, i requires 0 <= i < |divs| => divs[i].totalQualified))
  }

  /** Schedule 1's self-employment figures: Schedule C-EZ's net profit,
      Schedule SE's deduction on that profit and the filer's social security
      wages, and the SEP contribution; nothing without self-employment. */
  function SelfEmploymentOf(r: Record, p: Parameters, s: Supporting): (x: Result<Option<Schedule1.SelfEmployment>>)
    ensures x.Err? <==> p.predicates.selfEmployment && ScheduleCEZ.Build(r).Err?
    ensures x.Err? ==> x.error == TooManyExpenses
    ensures x.Ok? ==> (x.value.Some? <==> p.predicates.selfEmployment)
    ensures x.Ok? && x.value.Some? ==>
      var profit := ScheduleCEZ.Build(r).value.netProfit;
      && x.value.value.netProfit == profit
      && 2.0 * x.value.value.seDeduction == ScheduleSE.Build(profit, ScheduleSE.SsWages(r), p.seTaxes).SeTax()
      && x.value.value.sepContribution == s.sepContribution
  {
    if p.predicates.selfEmployment then
      var cez :- ScheduleCEZ.Build(r);
      var se := ScheduleSE.Build(cez.netProfit, ScheduleSE.SsWages(r), p.seTaxes);
      Ok(Some(Schedule1.SelfEmployment(cez.netProfit, se.SeDeduction(), s.sepContribution)))
    else Ok(None)
  }

  /** Lines 1-7 of page 2, with the Schedule 1 the return uses. */
  datatype Income = Income(
    wages: real,
    taxableInterest: real,
    ordinaryDividends: real,
    qualifiedDividends: real,
    ira: Option<Ira>,
    schedule1: Schedule1.Schedule1,
    totalIncome: real,
    agi: real)

  /** Line 6 before the adjustments: wages, dividends, interest, the taxable
      IRA amount and Schedule 1's additional income. */
  function TotalIncome(wages: real, interest: real, dividends: real, ira: Option<Ira>, additional: real): real {
    wages + dividends + interest + (if ira.Some? then ira.value.taxable else 0.0) + additional
  }

  /** Income down to AGI. Schedule 1's income does not depend on the total, so
      it is built first without one; the total it yields then goes into a
      second build for the student-loan adjustment. */
  function IncomeOf(r: Record, p: Parameters, s: Supporting): (x: Result<Income>)
    ensures x.Ok? ==> r.div1099.Some? && SelfEmploymentOf(r, p, s).Ok?
    ensures x.Ok? ==>
      var se := SelfEmploymentOf(r, p, s).value;
      && Schedule1.Build(r, se, None, p.loanLimits).Ok?
      && x.value.totalIncome == TotalIncome(Wages(r), s.interestTotal, s.dividendTotal, x.value.ira,
                                            Schedule1.Build(r, se, None, p.loanLimits).value.sumIncome)
      && Schedule1.Build(r, se, Some(x.value.totalIncome), p.loanLimits) == Ok(x.value.schedule1)
      && x.value.schedule1.sumIncome == Schedule1.Build(r, se, None, p.loanLimits).value.sumIncome
    ensures x.Ok? ==> x.value.agi == x.value.totalIncome - x.value.schedule1.adjustments
    ensures x.Ok? ==> x.value.wages == Wages(r) && x.value.qualifiedDividends == QualifiedDividends(r.div1099.value)
    ensures x.Ok? ==> (x.value.ira.Some? <==> r.r1099.Some?)
    ensures x.Ok? && r.r1099.Some? ==> x.value.ira.value == IraLines(r.r1099.value, s.conversionTaxable)
    ensures SelfEmploymentOf(r, p, s).Ok? && r.div1099.None? ==> x == Err(MissingKey("1099_div"))
  {
    var se :- SelfEmploymentOf(r, p, s);
    var first := Schedule1.Build(r, se, None, p.loanLimits).value;
    var divs :- if r.div1099.Some? then Ok(r.div1099.value) else Err(MissingKey("1099_div"));
    var ira := if r.r1099.Some? then Some(IraLines(r.r1099.value, s.conversionTaxable)) else None;
    var total := TotalIncome(Wages(r), s.interestTotal, s.dividendTotal, ira, first.sumIncome);
    var s1 :- Schedule1.Build(r, se, Some(total), p.loanLimits);
    Schedule1.SumIncomeIgnoresTotalIncome(r, se, None, Some(total), p.loanLimits);
    Ok(Income(Wages(r), s.interestTotal, s.dividendTotal, QualifiedDividends(divs), ira,
              s1, total, total - s1.adjustments))
  }

  /** The only Schedule 1 failure the income stage can meet is the student
      loan's status lookup, and only once total income is known. */
  lemma IncomeFailsOnlyForLoanStatus(r: Record, p: Parameters, s: Supporting)
    requires SelfEmploymentOf(r, p, s).Ok? && r.div1099.Some?
    requires r.filingStatus.Some? || r.studentLoanInterest.None?
    ensures IncomeOf(r, p, s).Ok?
  {
    var se := SelfEmploymentOf(r, p, s).value;
    assert Schedule1.LoanInterest(r, None, p.loanLimits).Ok?;
  }

  // ---------------------------------------------------------------- deductions

  /** How many of the over-65 and blind boxes are checked: the filer's two,
      and the spouse's two on a status mentioning `married` or `widow`. */
  function ElderlyOrBlind(h: Header): (n: nat)
    ensures n <= 4
    ensures !(KeyMentionsMarried(h.status) || KeyMentionsWidow(h.status)) ==> n <= 2
    ensures h.spouse.None? ==> n <= 2
  {
    var own := (if h.senior then 1 else 0) + (if h.blind then 1 else 0);
    var spouse :=
      if (KeyMentionsMarried(h.status) || KeyMentionsWidow(h.status)) && h.spouse.Some? then
        (if h.spouse.value.senior then 1 else 0) + (if h.spouse.value.blind then 1 else 0)
      else 0;
    own + spouse
  }

  /** `compute_standard_deduction` for a status and a number of checked
      boxes: the base amount plus one additional amount per box. Both amounts
      are looked up, whatever the count. */
  function StandardDeduction(tables: Tables, status: FilingStatus, boxes: nat): (d: Result<real>)
    ensures d.Ok? <==>
      GetValue(tables, "STANDARD_DEDUCTION", status.Key(), TaxYear).Ok?
      && GetValue(tables, "STANDARD_DEDUCTION+", status.Key(), TaxYear).Ok?
    ensures d.Err? ==> d.error.MissingConstant?
    ensures d.Ok? ==>
      d.value == GetValue(tables, "STANDARD_DEDUCTION", status.Key(), TaxYear).value
                 + boxes as real * GetValue(tables, "STANDARD_DEDUCTION+", status.Key(), TaxYear).value
  {
    var base :- GetValue(tables, "STANDARD_DEDUCTION", status.Key(), TaxYear);
    var plus :- GetValue(tables, "STANDARD_DEDUCTION+", status.Key(), TaxYear);
    Ok(base + boxes as real * plus)
  }

  /** A count of at most four additional amounts, each non-negative. */
  lemma AdditionalAmounts(n: nat, plus: real)
    requires n <= 4 && plus >= 0.0
    ensures 0.0 <= n as real * plus <= 4.0 * plus
    ensures n <= 2 ==> n as real * plus <= 2.0 * plus
  {
    if n == 0 {
    } else if n == 1 {
    } else if n == 2 {
    } else if n == 3 {
    } else {
      assert n == 4;
    }
  }

  /** The standard deduction lies between the base amount and four additional
      amounts over it, and at most two with at most two boxes (as on any
      return without spouse lines, by `ElderlyOrBlind`). */
  lemma StandardDeductionRange(tables: Tables, status: FilingStatus, boxes: nat)
    requires boxes <= 4
    requires StandardDeduction(tables, status, boxes).Ok?
    requires GetValue(tables, "STANDARD_DEDUCTION+", status.Key(), TaxYear).value >= 0.0
    ensures var base := GetValue(tables, "STANDARD_DEDUCTION", status.Key(), TaxYear).value;
      var plus := GetValue(tables, "STANDARD_DEDUCTION+", status.Key(), TaxYear).value;
      var d := StandardDeduction(tables, status, boxes).value;
      && base <= d <= base + 4.0 * plus
      && (boxes <= 2 ==> d <= base + 2.0 * plus)
  {
    var base := GetValue(tables, "STANDARD_DEDUCTION", status.Key(), TaxYear).value;
    var plus := GetValue(tables, "STANDARD_DEDUCTION+", status.Key(), TaxYear).value;
    AdditionalAmounts(boxes, plus);
    assert StandardDeduction(tables, status, boxes).value == base + boxes as real * plus;
  }

  /** The shipped tables have no `STANDARD_DEDUCTION+`, so the lookup fails
      for every header, even one with no box checked. */
  lemma ShippedStandardDeductionFails(status: FilingStatus, boxes: nat)
    ensures StandardDeduction(Shipped(), status, boxes) == Err(MissingConstant("STANDARD_DEDUCTION+"))
  {
    ShippedStandardDeduction(status);
  }

  /** The section 199A threshold for the status, doubled on a joint return. */
  function QbiThreshold(tables: Tables, status: FilingStatus): (t: Result<real>)
    ensures t.Ok? <==> GetValue(tables, "QBI_THRESHOLD", status.Key(), TaxYear).Ok?
    ensures t.Ok? && status == MarriedJoint ==>
      t.value == 2.0 * GetValue(tables, "QBI_THRESHOLD", status.Key(), TaxYear).value
    ensures t.Ok? && status != MarriedJoint ==>
      t.value == GetValue(tables, "QBI_THRESHOLD", status.Key(), TaxYear).value
    ensures t.Err? ==> t.error.MissingConstant?
  {
    var t :- GetValue(tables, "QBI_THRESHOLD", status.Key(), TaxYear);
    Ok(if status == MarriedJoint then 2.0 * t else t)
  }

  /** With a wildcard `all` entry for the year, a joint return's threshold is
      twice that of every other status, and every status has one. */
  lemma QbiJointDoubles(tables: Tables, status: FilingStatus)
    requires "QBI_THRESHOLD" in tables && TaxYear in tables["QBI_THRESHOLD"]
    requires AllStatuses in tables["QBI_THRESHOLD"][TaxYear]
    requires status != MarriedJoint
    ensures QbiThreshold(tables, MarriedJoint).Ok? && QbiThreshold(tables, status).Ok?
    ensures QbiThreshold(tables, MarriedJoint).value == 2.0 * QbiThreshold(tables, status).value
  {
    WildcardIgnoresStatus(tables, "QBI_THRESHOLD", TaxYear, MarriedJoint.Key(), status.Key());
  }

  /** With the shipped tables: $315,000 for a joint return, $157,500 otherwise. */
  lemma ShippedQbiThresholds(status: FilingStatus)
    ensures QbiThreshold(Shipped(), status) == Ok(if status == MarriedJoint then 315000.0 else 157500.0)
  {
    ShippedWildcardTables(status.Key());
  }

  /** The deduction is claimed only when `qbi_deduction` is the JSON value `true`. */
  predicate ClaimsQbi(r: Record) {
    r.qbiDeduction == Some(Bool(true))
  }

  /** `qualified_business_deduction`: 20% of the Schedule 1 business income or
      20% of taxable income less capital gains, whichever is less. Above the
      threshold the source gives up; a return without business income fails
      on the unguarded read. */
  function QualifiedBusinessDeduction(r: Record, taxable: real, s1: Amounts, status: FilingStatus,
                                      tables: Tables): (q: Result<real>)
    ensures !ClaimsQbi(r) ==> q == Ok(0.0)
    ensures ClaimsQbi(r) ==>
      (q.Ok? <==> QbiThreshold(tables, status).Ok? && taxable <= QbiThreshold(tables, status).value
                  && "business" in s1)
    ensures ClaimsQbi(r) && QbiThreshold(tables, status).Ok? && taxable > QbiThreshold(tables, status).value ==>
      q == Err(QbiAboveThreshold)
    ensures ClaimsQbi(r) && QbiThreshold(tables, status).Ok? && taxable <= QbiThreshold(tables, status).value ==>
      ("business" !in s1 ==> q == Err(MissingKey("business_dollars")))
    ensures q.Ok? && ClaimsQbi(r) ==>
      && q.value <= 0.2 * s1["business"]
      && q.value <= 0.2 * (taxable - Amount(s1, "capital_gain"))
      && (q.value == 0.2 * s1["business"] || q.value == 0.2 * (taxable - Amount(s1, "capital_gain")))
  {
    if !ClaimsQbi(r) then Ok(0.0)
    else
      var threshold :- QbiThreshold(tables, status);
      if taxable > threshold then Err(QbiAboveThreshold)
      else if "business" !in s1 then Err(MissingKey("business_dollars"))
      else
        var optionA := s1["business"] * 0.2;
        var optionB := 0.2 * (taxable - Amount(s1, "capital_gain"));
        Ok(if optionA <= optionB then optionA else optionB)
  }

  /** Lines 8-10. `deductions` includes the QBI deduction, as the source adds
      it in before writing taxable income. */
  datatype Deductions = Deductions(
    itemized: real,
    standard: real,
    qbi: real,
    deductions: real,
    taxableIncome: real)

  /** The larger of the itemized and standard deductions. */
  function Larger(a: real, b: real): (m: real)
    ensures m >= a && m >= b && (m == a || m == b)
  {
    if a >= b then a else b
  }

  /** Deductions and taxable income. The QBI deduction is computed on the
      taxable income before it and then taken off it. */
  function DeductionsOf(r: Record, h: Header, income: Income, p: Parameters, s: Supporting): (d: Result<Deductions>)
    ensures d.Ok? <==>
      StandardDeduction(p.tables, h.status, ElderlyOrBlind(h)).Ok?
      && QualifiedBusinessDeduction(r, income.agi - Larger(s.itemizedFor(income.agi), StandardDeduction(p.tables, h.status, ElderlyOrBlind(h)).value),
                                    income.schedule1.fields, h.status, p.tables).Ok?
    ensures d.Ok? ==> d.value.itemized == s.itemizedFor(income.agi)
    ensures d.Ok? ==> d.value.standard == StandardDeduction(p.tables, h.status, ElderlyOrBlind(h)).value
    ensures d.Ok? ==> d.value.deductions - d.value.qbi == Larger(d.value.itemized, d.value.standard)
    ensures d.Ok? ==>
      d.value.qbi == QualifiedBusinessDeduction(r, income.agi - Larger(d.value.itemized, d.value.standard),
                                                income.schedule1.fields, h.status, p.tables).value
    ensures d.Ok? ==> d.value.taxableIncome == income.agi - d.value.deductions
  {
    var itemized := s.itemizedFor(income.agi);
    var standard :- StandardDeduction(p.tables, h.status, ElderlyOrBlind(h));
    var chosen := Larger(itemized, standard);
    var qbi :- QualifiedBusinessDeduction(r, income.agi - chosen, income.schedule1.fields, h.status, p.tables);
    Ok(Deductions(itemized, standard, qbi, chosen + qbi, income.agi - chosen - qbi))
  }

  /** A claimed deduction is at most 20% of taxable income when the capital
      gain is not negative, and it is not negative when the business income
      is not negative and taxable income covers the capital gain. */
  lemma QbiWithinFifth(r: Record, taxable: real, s1: Amounts, status: FilingStatus, tables: Tables)
    requires QualifiedBusinessDeduction(r, taxable, s1, status, tables).Ok? && ClaimsQbi(r)
    ensures Amount(s1, "capital_gain") >= 0.0 ==>
      QualifiedBusinessDeduction(r, taxable, s1, status, tables).value <= 0.2 * taxable
    ensures s1["business"] >= 0.0 && taxable >= Amount(s1, "capital_gain") ==>
      QualifiedBusinessDeduction(r, taxable, s1, status, tables).value >= 0.0
  {
  }

  /** Without a QBI claim the deduction is the larger of the two, and the
      taxable income is AGI less it. */
  lemma NoQbiClaim(r: Record, h: Header, income: Income, p: Parameters, s: Supporting)
    requires !ClaimsQbi(r)
    requires DeductionsOf(r, h, income, p, s).Ok?
    ensures var d := DeductionsOf(r, h, income, p, s).value;
      && d.qbi == 0.0
      && d.deductions >= d.itemized && d.deductions >= d.standard
      && d.taxableIncome == income.agi - Larger(d.itemized, d.standard)
  {
  }

  // ---------------------------------------------------------------- credits

  /** Form 8863 Part III for each student in order; the first failure stops. */
  function StudentParts(r: Record, ss: seq<Student>, l: EducationLimits): (ps: Result<seq<Form8863PartIII.PartIII>>)
    ensures ps.Ok? <==> r.filingStatus.Some? || |ss| == 0
    ensures ps.Err? ==> ps.error == MissingKey("filing_status")
    ensures ps.Ok? ==> |ps.value| == |ss|
    ensures ps.Ok? ==> forall i :: 0 <= i < |ss| ==> Form8863PartIII.Build(r, ss[i], l) == Ok(ps.value[i])
    decreases |ss|
  {
    if |ss| == 0 then Ok([])
    else if r.filingStatus.None? then Err(MissingKey("filing_status"))
    else Ok([Form8863PartIII.Build(r, ss[0], l).value] + StudentParts(r, ss[1..], l).value)
  }

  /** Form 8863 Part I over the record's students, when the record has
      education: on the AGI and tax due of this return and the credits
      Schedule 3 accrues before child care. */
  function EducationCredit(r: Record, p: Parameters, s: Supporting, agi: real, taxDue: real)
    : (e: Result<Option<Form8863PartI.PartI>>)
    ensures !p.predicates.education ==> e == Ok(None)
    ensures p.predicates.education && r.education.None? ==> e == Err(MissingKey("postsecondary_education"))
    ensures p.predicates.education && r.education.Some? ==> (e.Ok? <==> r.filingStatus.Some?)
    ensures p.predicates.education && e.Ok? ==>
      var parts := StudentParts(r, r.education.value, p.educationLimits).value;
      var accrued := Schedule3.Build(r, None, Schedule3.ChildCare).accrued;
      e.value == Some(Form8863PartI.Build(r, parts, agi, taxDue, accrued, p.educationLimits, s.round2, s.round3).value)
  {
    if !p.predicates.education then Ok(None)
    else
      var students :- if r.education.Some? then Ok(r.education.value) else Err(MissingKey("postsecondary_education"));
      var parts :- StudentParts(r, students, p.educationLimits);
      var accrued := Schedule3.Build(r, None, Schedule3.ChildCare).accrued;
      var part1 :- Form8863PartI.Build(r, parts, agi, taxDue, accrued, p.educationLimits, s.round2, s.round3);
      Ok(Some(part1))
  }

  /** The box a dependent's row checks for the credits. */
  datatype CreditBox = ChildTaxCredit | CreditForOthers | NoBox

  /** `child_credit` checks the child box; otherwise `other_credit` the other box. */
  function Box(m: ChildCredit.Marked): (b: CreditBox)
    ensures b == ChildTaxCredit <==> m.childCredit
    ensures b == CreditForOthers <==> !m.childCredit && m.otherCredit == Some(true)
  {
    if m.childCredit then ChildTaxCredit
    else if m.otherCredit == Some(true) then CreditForOthers
    else NoBox
  }

  /** The boxes of the dependents' rows, in order. */
  function Boxes(ms: seq<ChildCredit.Marked>): (bs: seq<CreditBox>)
    ensures |bs| == |ms|
    ensures forall i :: 0 <= i < |ms| ==> bs[i] == Box(ms[i])
  {
    seq(|ms|, i requires 0 <= i < |ms| => Box(ms[i]))
  }

  /** The child tax credit worksheet, when the record has dependents. */
  function DependentCredit(r: Record, p: Parameters, agi: real, taxDue: real, s3Total: real)
    : (w: Result<Option<ChildCredit.Worksheet>>)
    ensures r.dependents.None? ==> w == Ok(None)
    ensures r.dependents.Some? ==>
      var cw := ChildCredit.Build(r.dependents.value, agi, taxDue, s3Total, p.dependentsCredit);
      && (w.Ok? <==> cw.Ok?)
      && (w.Ok? ==> w.value == Some(cw.value))
  {
    if r.dependents.None? then Ok(None)
    else
      var cw :- ChildCredit.Build(r.dependents.value, agi, taxDue, s3Total, p.dependentsCredit);
      Ok(Some(cw))
  }

  /** Line 12 and the credit boxes. */
  datatype Credits = Credits(
    education: Option<Form8863PartI.PartI>,
    schedule3: Schedule3.Schedule3,
    childCredit: Option<ChildCredit.Worksheet>,
    boxes: seq<CreditBox>,
    nonrefundable: real)

  /** Schedule 3 with the education credit, when there is one. */
  function Schedule3With(r: Record, e: Option<Form8863PartI.PartI>): Schedule3.Schedule3 {
    Schedule3.Build(r, if e.Some? then Some(e.value.NonrefundableTotal()) else None, Schedule3.Full)
  }

  /** Schedule 3's total, plus the child tax credit worksheet's when the
      record has dependents. */
  function CreditsOf(r: Record, p: Parameters, s: Supporting, agi: real, taxDue: real): (c: Result<Credits>)
    ensures c.Ok? <==>
      EducationCredit(r, p, s, agi, taxDue).Ok?
      && DependentCredit(r, p, agi, taxDue, Schedule3With(r, EducationCredit(r, p, s, agi, taxDue).value).totalCredits).Ok?
    ensures c.Ok? ==> c.value.education == EducationCredit(r, p, s, agi, taxDue).value
    ensures c.Ok? ==> c.value.schedule3 == Schedule3With(r, c.value.education)
    ensures c.Ok? ==> c.value.childCredit == DependentCredit(r, p, agi, taxDue, c.value.schedule3.totalCredits).value
    ensures c.Ok? && c.value.childCredit.None? ==>
      c.value.nonrefundable == c.value.schedule3.totalCredits && c.value.boxes == []
    ensures c.Ok? && c.value.childCredit.Some? ==>
      && c.value.nonrefundable == c.value.schedule3.totalCredits + c.value.childCredit.value.totalCredits
      && c.value.boxes == Boxes(c.value.childCredit.value.dependents)
  {
    var e :- EducationCredit(r, p, s, agi, taxDue);
    var s3 := Schedule3With(r, e);
    var w :- DependentCredit(r, p, agi, taxDue, s3.totalCredits);
    match w
    case Some(cw) => Ok(Credits(e, s3, w, Boxes(cw.dependents), s3.totalCredits + cw.totalCredits))
    case None => Ok(Credits(e, s3, None, [], s3.totalCredits))
  }

  /** With dependents, line 12 adds the child tax credit to Schedule 3's
      total, and there is one credit box per dependent. */
  lemma DependentsAddChildCredit(r: Record, p: Parameters, s: Supporting, agi: real, taxDue: real)
    requires r.dependents.Some? && CreditsOf(r, p, s, agi, taxDue).Ok?
    ensures var c := CreditsOf(r, p, s, agi, taxDue).value;
      && c.childCredit.Some?
      && |c.boxes| == |r.dependents.value|
      && c.nonrefundable == c.schedule3.totalCredits + c.childCredit.value.totalCredits
  {
  }

  // ---------------------------------------------------------------- payments

  /** The outcome of the return: exactly one of a refund and an amount owed. */
  datatype Settlement = Refund(refund: real) | Owed(owed: real)

  /** Lines 13-22. */
  datatype Payments = Payments(
    line13: real,
    otherTaxes: real,
    totalTax: real,
    withheld: real,
    refundable: real,
    totalPayments: real,
    settlement: Settlement)

  /** Tax less credits, never below 0; other taxes on top; payments are the
      withholding and the refundable credits; the difference is the refund or
      the amount owed. */
  function PaymentsOf(r: Record, taxDue: real, nonrefundable: real, s: Supporting): (x: Payments)
    ensures x.line13 >= 0.0 && x.line13 >= taxDue - nonrefundable
    ensures x.line13 == 0.0 || x.line13 == taxDue - nonrefundable
    ensures x.totalTax == x.otherTaxes + x.line13 && x.otherTaxes == s.otherTaxes
    ensures x.withheld == Withheld(r) && x.refundable == s.refundableCredits
    ensures x.totalPayments == x.withheld + x.refundable
    ensures x.settlement.Refund? <==> x.totalPayments > x.totalTax
    ensures x.settlement.Refund? ==> x.settlement.refund > 0.0 && x.totalPayments == x.totalTax + x.settlement.refund
    ensures x.settlement.Owed? ==> x.settlement.owed >= 0.0 && x.totalTax == x.totalPayments + x.settlement.owed
  {
    var line13 := if taxDue - nonrefundable >= 0.0 then taxDue - nonrefundable else 0.0;
    var totalTax := s.otherTaxes + line13;
    var withheld := Withheld(r);
    var payments := s.refundableCredits + withheld;
    Payments(line13, s.otherTaxes, totalTax, withheld, s.refundableCredits, payments,
             if payments > totalTax then Refund(payments - totalTax) else Owed(totalTax - payments))
  }

  // ---------------------------------------------------------------- build

  /** The return as far as the checkpoint. */
  datatype Form1040 =
    | UpToScheduleA(header: Header, income: Income)
    | UpToTaxWorksheet(header: Header, income: Income, deductions: Deductions)
    | UpToChildCredit(header: Header, income: Income, deductions: Deductions, taxDue: real,
                      dependents: seq<Dependent>)
    | Complete(header: Header, income: Income, deductions: Deductions, taxDue: real,
               credits: Credits, payments: Payments)
  {
    /** The checkpoint this result stopped at. */
    function Stage(): Checkpoint {
      match this
      case UpToScheduleA(_, _) => ScheduleA
      case UpToTaxWorksheet(_, _, _) => TaxWorksheet
      case UpToChildCredit(_, _, _, _, _) => ChildCreditWorksheet
      case Complete(_, _, _, _, _, _) => Full
    }
  }

  /** `build_data(short_circuit)`. */
  function Build(r: Record, cp: Checkpoint, p: Parameters, s: Supporting): (f: Result<Form1040>)
    ensures f.Ok? ==> (f.value.UpToScheduleA? <==> cp == ScheduleA)
    ensures f.Ok? ==> (f.value.UpToTaxWorksheet? <==> cp == TaxWorksheet)
    ensures f.Ok? ==> (f.value.UpToChildCredit? <==> cp == ChildCreditWorksheet)
    ensures f.Ok? ==> HeaderOf(r) == Ok(f.value.header) && IncomeOf(r, p, s) == Ok(f.value.income)
    ensures f.Ok? && cp != ScheduleA ==>
      DeductionsOf(r, f.value.header, f.value.income, p, s) == Ok(f.value.deductions)
    ensures f.Ok? && (cp == ChildCreditWorksheet || cp == Full) ==>
      f.value.taxDue == s.taxOn(f.value.deductions.taxableIncome)
    ensures f.Ok? && cp == ChildCreditWorksheet ==> r.dependents == Some(f.value.dependents)
    ensures f.Ok? && cp == Full ==>
      CreditsOf(r, p, s, f.value.income.agi, f.value.taxDue) == Ok(f.value.credits)
      && f.value.payments == PaymentsOf(r, f.value.taxDue, f.value.credits.nonrefundable, s)
  {
    var h :- HeaderOf(r);
    var income :- IncomeOf(r, p, s);
    if cp == ScheduleA then Ok(UpToScheduleA(h, income))
    else
      var d :- DeductionsOf(r, h, income, p, s);
      if cp == TaxWorksheet then Ok(UpToTaxWorksheet(h, income, d))
      else
        var taxDue := s.taxOn(d.taxableIncome);
        if cp == ChildCreditWorksheet then
          var ds :- if r.dependents.Some? then Ok(r.dependents.value) else Err(MissingKey("dependents"));
          Ok(UpToChildCredit(h, income, d, taxDue, ds))
        else
          var c :- CreditsOf(r, p, s, income.agi, taxDue);
          Ok(Complete(h, income, d, taxDue, c, PaymentsOf(r, taxDue, c.nonrefundable, s)))
  }

  /** Every checkpoint reports what the whole return reports up to it: a
      complete return implies that the earlier checkpoints succeed with the
      same figures. */
  lemma CheckpointsAgree(r: Record, p: Parameters, s: Supporting)
    requires Build(r, Full, p, s).Ok?
    ensures Build(r, ScheduleA, p, s).Ok? && Build(r, TaxWorksheet, p, s).Ok?
    ensures Build(r, ScheduleA, p, s).value.income == Build(r, Full, p, s).value.income
    ensures Build(r, TaxWorksheet, p, s).value.deductions == Build(r, Full, p, s).value.deductions
    ensures r.dependents.Some? ==>
      Build(r, ChildCreditWorksheet, p, s).Ok?
      && Build(r, ChildCreditWorksheet, p, s).value.taxDue == Build(r, Full, p, s).value.taxDue
  {
  }

  /** The child credit checkpoint needs dependents: without them it fails
      where the complete return does not. */
  lemma ChildCreditNeedsDependents(r: Record, p: Parameters, s: Supporting)
    requires r.dependents.None?
    requires Build(r, TaxWorksheet, p, s).Ok?
    ensures Build(r, ChildCreditWorksheet, p, s) == Err(MissingKey("dependents"))
  {
  }

  /** A fifth dependent fails every checkpoint. */
  lemma TooManyDependentsFails(r: Record, cp: Checkpoint, p: Parameters, s: Supporting)
    requires r.dependents.Some? && |r.dependents.value| > 4
    ensures Build(r, cp, p, s) == Err(TooManyDependents)
  {
  }

  /** A complete return settles exactly one way: a refund of what payments
      exceed the total tax, or an amount owed of what the total tax exceeds
      payments; the tax after credits is never negative. */
  lemma SettlesOneWay(r: Record, p: Parameters, s: Supporting)
    requires Build(r, Full, p, s).Ok?
    ensures var x := Build(r, Full, p, s).value.payments;
      && x.line13 >= 0.0
      && (x.settlement.Refund? <==> x.totalPayments > x.totalTax)
      && x.totalPayments - x.totalTax == (if x.settlement.Refund? then x.settlement.refund else -x.settlement.owed)
  {
  }

  /** Payments equal to the total tax are not a refund: the return owes 0. */
  lemma EvenReturnOwesZero(r: Record, taxDue: real, nonrefundable: real, s: Supporting)
    requires PaymentsOf(r, taxDue, nonrefundable, s).totalPayments == PaymentsOf(r, taxDue, nonrefundable, s).totalTax
    ensures PaymentsOf(r, taxDue, nonrefundable, s).settlement == Owed(0.0)
  {
  }

  /** Taxable income is AGI less the larger of the itemized and standard
      deductions and less the QBI deduction. */
  lemma TaxableIncomeIdentity(r: Record, cp: Checkpoint, p: Parameters, s: Supporting)
    requires cp != ScheduleA && Build(r, cp, p, s).Ok?
    ensures var f := Build(r, cp, p, s).value;
      f.deductions.taxableIncome
      == f.income.totalIncome - f.income.schedule1.adjustments
         - Larger(f.deductions.itemized, f.deductions.standard) - f.deductions.qbi
  {
  }
}
