/** Schedule 1 (`forms/s1_1040.py`): additional income and adjustments to income.

    The schedule writes amounts under a handful of stems and then totals two
    fixed stem lists, nine for additional income and eleven for adjustments;
    stems it never writes count 0. The student loan interest deduction needs
    Form 1040's total income and is only taken when that figure is supplied.

    The phase-out of the student loan deduction is modelled as the source
    computes it: strictly inside the phase-out range the deduction is the
    capped interest times the fraction of the range already crossed, so it
    grows with income there.
 */
module Schedule1 {
  import opened Outcomes
  import opened Money
  import opened Constants
  import opened Finance

  /** The stems summed into `sum_income`. */
  const IncomeStems: seq<string> :=
    ["refund", "alimony", "business", "capital_gain", "other_gains",
     "rental", "farm", "unemployment", "other_income"]

  /** The stems summed into `adjustments`. */
  const AdjustmentStems: seq<string> :=
    ["educator", "business_expenses", "hsa", "moving", "self_employment",
     "sep", "se_health", "early_penalty", "alimony", "ira", "loan_interest"]

  /** What the self-employment forms contribute: Schedule C-EZ's net profit,
      Schedule SE's deduction and the SEP worksheet's contribution. */
  datatype SelfEmployment = SelfEmployment(netProfit: real, seDeduction: real, sepContribution: real)

  /** The filled-in schedule: its amount fields and the two totals. */
  datatype Schedule1 = Schedule1(fields: Amounts, sumIncome: real, adjustments: real)

  /** The interest, capped at the maximum deduction. */
  function CappedInterest(interest: real, l: StudentLoanLimits): (x: real)
    ensures x <= l.maxDeduction && x <= interest
    ensures x == interest || x == l.maxDeduction
  {
    if interest > l.maxDeduction then l.maxDeduction else interest
  }

  /** `compute_student_loan_deduction`. */
  function StudentLoanDeduction(interest: real, agi: real, l: StudentLoanLimits): (d: real)
    ensures agi <= l.phaseoutBegin ==> d == CappedInterest(interest, l)
    ensures l.phaseoutBegin < agi && l.phaseoutEnd <= agi ==> d == 0.0
    ensures l.phaseoutBegin < agi < l.phaseoutEnd ==>
      d * (l.phaseoutEnd - l.phaseoutBegin) == CappedInterest(interest, l) * (agi - l.phaseoutBegin)
  {
    var capped := CappedInterest(interest, l);
    if agi <= l.phaseoutBegin then capped
    else if agi < l.phaseoutEnd then
      1.0 * capped * (agi - l.phaseoutBegin) / (l.phaseoutEnd - l.phaseoutBegin)
    else 0.0
  }

  /** With non-negative interest and cap, the deduction lies between 0 and
      the capped interest at every income. */
  lemma StudentLoanBounds(interest: real, agi: real, l: StudentLoanLimits)
    requires interest >= 0.0 && l.maxDeduction >= 0.0
    ensures 0.0 <= StudentLoanDeduction(interest, agi, l) <= CappedInterest(interest, l)
  {
    var capped := CappedInterest(interest, l);
    if l.phaseoutBegin < agi < l.phaseoutEnd {
      var d := StudentLoanDeduction(interest, agi, l);
      var range := l.phaseoutEnd - l.phaseoutBegin;
      var crossed := agi - l.phaseoutBegin;
      assert 0.0 < crossed < range;
      assert d * range == capped * crossed;
      assert 0.0 <= capped * crossed <= capped * range;
    }
  }

  /** Inside the phase-out range the deduction, as computed, rises with income. */
  lemma StudentLoanRisesInsideRange(interest: real, agi1: real, agi2: real, l: StudentLoanLimits)
    requires interest >= 0.0 && l.maxDeduction >= 0.0
    requires l.phaseoutBegin < agi1 <= agi2 < l.phaseoutEnd
    ensures StudentLoanDeduction(interest, agi1, l) <= StudentLoanDeduction(interest, agi2, l)
  {
    var capped := CappedInterest(interest, l);
    var range := l.phaseoutEnd - l.phaseoutBegin;
    assert StudentLoanDeduction(interest, agi1, l) == capped * ((agi1 - l.phaseoutBegin) / range);
    assert StudentLoanDeduction(interest, agi2, l) == capped * ((agi2 - l.phaseoutBegin) / range);
    assert (agi1 - l.phaseoutBegin) / range <= (agi2 - l.phaseoutBegin) / range;
  }

  /** Total capital gain over the 1099-DIVs, entries without one counting 0. */
  function CapitalGain(divs: seq<Div1099>): real {
    SumPresent(seq(|divs|, i requires 0 <= i < |divs| => divs[i].totalCapitalGain))
  }

  /** The additional-income amounts the schedule writes: business income for
      a self-employed filer, capital gain when there are 1099-DIVs. */
  function IncomeFields(r: Record, se: Option<SelfEmployment>): (m: Amounts)
    ensures m.Keys <= {"business", "capital_gain"}
    ensures "business" in m <==> se.Some?
    ensures se.Some? ==> m["business"] == se.value.netProfit
    ensures "capital_gain" in m <==> r.div1099.Some?
    ensures r.div1099.Some? ==> m["capital_gain"] == CapitalGain(r.div1099.value)
  {
    var m: Amounts := map[];
    var m := if se.Some? then m["business" := se.value.netProfit] else m;
    if r.div1099.Some? then m["capital_gain" := CapitalGain(r.div1099.value)] else m
  }

  /** The student loan deduction, when the record has interest and the
      1040's total income is supplied; it reads the filing status without a
      default. */
  function LoanInterest(r: Record, totalIncome: Option<real>, l: StudentLoanLimits): (x: Result<Option<real>>)
    ensures x.Err? <==> r.studentLoanInterest.Some? && totalIncome.Some? && r.filingStatus.None?
    ensures x.Err? ==> x.error == MissingKey("filing_status")
    ensures x.Ok? ==> (x.value.Some? <==> r.studentLoanInterest.Some? && totalIncome.Some?)
    ensures x.Ok? && x.value.Some? ==>
      x.value.value == StudentLoanDeduction(r.studentLoanInterest.value, totalIncome.value, l)
  {
    if r.studentLoanInterest.Some? && totalIncome.Some? then
      var _ :- RequiredStatus(r);
      Ok(Some(StudentLoanDeduction(r.studentLoanInterest.value, totalIncome.value, l)))
    else Ok(None)
  }

  /** The adjustment amounts the schedule writes on top of the income amounts. */
  function AdjustmentFields(r: Record, se: Option<SelfEmployment>, loan: Option<real>, m: Amounts): (a: Amounts)
  {
    var a := Put(m, "educator", r.educatorExpenses);
    var a := Put(a, "hsa", r.hsaDeduction);
    var a := Put(a, "self_employment", if se.Some? then Some(se.value.seDeduction) else None);
    var a := Put(a, "sep", if se.Some? then Some(se.value.sepContribution) else None);
    var a := Put(a, "ira", r.traditionalIraDeduction);
    Put(a, "loan_interest", loan)
  }

  /** `build_data`: additional income is the sum of the nine income stems and
      adjustments the sum of the eleven adjustment stems, over the amounts
      the schedule wrote. */
  function Build(r: Record, se: Option<SelfEmployment>, totalIncome: Option<real>, l: StudentLoanLimits): (s: Result<Schedule1>)
    ensures s.Err? <==> LoanInterest(r, totalIncome, l).Err?
    ensures s.Ok? ==> s.value.sumIncome == AddFields(IncomeFields(r, se), IncomeStems)
    ensures s.Ok? ==> s.value.adjustments == AddFields(s.value.fields, AdjustmentStems)
    ensures s.Ok? ==>
      s.value.fields == AdjustmentFields(r, se, LoanInterest(r, totalIncome, l).value, IncomeFields(r, se))
  {
    var income := IncomeFields(r, se);
    var loan :- LoanInterest(r, totalIncome, l);
    var fields := AdjustmentFields(r, se, loan, income);
    Ok(Schedule1(fields, AddFields(income, IncomeStems), AddFields(fields, AdjustmentStems)))
  }

  /** `add_fields` over the nine income stems, written out. */
  lemma IncomeStemsUnrolled(d: Amounts)
    ensures AddFields(d, IncomeStems) ==
      Amount(d, "refund") + Amount(d, "alimony") + Amount(d, "business") +
      Amount(d, "capital_gain") + Amount(d, "other_gains") + Amount(d, "rental") +
      Amount(d, "farm") + Amount(d, "unemployment") + Amount(d, "other_income")
  {
    var st := IncomeStems;
    assert st[8..][1..] == [];
    assert st[7..][1..] == st[8..];
    assert st[6..][1..] == st[7..];
    assert st[5..][1..] == st[6..];
    assert st[4..][1..] == st[5..];
    assert st[3..][1..] == st[4..];
    assert st[2..][1..] == st[3..];
    assert st[1..][1..] == st[2..];
    assert st[0..] == st;
  }

  /** `add_fields` over the eleven adjustment stems, written out. */
  lemma AdjustmentStemsUnrolled(d: Amounts)
    ensures AddFields(d, AdjustmentStems) ==
      Amount(d, "educator") + Amount(d, "business_expenses") + Amount(d, "hsa") +
      Amount(d, "moving") + Amount(d, "self_employment") + Amount(d, "sep") +
      Amount(d, "se_health") + Amount(d, "early_penalty") + Amount(d, "alimony") +
      Amount(d, "ira") + Amount(d, "loan_interest")
  {
    var st := AdjustmentStems;
    assert st[10..][1..] == [];
    assert st[9..][1..] == st[10..];
    assert st[8..][1..] == st[9..];
    assert st[7..][1..] == st[8..];
    assert st[6..][1..] == st[7..];
    assert st[5..][1..] == st[6..];
    assert st[4..][1..] == st[5..];
    assert st[3..][1..] == st[4..];
    assert st[2..][1..] == st[3..];
    assert st[1..][1..] == st[2..];
    assert st[0..] == st;
  }

  /** The written income amounts total business income plus capital gain. */
  lemma IncomeFieldsTotal(r: Record, se: Option<SelfEmployment>)
    ensures AddFields(IncomeFields(r, se), IncomeStems) ==
      (if se.Some? then se.value.netProfit else 0.0) +
      (if r.div1099.Some? then CapitalGain(r.div1099.value) else 0.0)
  {
    var m := IncomeFields(r, se);
    IncomeStemsUnrolled(m);
    NotWritten(m, {"business", "capital_gain"}, "refund");
    NotWritten(m, {"business", "capital_gain"}, "alimony");
    NotWritten(m, {"business", "capital_gain"}, "other_gains");
    NotWritten(m, {"business", "capital_gain"}, "rental");
    NotWritten(m, {"business", "capital_gain"}, "farm");
    NotWritten(m, {"business", "capital_gain"}, "unemployment");
    NotWritten(m, {"business", "capital_gain"}, "other_income");
  }

  /** Only business income and capital gain reach `sum_income`; the other
      seven stems are never written and count 0. */
  lemma SumIncomeClosedForm(r: Record, se: Option<SelfEmployment>, totalIncome: Option<real>, l: StudentLoanLimits)
    requires Build(r, se, totalIncome, l).Ok?
    ensures Build(r, se, totalIncome, l).value.sumIncome ==
      (if se.Some? then se.value.netProfit else 0.0) +
      (if r.div1099.Some? then CapitalGain(r.div1099.value) else 0.0)
  {
    IncomeFieldsTotal(r, se);
  }

  /** A stem outside the written keys counts 0. */
  lemma NotWritten(m: Amounts, written: set<string>, stem: string)
    requires m.Keys <= written && stem !in written
    ensures Amount(m, stem) == 0.0
  {
  }

  /** What each adjustment stem the schedule writes holds afterwards. */
  lemma AdjustmentAmounts(r: Record, se: Option<SelfEmployment>, loan: Option<real>, m: Amounts)
    requires "educator" !in m && "hsa" !in m && "self_employment" !in m
    requires "sep" !in m && "ira" !in m && "loan_interest" !in m
    ensures var a := AdjustmentFields(r, se, loan, m);
      && Amount(a, "educator") == r.educatorExpenses.GetOr(0.0)
      && Amount(a, "hsa") == r.hsaDeduction.GetOr(0.0)
      && Amount(a, "self_employment") == (if se.Some? then se.value.seDeduction else 0.0)
      && Amount(a, "sep") == (if se.Some? then se.value.sepContribution else 0.0)
      && Amount(a, "ira") == r.traditionalIraDeduction.GetOr(0.0)
      && Amount(a, "loan_interest") == loan.GetOr(0.0)
  {
  }

  /** The adjustment stems the schedule never writes stay at 0 when the
      income amounts do not hold them. */
  lemma UnwrittenAdjustments(r: Record, se: Option<SelfEmployment>, loan: Option<real>, m: Amounts)
    requires "business_expenses" !in m && "moving" !in m && "se_health" !in m
    requires "early_penalty" !in m && "alimony" !in m
    ensures var a := AdjustmentFields(r, se, loan, m);
      && Amount(a, "business_expenses") == 0.0
      && Amount(a, "moving") == 0.0
      && Amount(a, "se_health") == 0.0
      && Amount(a, "early_penalty") == 0.0
      && Amount(a, "alimony") == 0.0
  {
  }

  /** Over income amounts that hold only business income and capital gain,
      the written adjustment amounts total the five adjustments the schedule
      fills in. */
  lemma AdjustmentFieldsTotal(r: Record, se: Option<SelfEmployment>, loan: Option<real>, m: Amounts)
    requires m.Keys <= {"business", "capital_gain"}
    ensures AddFields(AdjustmentFields(r, se, loan, m), AdjustmentStems) ==
      r.educatorExpenses.GetOr(0.0) + r.hsaDeduction.GetOr(0.0) +
      (if se.Some? then se.value.seDeduction + se.value.sepContribution else 0.0) +
      r.traditionalIraDeduction.GetOr(0.0) + loan.GetOr(0.0)
  {
    var keys := ["educator", "hsa", "self_employment", "sep", "ira", "loan_interest",
      "business_expenses", "moving", "se_health", "early_penalty", "alimony"];
    forall i | 0 <= i < |keys|
      ensures keys[i] !in m
    {
    }
    assert keys[0] !in m && keys[1] !in m && keys[2] !in m && keys[3] !in m;
    assert keys[4] !in m && keys[5] !in m && keys[6] !in m && keys[7] !in m;
    assert keys[8] !in m && keys[9] !in m && keys[10] !in m;
    AdjustmentAmounts(r, se, loan, m);
    UnwrittenAdjustments(r, se, loan, m);
    AdjustmentStemsUnrolled(AdjustmentFields(r, se, loan, m));
  }

  /** `adjustments` is educator expenses, the HSA deduction, the SE deduction
      and SEP contribution of a self-employed filer, the traditional IRA
      deduction and the student loan deduction, each 0 when absent. */
  lemma AdjustmentsClosedForm(r: Record, se: Option<SelfEmployment>, totalIncome: Option<real>, l: StudentLoanLimits)
    requires Build(r, se, totalIncome, l).Ok?
    ensures var loan := LoanInterest(r, totalIncome, l).value;
      Build(r, se, totalIncome, l).value.adjustments ==
        r.educatorExpenses.GetOr(0.0) + r.hsaDeduction.GetOr(0.0) +
        (if se.Some? then se.value.seDeduction + se.value.sepContribution else 0.0) +
        r.traditionalIraDeduction.GetOr(0.0) + loan.GetOr(0.0)
  {
    AdjustmentFieldsTotal(r, se, LoanInterest(r, totalIncome, l).value, IncomeFields(r, se));
  }

  /** Additional income does not depend on the 1040 total income that is fed
      back for the student loan deduction, so computing the income part first
      and the adjustments second is consistent. */
  lemma SumIncomeIgnoresTotalIncome(r: Record, se: Option<SelfEmployment>, t1: Option<real>, t2: Option<real>, l: StudentLoanLimits)
    requires Build(r, se, t1, l).Ok? && Build(r, se, t2, l).Ok?
    ensures Build(r, se, t1, l).value.sumIncome == Build(r, se, t2, l).value.sumIncome
  {
  }
}
