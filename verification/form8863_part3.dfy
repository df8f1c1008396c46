/** Form 8863 Part III (`forms/f_8863_iii.py`): one student's education credit.

    An undergraduate (any `y` in the `is_undergrad` answer) gets the American
    Opportunity credit: qualified expenses up to the maximum claim, the first
    `fully_covered_refundable_expense` dollars at 100% and the rest at the
    partial rate, reported on line 30. Anyone else gets the Lifetime Learning
    entry: the expenses go to line 31.

    The source fills `line_28` and `line_29` but keeps line 27 under another
    key, so when nothing exceeds the fully covered amount it reads a `line_27`
    key that was never written and the build fails. `AocAsWritten` keeps that
    behaviour; `Aoc` reports line 27 itself there, and `Build` uses it.
 */
module Form8863PartIII {
  import opened Outcomes
  import opened Strings
  import opened Constants
  import opened Finance

  /** The credit lines of one student. */
  datatype Credit =
    | AmericanOpportunity(line27: real, line28: real, line29: real, total: real)
    | LifetimeLearning(expenses: real)

  /** The filled-in part: names, the SSN and EIN boxes, and the credit. */
  datatype PartIII = PartIII(
    student: string,
    institution: string,
    institutionAddress: string,
    filerSsnGroups: seq<string>,
    studentSsnGroups: seq<string>,
    einDigits: string,
    credit: Credit)
  {
    /** `line_30`, written only for the American Opportunity credit. */
    function Line30(): Option<real> {
      if credit.AmericanOpportunity? then Some(credit.total) else None
    }

    /** `line_31`, written only for the Lifetime Learning credit. */
    function Line31(): Option<real> {
      if credit.LifetimeLearning? then Some(credit.expenses) else None
    }
  }

  /** `'y' in s_info['is_undergrad']`. */
  predicate IsUndergrad(s: Student) {
    Contains(s.isUndergrad, "y")
  }

  /** The substring test on a one-letter pattern is the letter occurring in the answer. */
  lemma UndergradIffLetter(s: Student)
    ensures IsUndergrad(s) <==> 'y' in s.isUndergrad
  {
    ContainsChar(s.isUndergrad, 'y');
  }

  /** Line 27: the expenses, capped at the maximum claim. */
  function Line27(expenses: real, l: EducationLimits): (x: real)
    ensures x <= l.maxRefundableClaim && x <= expenses
    ensures x == l.maxRefundableClaim || x == expenses
  {
    if l.maxRefundableClaim <= expenses then l.maxRefundableClaim else expenses
  }

  /** Line 28: what line 27 exceeds the fully covered amount by, never negative. */
  function Line28(line27: real, l: EducationLimits): (x: real)
    ensures x >= 0.0 && x >= line27 - l.fullyCoveredRefundableExpense
    ensures x == 0.0 || x == line27 - l.fullyCoveredRefundableExpense
  {
    if line27 - l.fullyCoveredRefundableExpense > 0.0 then line27 - l.fullyCoveredRefundableExpense else 0.0
  }

  /** The American Opportunity lines as the source computes them: with line 28
      at 0 the total is read from the unwritten key `line_27`. */
  function AocAsWritten(expenses: real, l: EducationLimits): (c: Result<Credit>)
    ensures c.Err? <==> Line28(Line27(expenses, l), l) == 0.0
    ensures c.Err? ==> c.error == MissingKey("line_27")
    ensures c.Ok? ==> c.value.AmericanOpportunity?
    ensures c.Ok? ==> c.value.total == c.value.line29 + l.fullyCoveredRefundableExpense
  {
    var line27 := Line27(expenses, l);
    var line28 := Line28(line27, l);
    var line29 := line28 * l.partiallyCoveredRefundableRate;
    if line28 == 0.0 then Err(MissingKey("line_27"))
    else Ok(AmericanOpportunity(line27, line28, line29, line29 + l.fullyCoveredRefundableExpense))
  }

  /** The American Opportunity lines with line 27 as the total when nothing
      exceeds the fully covered amount. */
  function Aoc(expenses: real, l: EducationLimits): (c: Credit)
    ensures c.AmericanOpportunity?
    ensures c.line27 == Line27(expenses, l) && c.line28 == Line28(c.line27, l)
    ensures c.line29 == c.line28 * l.partiallyCoveredRefundableRate
    ensures c.line28 == 0.0 ==> c.total == c.line27
    ensures c.line28 > 0.0 ==> c.total == c.line29 + l.fullyCoveredRefundableExpense
  {
    var line27 := Line27(expenses, l);
    var line28 := Line28(line27, l);
    var line29 := line28 * l.partiallyCoveredRefundableRate;
    AmericanOpportunity(line27, line28, line29,
      if line28 == 0.0 then line27 else line29 + l.fullyCoveredRefundableExpense)
  }

  /** Where the source's lines are defined they agree with `Aoc`. */
  lemma AocAgreesWhereDefined(expenses: real, l: EducationLimits)
    requires AocAsWritten(expenses, l).Ok?
    ensures AocAsWritten(expenses, l).value == Aoc(expenses, l)
  {
  }

  /** The credit is the claim up to the fully covered amount in full plus the
      partial rate on the rest, as the form's instructions state it. */
  lemma AocClosedForm(expenses: real, l: EducationLimits)
    ensures var c := Aoc(expenses, l);
      var covered := if c.line27 <= l.fullyCoveredRefundableExpense then c.line27 else l.fullyCoveredRefundableExpense;
      c.total == covered + l.partiallyCoveredRefundableRate * c.line28
  {
  }

  /** With a non-negative covered amount and a rate of at most 100%, the
      credit is never negative for non-negative expenses and never more than
      the expenses claimed on line 27. */
  lemma AocBounds(expenses: real, l: EducationLimits)
    requires expenses >= 0.0 && l.maxRefundableClaim >= 0.0
    requires l.fullyCoveredRefundableExpense >= 0.0
    requires 0.0 <= l.partiallyCoveredRefundableRate <= 1.0
    ensures 0.0 <= Aoc(expenses, l).total <= Aoc(expenses, l).line27
  {
    var c := Aoc(expenses, l);
    if c.line28 > 0.0 {
      assert c.line29 <= c.line28;
    }
  }

  /** $1,500 of undergraduate expenses under the 2018 amounts ($4,000 claim,
      $2,000 fully covered, 25% above it) make the source fail, while the
      intended credit is the full $1,500. */
  lemma AocAsWrittenCounterexample()
    ensures var l := EducationLimits(0.0, 0.0, 0.0, 0.0, 0.0, 0.0, 0.0, 4000.0, 2000.0, 0.25);
      && AocAsWritten(1500.0, l) == Err(MissingKey("line_27"))
      && Aoc(1500.0, l).total == 1500.0
  {
  }

  /** The credit of one student as the source computes it. */
  function CreditAsWritten(s: Student, l: EducationLimits): (c: Result<Credit>)
    ensures IsUndergrad(s) ==> c == AocAsWritten(s.expenses, l)
    ensures !IsUndergrad(s) ==> c == Ok(LifetimeLearning(s.expenses))
  {
    if IsUndergrad(s) then AocAsWritten(s.expenses, l) else Ok(LifetimeLearning(s.expenses))
  }

  /** The credit of one student. */
  function StudentCredit(s: Student, l: EducationLimits): (c: Credit)
    ensures c.AmericanOpportunity? <==> IsUndergrad(s)
    ensures c.LifetimeLearning? ==> c.expenses == s.expenses
  {
    if IsUndergrad(s) then Aoc(s.expenses, l) else LifetimeLearning(s.expenses)
  }

  /** The fields shared by both builds, around a given credit. */
  function Fill(r: Record, s: Student, c: Credit): (p: PartIII)
    ensures p.credit == c && p.student == s.name
    ensures p.filerSsnGroups == Split(r.filer.ssn, '-')
    ensures p.studentSsnGroups == Split(s.ssn, '-')
    ensures p.einDigits == RemoveChar(s.ein, '-')
  {
    PartIII(s.name, s.institution, s.address,
            Split(r.filer.ssn, '-'), Split(s.ssn, '-'), RemoveChar(s.ein, '-'), c)
  }

  /** `build_data` as written: the filing status is read without a default
      (to look up the credit amounts) before anything else can fail. */
  function BuildAsWritten(r: Record, s: Student, l: EducationLimits): (p: Result<PartIII>)
    ensures r.filingStatus.None? ==> p == Err(MissingKey("filing_status"))
    ensures r.filingStatus.Some? ==> (p.Ok? <==> CreditAsWritten(s, l).Ok?)
    ensures p.Ok? ==> p.value == Fill(r, s, CreditAsWritten(s, l).value)
  {
    var _ :- RequiredStatus(r);
    var c :- CreditAsWritten(s, l);
    Ok(Fill(r, s, c))
  }

  /** `build_data` with the line 27 total: it fails only without a filing status. */
  function Build(r: Record, s: Student, l: EducationLimits): (p: Result<PartIII>)
    ensures p.Ok? <==> r.filingStatus.Some?
    ensures p.Err? ==> p.error == MissingKey("filing_status")
    ensures p.Ok? ==> p.value == Fill(r, s, StudentCredit(s, l))
  {
    var _ :- RequiredStatus(r);
    Ok(Fill(r, s, StudentCredit(s, l)))
  }

  /** Exactly one of lines 30 and 31 is written: line 30 for an undergraduate,
      line 31, the expenses, for anyone else. */
  lemma OneCreditLine(r: Record, s: Student, l: EducationLimits)
    requires Build(r, s, l).Ok?
    ensures var p := Build(r, s, l).value;
      && (p.Line30().Some? <==> IsUndergrad(s))
      && (p.Line31().Some? <==> !IsUndergrad(s))
      && (p.Line31().Some? ==> p.Line31().value == s.expenses)
  {
  }

  /** The SSN boxes hold the '-'-separated groups: none holds a '-', there is
      one more box than dashes, and joining them back with '-' gives the SSN. */
  lemma SsnGroupsRoundTrip(r: Record, s: Student, l: EducationLimits)
    requires Build(r, s, l).Ok?
    ensures var p := Build(r, s, l).value;
      && |p.studentSsnGroups| == Count(s.ssn, '-') + 1
      && (forall i :: 0 <= i < |p.studentSsnGroups| ==> '-' !in p.studentSsnGroups[i])
      && Join(p.studentSsnGroups, '-') == s.ssn
      && Join(p.filerSsnGroups, '-') == r.filer.ssn
  {
    JoinSplit(s.ssn, '-');
    JoinSplit(r.filer.ssn, '-');
  }

  /** The EIN boxes hold one character each: the EIN's groups run together,
      every character but the dashes. */
  lemma EinDigits(r: Record, s: Student, l: EducationLimits)
    requires Build(r, s, l).Ok?
    ensures var p := Build(r, s, l).value;
      && p.einDigits == Concat(Split(s.ein, '-'))
      && '-' !in p.einDigits
      && |p.einDigits| + Count(s.ein, '-') == |s.ein|
  {
    RemoveCharIsConcatSplit(s.ein, '-');
  }
}
