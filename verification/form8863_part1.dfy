/** Form 8863 Parts I and II (`forms/f_8863_i.py`): the education credits
    over all students.

    Part I phases the refundable American Opportunity credit out between the
    refundable income threshold and that threshold less the phase-out range:
    line 4 is how far AGI is under the threshold, and the multiplier is 1 when
    line 4 covers the range and line 4 / range rounded to three places
    otherwise. With AGI at or over the threshold the builder stops: no
    refundable and no nonrefundable credit. Part II does the same for the
    Lifetime Learning credit, and the credit limit worksheet caps the
    nonrefundable total at the tax due less the credits already accrued on
    Schedule 3.

    Python's `round(x, 2)` and `round(x, 3)` are the parameters `round2` and
    `round3`; the multiplier bound assumes only that `round3` returns a whole
    number of thousandths within half a thousandth.
 */
module Form8863PartI {
  import opened Outcomes
  import opened Strings
  import opened Money
  import opened Constants
  import opened Finance
  import Form8863PartIII

  /** A phase-out multiplier as written on the form: its value and the two
      boxes (`f1` before the point, `f2` the thousandths). */
  datatype Multiplier = Multiplier(value: real, f1: string, f2: string)

  /** Lines 5-6 (and 16-17): the multiplier for an amount `under` the
      threshold, given the phase-out range. */
  function PhaseoutMultiplier(under: real, range: real, round3: real -> real): (m: Multiplier)
    requires under > 0.0
    ensures under >= range ==> m == Multiplier(1.0, "1", "000")
    ensures under < range ==> m.f1 == "0" && m.value == round3(under / range)
    ensures under < range ==> m.f2 == IntToString(Trunc(m.value * 1000.0))
  {
    if under >= range then Multiplier(1.0, "1", "000")
    else
      var v := round3(under / range);
      Multiplier(v, "0", IntToString(Trunc(v * 1000.0)))
  }

  /** Under the threshold by less than the range, the multiplier is a whole
      number of thousandths in [0, 1] and its `f2` box spells those
      thousandths without a sign. */
  lemma MultiplierInUnit(under: real, range: real, round3: real -> real)
    requires 0.0 < under < range
    requires RoundsToThousandths(under / range, round3(under / range))
    ensures var m := PhaseoutMultiplier(under, range, round3);
      && 0.0 <= m.value <= 1.0
      && 0 <= Trunc(m.value * 1000.0) <= 1000
      && m.f2 == IntToString(Trunc(m.value * 1000.0))
      && (|m.f2| > 0 ==> m.f2[0] != '-')
  {
    FractionInUnit(under, range);
    RoundedFractionInUnit(under / range, round3(under / range));
  }

  /** The nonrefundable part (lines 10-18) of the build. */
  datatype PartII = PartII(
    line10: real,
    line11: Option<real>,
    line12: Option<real>,
    line15: Option<real>,
    line17: Option<Multiplier>,
    line18: real)

  /** The filled-in form. Without refundable room (line 4 at or under 0) only
      lines 1-4 are computed. */
  datatype PartI =
    | NoCredit(ssnGroups: seq<string>, line1: real, line2: real, line4: real)
    | Credits(
        ssnGroups: seq<string>, line1: real, line2: real, line4: real,
        line6: Multiplier, line7: real, line8: real, line9: real,
        partII: PartII, line19: real)
  {
    /** `_refundable_credits`. */
    function RefundableCredits(): real {
      if NoCredit? then 0.0 else line8
    }

    /** `_nonrefundable_total`. */
    function NonrefundableTotal(): real {
      if NoCredit? then 0.0 else line19
    }
  }

  /** Line 1: the students' `line_30` amounts, absent ones counting 0. */
  function Line1(parts: seq<Form8863PartIII.PartIII>): real {
    SumPresent(seq(|parts|, i requires 0 <= i < |parts| => parts[i].Line30()))
  }

  /** Line 10: the students' `line_31` amounts, absent ones counting 0. */
  function Line10(parts: seq<Form8863PartIII.PartIII>): real {
    SumPresent(seq(|parts|, i requires 0 <= i < |parts| => parts[i].Line31()))
  }

  /** Lines 10-18: the Lifetime Learning credit, phased out against AGI;
      line 18 stays 0 without positive expenses or without room under the
      nonrefundable threshold. */
  function BuildPartII(line10: real, agi: real, l: EducationLimits,
                       round2: real -> real, round3: real -> real): (p: PartII)
    ensures p.line10 == line10
    ensures line10 <= 0.0 ==> p.line18 == 0.0 && p.line11.None?
    ensures line10 > 0.0 ==> p.line11.Some? && p.line12.Some? && p.line15.Some?
    ensures line10 > 0.0 ==> p.line11.value <= line10 && p.line11.value <= l.maxNonrefundableCredit
    ensures line10 > 0.0 ==> (p.line11.value == line10 || p.line11.value == l.maxNonrefundableCredit)
    ensures line10 > 0.0 ==> p.line12.value == p.line11.value * l.nonrefundableRate
    ensures line10 > 0.0 ==> p.line15.value == l.nonrefundableIncomeThreshold - agi
    ensures line10 > 0.0 && p.line15.value <= 0.0 ==> p.line18 == 0.0 && p.line17.None?
    ensures line10 > 0.0 && p.line15.value > 0.0 ==>
      p.line17 == Some(PhaseoutMultiplier(p.line15.value, l.nonrefundablePhaseoutRange, round3))
      && p.line18 == round2(Times(p.line12.value, p.line17.value.value))
  {
    if line10 > 0.0 then
      var line11 := if line10 <= l.maxNonrefundableCredit then line10 else l.maxNonrefundableCredit;
      var line12 := line11 * l.nonrefundableRate;
      var line15 := l.nonrefundableIncomeThreshold - agi;
      if line15 > 0.0 then
        var line17 := PhaseoutMultiplier(line15, l.nonrefundablePhaseoutRange, round3);
        PartII(line10, Some(line11), Some(line12), Some(line15), Some(line17), round2(Times(line12, line17.value)))
      else
        PartII(line10, Some(line11), Some(line12), Some(line15), None, 0.0)
    else
      PartII(line10, None, None, None, None, 0.0)
  }

  /** `build_data`: the students' Part III results, the 1040's AGI and tax due
      (line 11) and the credits Schedule 3 has accrued before education are
      its inputs. The filing status is read without a default. */
  function Build(r: Record, parts: seq<Form8863PartIII.PartIII>, agi: real, taxDue: real,
                 accrued: real, l: EducationLimits,
                 round2: real -> real, round3: real -> real): (f: Result<PartI>)
    ensures f.Ok? <==> r.filingStatus.Some?
    ensures f.Err? ==> f.error == MissingKey("filing_status")
    ensures f.Ok? ==> f.value.line1 == Line1(parts) && f.value.line2 == l.refundableIncomeThreshold
    ensures f.Ok? ==> f.value.line4 == l.refundableIncomeThreshold - agi
    ensures f.Ok? ==> f.value.ssnGroups == Split(r.filer.ssn, '-')
    ensures f.Ok? ==> (f.value.NoCredit? <==> f.value.line4 <= 0.0)
    ensures f.Ok? && f.value.NoCredit? ==>
      f.value.RefundableCredits() == 0.0 && f.value.NonrefundableTotal() == 0.0
    ensures f.Ok? && f.value.Credits? ==>
      f.value.line6 == PhaseoutMultiplier(f.value.line4, l.refundablePhaseoutRange, round3)
    ensures f.Ok? && f.value.Credits? ==> f.value.line7 == round2(Times(f.value.line6.value, f.value.line1))
    ensures f.Ok? && f.value.Credits? ==> f.value.line8 == round2(Times(f.value.line7, l.refundableRate))
    ensures f.Ok? && f.value.Credits? ==> f.value.line9 == f.value.line7 - f.value.line8
    ensures f.Ok? && f.value.Credits? ==>
      f.value.partII == BuildPartII(Line10(parts), agi, l, round2, round3)
    ensures f.Ok? && f.value.Credits? ==>
      f.value.line19 <= f.value.partII.line18 + f.value.line9 && f.value.line19 <= taxDue - accrued
    ensures f.Ok? && f.value.Credits? ==>
      (f.value.line19 == f.value.partII.line18 + f.value.line9 || f.value.line19 == taxDue - accrued)
  {
    var _ :- RequiredStatus(r);
    var ssnGroups := Split(r.filer.ssn, '-');
    var line1 := Line1(parts);
    var line2 := l.refundableIncomeThreshold;
    var line4 := line2 - agi;
    if line4 > 0.0 then
      var line6 := PhaseoutMultiplier(line4, l.refundablePhaseoutRange, round3);
      var line7 := round2(Times(line6.value, line1));
      var line8 := round2(Times(line7, l.refundableRate));
      var line9 := line7 - line8;
      var partII := BuildPartII(Line10(parts), agi, l, round2, round3);
      var limit := taxDue - accrued;
      var line19 := if partII.line18 + line9 <= limit then partII.line18 + line9 else limit;
      Ok(Credits(ssnGroups, line1, line2, line4, line6, line7, line8, line9, partII, line19))
    else
      Ok(NoCredit(ssnGroups, line1, line2, line4))
  }

  /** AGI at or over the refundable threshold leaves no education credit of
      either kind, whatever the students' expenses. */
  lemma NoCreditAtOrOverThreshold(r: Record, parts: seq<Form8863PartIII.PartIII>, agi: real, taxDue: real,
                                  accrued: real, l: EducationLimits, round2: real -> real, round3: real -> real)
    requires r.filingStatus.Some?
    requires agi >= l.refundableIncomeThreshold
    ensures var f := Build(r, parts, agi, taxDue, accrued, l, round2, round3).value;
      f.RefundableCredits() == 0.0 && f.NonrefundableTotal() == 0.0
  {
  }

  /** The nonrefundable total never exceeds the tax left after the credits
      already accrued: the credit limit worksheet. */
  lemma NonrefundableWithinTax(r: Record, parts: seq<Form8863PartIII.PartIII>, agi: real, taxDue: real,
                               accrued: real, l: EducationLimits, round2: real -> real, round3: real -> real)
    requires Build(r, parts, agi, taxDue, accrued, l, round2, round3).Ok?
    requires taxDue >= accrued
    ensures 0.0 <= taxDue - accrued
    ensures Build(r, parts, agi, taxDue, accrued, l, round2, round3).value.NonrefundableTotal() <= taxDue - accrued
  {
  }

  /** Line 10 collects only Lifetime Learning expenses: when every student
      takes the American Opportunity credit it is 0. */
  lemma AllUndergraduatesLeaveLine10Empty(parts: seq<Form8863PartIII.PartIII>)
    requires forall i :: 0 <= i < |parts| ==> parts[i].credit.AmericanOpportunity?
    ensures Line10(parts) == 0.0
  {
    var xs := seq(|parts|, i requires 0 <= i < |parts| => parts[i].Line31());
    forall i | 0 <= i < |xs|
      ensures xs[i].None?
    {
    }
    SumPresentAllMissing(xs);
  }

  /** Appending a student adds that student's line 30 to line 1. */
  lemma {:induction false} Line1Append(parts: seq<Form8863PartIII.PartIII>, p: Form8863PartIII.PartIII)
    ensures Line1(parts + [p]) == Line1(parts) + p.Line30().GetOr(0.0)
  {
    var xs := seq(|parts|, i requires 0 <= i < |parts| => parts[i].Line30());
    var ys := seq(|parts + [p]|, i requires 0 <= i < |parts + [p]| => (parts + [p])[i].Line30());
    assert ys == xs + [p.Line30()];
    SumPresentConcat(xs, [p.Line30()]);
  }
}
