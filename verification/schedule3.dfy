/** Schedule 3 (`forms/s3_1040.py`): nonrefundable credits.

    The schedule accrues the foreign tax credit (when there are 1099-DIVs) and
    then the education credit of Form 8863 Part I (when the record has
    education). A caller that only needs part of it names a mode: the
    `foreign_tax_credit` and `child_care` modes stop before the education
    credit and `education` right after it, each returning the accrued amount
    with the fields so far; any other name builds the whole schedule, whose
    total is the sum of the six credit stems.
 */
module Schedule3 {
  import opened Outcomes
  import opened Money
  import opened Finance

  /** The short-circuit names the builder tests, and the full build. */
  datatype Mode = ForeignTaxCredit | ChildCare | Education | Full

  /** The mode a `short_circuit` string selects; every other string builds
      the whole schedule. */
  function ModeNamed(name: string): (m: Mode)
    ensures name == "foreign_tax_credit" <==> m == ForeignTaxCredit
    ensures name == "child_care" <==> m == ChildCare
    ensures name == "education" <==> m == Education
  {
    if name == "foreign_tax_credit" then ForeignTaxCredit
    else if name == "child_care" then ChildCare
    else if name == "education" then Education
    else Full
  }

  /** The stems summed into `nonrefundable_total`. */
  const CreditStems: seq<string> :=
    ["foreign_tax_credit", "child_care", "education", "retirement", "energy", "other_credits"]

  /** The result: the `(accrued, fields)` tuple of a short-circuit mode, or
      the full schedule with its total and `_total_credits`. */
  datatype Schedule3 =
    | Partial(accrued: real, fields: Amounts)
    | Complete(fields: Amounts, nonrefundableTotal: real, totalCredits: real)

  /** Foreign tax paid over the 1099-DIVs, entries without one counting 0. */
  function ForeignTax(divs: seq<Div1099>): real {
    SumPresent(seq(|divs|, i requires 0 <= i < |divs| => divs[i].foreignTax))
  }

  /** Foreign tax is additive: two lists of 1099-DIVs together pay the sum
      of what each pays. */
  lemma ForeignTaxAppend(a: seq<Div1099>, b: seq<Div1099>)
    ensures ForeignTax(a + b) == ForeignTax(a) + ForeignTax(b)
  {
    var xs := seq(|a|, i requires 0 <= i < |a| => a[i].foreignTax);
    var ys := seq(|b|, i requires 0 <= i < |b| => b[i].foreignTax);
    assert seq(|a + b|, i requires 0 <= i < |a + b| => (a + b)[i].foreignTax) == xs + ys;
    SumPresentConcat(xs, ys);
  }

  /** The foreign tax credit, written when the record has 1099-DIVs. */
  function ForeignCredit(r: Record): (x: Option<real>)
    ensures x.Some? <==> r.div1099.Some?
    ensures x.Some? ==> x.value == ForeignTax(r.div1099.value)
  {
    if r.div1099.Some? then Some(ForeignTax(r.div1099.value)) else None
  }

  /** `build_data`. `education` is Form 8863 Part I's `_nonrefundable_total`
      when the record has education (that builder always returns one), and
      None otherwise. */
  function Build(r: Record, education: Option<real>, mode: Mode): (s: Schedule3)
    ensures mode != Full <==> s.Partial?
    ensures (mode == ForeignTaxCredit || mode == ChildCare) ==>
      s.accrued == ForeignCredit(r).GetOr(0.0) && "education" !in s.fields
    ensures mode == Education ==>
      s.accrued == ForeignCredit(r).GetOr(0.0) + education.GetOr(0.0)
    ensures s.fields.Keys <= {"foreign_tax_credit", "education"}
    ensures Amount(s.fields, "foreign_tax_credit") == ForeignCredit(r).GetOr(0.0)
    ensures mode == Full ==> s.nonrefundableTotal == AddFields(s.fields, CreditStems)
    ensures mode == Full ==> s.totalCredits == s.nonrefundableTotal
  {
    var ftc := ForeignCredit(r);
    var fields := Put(map[], "foreign_tax_credit", ftc);
    var accrued := ftc.GetOr(0.0);
    var withEducation := Put(fields, "education", education);
    match mode
    case ForeignTaxCredit => Partial(accrued, fields)
    case ChildCare => Partial(accrued, fields)
    case Education => Partial(accrued + education.GetOr(0.0), withEducation)
    case Full =>
      var total := AddFields(withEducation, CreditStems);
      Complete(withEducation, total, total)
  }

  /** `add_fields` over the six credit stems, written out. */
  lemma CreditStemsUnrolled(d: Amounts)
    ensures AddFields(d, CreditStems) ==
      Amount(d, "foreign_tax_credit") + Amount(d, "child_care") + Amount(d, "education") +
      Amount(d, "retirement") + Amount(d, "energy") + Amount(d, "other_credits")
  {
    var st := CreditStems;
    assert st[5..][1..] == [];
    assert st[4..][1..] == st[5..];
    assert st[3..][1..] == st[4..];
    assert st[2..][1..] == st[3..];
    assert st[1..][1..] == st[2..];
    assert st[0..] == st;
  }

  /** The full schedule's total is the foreign tax credit plus the education
      credit, the same amount the `education` mode reports as accrued: the
      other four stems are never written. */
  lemma FullTotalIsAccrued(r: Record, education: Option<real>)
    ensures Build(r, education, Full).nonrefundableTotal
         == ForeignCredit(r).GetOr(0.0) + education.GetOr(0.0)
         == Build(r, education, Education).accrued
  {
    var fields := Put(Put(map[], "foreign_tax_credit", ForeignCredit(r)), "education", education);
    CreditStemsUnrolled(fields);
    assert Amount(fields, "education") == education.GetOr(0.0);
    assert Amount(fields, "foreign_tax_credit") == ForeignCredit(r).GetOr(0.0);
    assert Amount(fields, "child_care") == 0.0;
    assert Amount(fields, "retirement") == 0.0;
    assert Amount(fields, "energy") == 0.0;
    assert Amount(fields, "other_credits") == 0.0;
  }

  /** The two early modes agree, and neither sees the education credit. */
  lemma EarlyModesIgnoreEducation(r: Record, e1: Option<real>, e2: Option<real>)
    ensures Build(r, e1, ForeignTaxCredit) == Build(r, e2, ChildCare)
  {
  }

  /** Without 1099-DIVs there is no foreign tax credit, and with 1099-DIVs
      carrying no `foreign_tax` the credit is written as 0. */
  lemma NoForeignTax(r: Record)
    requires r.div1099.Some? ==> forall i :: 0 <= i < |r.div1099.value| ==> r.div1099.value[i].foreignTax.None?
    ensures ForeignCredit(r).GetOr(0.0) == 0.0
  {
    if r.div1099.Some? {
      var divs := r.div1099.value;
      SumPresentAllMissing(seq(|divs|, i requires 0 <= i < |divs| => divs[i].foreignTax));
    }
  }
}
