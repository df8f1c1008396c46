/** The command-line driver (`do_taxes.py`): argument normalisation and the
    ordered list of forms that make up the return.

    The forms are rendered and merged outside this model; here a form is an
    identifier, and the driver's result is the sequence it hands to the
    merger: Form 1040 first, the seven forms every return carries, then the
    self-employment, IRA and education forms that apply, and the payment
    voucher last when an amount is owed.
 */
module Driver {
  import opened Outcomes
  import opened Strings
  import opened Finance
  import Form1040

  // ---------------------------------------------------------------- arguments

  /** The parsed command line: `--year`, `--data`, and the optional `--out`. */
  datatype Args = Args(year: string, data: string, out: Option<string>)

  /** The arguments after `standardize_args`. */
  datatype Options = Options(year: string, data: string, out: string, dataBasename: string)

  /** The data file's base name: its last `/` segment without `.json`. */
  function Basename(data: string): string {
    ReplaceAll(LastSegment(data, '/'), ".json", "")
  }

  /** `s + ".json"` ends with `.json`. */
  lemma AppendedEndsWith(s: string)
    ensures EndsWith(s + ".json", ".json")
  {
    assert (s + ".json")[|s|..] == ".json";
  }

  /** `standardize_args`: the base name is taken before `.json` is appended;
      `.json` is appended unless already there; a missing output directory
      defaults by whether the data path mentions `sample`. */
  function Standardize(a: Args): (o: Options)
    ensures o.year == a.year
    ensures o.dataBasename == Basename(a.data)
    ensures EndsWith(o.data, ".json")
    ensures EndsWith(a.data, ".json") ==> o.data == a.data
    ensures !EndsWith(a.data, ".json") ==> o.data == a.data + ".json"
    ensures a.out.Some? ==> o.out == a.out.value
    ensures a.out.None? && Contains(o.data, "sample") ==>
      o.out == "_sample_filled/" + Basename(a.data) + "/" + a.year
    ensures a.out.None? && !Contains(o.data, "sample") ==> o.out == "filled/" + a.year
  {
    var basename := Basename(a.data);
    var data := if EndsWith(a.data, ".json") then a.data else a.data + ".json";
    AppendedEndsWith(a.data);
    var out :=
      match a.out
      case Some(o) => o
      case None => if Contains(data, "sample") then "_sample_filled/" + basename + "/" + a.year else "filled/" + a.year;
    Options(a.year, data, out, basename)
  }

  /** Normalising options already normalised changes nothing: the data path
      keeps its single `.json`, and the output directory, now given, stays. */
  lemma StandardizeIdempotent(a: Args)
    ensures var o := Standardize(a);
      var o2 := Standardize(Args(o.year, o.data, Some(o.out)));
      o2.data == o.data && o2.out == o.out && o2.year == o.year
  {
  }

  /** The base name holds no `/`: the `.json` removal cannot introduce one. */
  lemma {:induction false} ReplaceKeepsAbsent(s: string, pat: string, c: char)
    requires |pat| > 0 && c !in s
    ensures c !in ReplaceAll(s, pat, "")
    decreases |s|
  {
    if |s| >= |pat| {
      if s[..|pat|] == pat {
        ReplaceKeepsAbsent(s[|pat|..], pat, c);
        assert ReplaceAll(s, pat, "") == ReplaceAll(s[|pat|..], pat, "");
      } else {
        ReplaceKeepsAbsent(s[1..], pat, c);
        assert ReplaceAll(s, pat, "") == [s[0]] + ReplaceAll(s[1..], pat, "");
      }
    }
  }

  /** The base name is a single path segment. */
  lemma BasenameHasNoSlash(data: string)
    ensures '/' !in Basename(data)
  {
    ReplaceKeepsAbsent(LastSegment(data, '/'), ".json", '/');
  }

  // ---------------------------------------------------------------- forms

  /** The documents of the return. */
  datatype Form =
    | F1040
    | Schedule1 | Schedule3 | Schedule4 | Schedule5 | CapitalGainsWorksheet | ScheduleA | ScheduleB
    | ScheduleCEZ | ScheduleSE
    | F8606 | SepIraWorksheet
    | F8863PartI | F8863PartIII(student: Student)
    | Voucher

  /** The forms every return attaches after Form 1040, in this order. */
  const FixedForms: seq<Form> :=
    [Schedule1, Schedule3, Schedule4, Schedule5, CapitalGainsWorksheet, ScheduleA, ScheduleB]

  /** The group a form belongs to, in attachment order. */
  function Rank(f: Form): nat {
    match f
    case F1040 => 0
    case Schedule1 => 1
    case Schedule3 => 2
    case Schedule4 => 3
    case Schedule5 => 4
    case CapitalGainsWorksheet => 5
    case ScheduleA => 6
    case ScheduleB => 7
    case ScheduleCEZ => 8
    case ScheduleSE => 9
    case F8606 => 10
    case SepIraWorksheet => 11
    case F8863PartI => 12
    case F8863PartIII(_) => 13
    case Voucher => 14
  }

  /** The forms appear group by group, never out of order. */
  predicate InOrder(fs: seq<Form>) {
    forall i, j :: 0 <= i < j < |fs| ==> Rank(fs[i]) <= Rank(fs[j])
  }

  /** The self-employment forms. */
  function SelfEmploymentForms(p: Predicates): seq<Form> {
    if p.selfEmployment then [ScheduleCEZ, ScheduleSE] else []
  }

  /** Form 8606, then the SEP-IRA worksheet when the filer is also self-employed. */
  function IraForms(p: Predicates): seq<Form> {
    if p.deductibleIra then [F8606] + (if p.selfEmployment then [SepIraWorksheet] else []) else []
  }

  /** Form 8863 Part I, then one Part III per student in input order. */
  function EducationForms(students: seq<Student>): (fs: seq<Form>)
    ensures |fs| == |students| + 1 && fs[0] == F8863PartI
    ensures forall k :: 1 <= k <= |students| ==> fs[k] == F8863PartIII(students[k - 1])
  {
    [F8863PartI] + seq(|students|, k requires 0 <= k < |students| => F8863PartIII(students[k]))
  }

  /** The voucher, when the return owes more than 0. */
  function VoucherForms(settlement: Form1040.Settlement): seq<Form> {
    if settlement.Owed? && settlement.owed > 0.0 then [Voucher] else []
  }

  /** The education forms, reading the student list without a guard when the
      record has education. */
  function EducationPart(r: Record, p: Predicates): (fs: Result<seq<Form>>)
    ensures !p.education ==> fs == Ok([])
    ensures p.education ==> (fs.Ok? <==> r.education.Some?)
    ensures p.education && r.education.None? ==> fs == Err(MissingKey("postsecondary_education"))
    ensures p.education && fs.Ok? ==> fs.value == EducationForms(r.education.value)
  {
    if !p.education then Ok([])
    else if r.education.Some? then Ok(EducationForms(r.education.value))
    else Err(MissingKey("postsecondary_education"))
  }

  /** `fill_forms` without the I/O: the documents in merge order, given how
      the return settled. */
  function FormsToAttach(r: Record, p: Predicates, settlement: Form1040.Settlement): (fs: Result<seq<Form>>)
    ensures fs.Ok? <==> EducationPart(r, p).Ok?
    ensures fs.Ok? ==>
      fs.value == [F1040] + FixedForms + SelfEmploymentForms(p) + IraForms(p)
                  + EducationPart(r, p).value + VoucherForms(settlement)
  {
    var education :- EducationPart(r, p);
    Ok([F1040] + FixedForms + SelfEmploymentForms(p) + IraForms(p) + education + VoucherForms(settlement))
  }

  /** Every form of `fs` lies in the groups `lo` to `hi`. */
  predicate Between(fs: seq<Form>, lo: nat, hi: nat) {
    forall i :: 0 <= i < |fs| ==> lo <= Rank(fs[i]) <= hi
  }

  /** Two ordered runs, the second in groups no earlier than the first's,
      make one ordered run. */
  lemma Chain(a: seq<Form>, b: seq<Form>, lo: nat, m: nat, n: nat, hi: nat)
    requires InOrder(a) && InOrder(b) && lo <= m <= n <= hi
    requires Between(a, lo, m) && Between(b, n, hi)
    ensures InOrder(a + b) && Between(a + b, lo, hi)
  {
    forall i, j | 0 <= i < j < |a + b|
      ensures Rank((a + b)[i]) <= Rank((a + b)[j])
    {
      if j < |a| {
        assert (a + b)[i] == a[i] && (a + b)[j] == a[j];
      } else if i >= |a| {
        assert (a + b)[i] == b[i - |a|] && (a + b)[j] == b[j - |a|];
      } else {
        assert (a + b)[i] == a[i] && (a + b)[j] == b[j - |a|];
      }
    }
    forall i | 0 <= i < |a + b|
      ensures lo <= Rank((a + b)[i]) <= hi
    {
      if i < |a| {
        assert (a + b)[i] == a[i];
      } else {
        assert (a + b)[i] == b[i - |a|];
      }
    }
  }

  /** Form 1040 and the fixed forms occupy groups 0 to 7, one form each. */
  lemma HeadSegment()
    ensures InOrder([F1040] + FixedForms) && Between([F1040] + FixedForms, 0, 7)
  {
    var head := [F1040] + FixedForms;
    forall i | 0 <= i < |head|
      ensures Rank(head[i]) == i
    {
    }
  }

  /** The self-employment forms occupy groups 8 and 9. */
  lemma SelfEmploymentSegment(p: Predicates)
    ensures InOrder(SelfEmploymentForms(p)) && Between(SelfEmploymentForms(p), 8, 9)
  {
  }

  /** The IRA forms occupy groups 10 and 11. */
  lemma IraSegment(p: Predicates)
    ensures InOrder(IraForms(p)) && Between(IraForms(p), 10, 11)
  {
  }

  /** The education forms occupy groups 12 and 13, Part I first. */
  lemma EducationSegment(r: Record, p: Predicates)
    requires EducationPart(r, p).Ok?
    ensures InOrder(EducationPart(r, p).value) && Between(EducationPart(r, p).value, 12, 13)
  {
    var education := EducationPart(r, p).value;
    forall i, j | 0 <= i < j < |education|
      ensures Rank(education[i]) <= Rank(education[j])
    {
      if i > 0 {
        assert education[i].F8863PartIII? && education[j].F8863PartIII?;
      }
    }
  }

  /** The attachment list is in group order: Form 1040, the fixed forms,
      self-employment, IRA, education, voucher. */
  lemma AttachedInOrder(r: Record, p: Predicates, settlement: Form1040.Settlement)
    requires FormsToAttach(r, p, settlement).Ok?
    ensures InOrder(FormsToAttach(r, p, settlement).value)
  {
    var head := [F1040] + FixedForms;
    var se := SelfEmploymentForms(p);
    var ira := IraForms(p);
    var education := EducationPart(r, p).value;
    var voucher := VoucherForms(settlement);
    HeadSegment();
    SelfEmploymentSegment(p);
    IraSegment(p);
    EducationSegment(r, p);
    assert InOrder(voucher) && Between(voucher, 14, 14);
    Chain(head, se, 0, 7, 8, 9);
    Chain(head + se, ira, 0, 9, 10, 11);
    Chain(head + se + ira, education, 0, 11, 12, 13);
    Chain(head + se + ira + education, voucher, 0, 13, 14, 14);
  }

  /** A form appears in a list only if the list has a form of its group. */
  lemma AbsentOutsideGroups(fs: seq<Form>, lo: nat, hi: nat, f: Form)
    requires Between(fs, lo, hi) && (Rank(f) < lo || hi < Rank(f))
    ensures f !in fs
  {
  }

  /** Form 1040 comes first and the fixed forms next, in their order. */
  lemma FixedFormsFirst(r: Record, p: Predicates, settlement: Form1040.Settlement)
    requires FormsToAttach(r, p, settlement).Ok?
    ensures var fs := FormsToAttach(r, p, settlement).value;
      |fs| >= 8 && fs[..8] == [F1040] + FixedForms
  {
    var fs := FormsToAttach(r, p, settlement).value;
    var head := [F1040] + FixedForms;
    var rest := SelfEmploymentForms(p) + IraForms(p) + EducationPart(r, p).value + VoucherForms(settlement);
    assert fs == head + rest;
    assert |head| == 8;
    assert (head + rest)[..|head|] == head;
  }

  /** Schedules C-EZ and SE are attached exactly for self-employment, Form
      8606 exactly for a deductible IRA, and the SEP-IRA worksheet exactly
      when both hold. */
  lemma OptionalFormsExactlyWhen(r: Record, p: Predicates, settlement: Form1040.Settlement)
    requires FormsToAttach(r, p, settlement).Ok?
    ensures var fs := FormsToAttach(r, p, settlement).value;
      && (ScheduleCEZ in fs <==> p.selfEmployment)
      && (ScheduleSE in fs <==> p.selfEmployment)
      && (F8606 in fs <==> p.deductibleIra)
      && (SepIraWorksheet in fs <==> p.deductibleIra && p.selfEmployment)
  {
    var education := EducationPart(r, p).value;
    var voucher := VoucherForms(settlement);
    EducationSegment(r, p);
    HeadSegment();
    AbsentOutsideGroups(education, 12, 13, ScheduleCEZ);
    AbsentOutsideGroups(education, 12, 13, ScheduleSE);
    AbsentOutsideGroups(education, 12, 13, F8606);
    AbsentOutsideGroups(education, 12, 13, SepIraWorksheet);
    AbsentOutsideGroups([F1040] + FixedForms, 0, 7, ScheduleSE);
    AbsentOutsideGroups([F1040] + FixedForms, 0, 7, F8606);
    AbsentOutsideGroups([F1040] + FixedForms, 0, 7, SepIraWorksheet);
  }

  /** Part I of Form 8863 is attached exactly with education, and the voucher
      exactly when an amount above 0 is owed, as the last form. */
  lemma EducationAndVoucherExactlyWhen(r: Record, p: Predicates, settlement: Form1040.Settlement)
    requires FormsToAttach(r, p, settlement).Ok?
    ensures var fs := FormsToAttach(r, p, settlement).value;
      && (F8863PartI in fs <==> p.education)
      && (Voucher in fs <==> settlement.Owed? && settlement.owed > 0.0)
      && (Voucher in fs ==> fs[|fs| - 1] == Voucher)
  {
    var fs := FormsToAttach(r, p, settlement).value;
    var front := [F1040] + FixedForms + SelfEmploymentForms(p) + IraForms(p);
    var education := EducationPart(r, p).value;
    HeadSegment();
    SelfEmploymentSegment(p);
    IraSegment(p);
    Chain([F1040] + FixedForms, SelfEmploymentForms(p), 0, 7, 8, 9);
    Chain([F1040] + FixedForms + SelfEmploymentForms(p), IraForms(p), 0, 9, 10, 11);
    EducationSegment(r, p);
    AbsentOutsideGroups(front, 0, 11, F8863PartI);
    AbsentOutsideGroups(front, 0, 11, Voucher);
    AbsentOutsideGroups(education, 12, 13, Voucher);
    assert fs == front + education + VoucherForms(settlement);
    if p.education {
      assert education[0] == F8863PartI;
    }
  }

  /** Indexing past a prefix lands in the middle part. */
  lemma IndexPastPrefix(prefix: seq<Form>, middle: seq<Form>, tail: seq<Form>, k: nat)
    requires k < |middle|
    ensures (prefix + middle + tail)[|prefix| + k] == middle[k]
  {
  }

  /** A student's Part III keeps its place wherever the education forms are put. */
  lemma StudentAt(fs: seq<Form>, prefix: seq<Form>, students: seq<Student>, tail: seq<Form>, j: nat)
    requires fs == prefix + EducationForms(students) + tail
    requires |prefix| < j <= |prefix| + |students|
    ensures j < |fs| && fs[j] == F8863PartIII(students[j - |prefix| - 1])
  {
    IndexPastPrefix(prefix, EducationForms(students), tail, j - |prefix|);
  }

  /** Every student gets a Part III, in input order, right after Part I:
      position `at + 1 + k` holds the Part III of student `k`. */
  lemma StudentsInInputOrder(r: Record, p: Predicates, settlement: Form1040.Settlement)
    requires FormsToAttach(r, p, settlement).Ok? && p.education
    ensures var fs := FormsToAttach(r, p, settlement).value;
      var at := 8 + |SelfEmploymentForms(p)| + |IraForms(p)|;
      && at + |r.education.value| < |fs|
      && fs[at] == F8863PartI
      && forall j :: at < j <= at + |r.education.value| ==> fs[j] == F8863PartIII(r.education.value[j - at - 1])
  {
    var prefix := [F1040] + FixedForms + SelfEmploymentForms(p) + IraForms(p);
    var fs := FormsToAttach(r, p, settlement).value;
    var students := r.education.value;
    var tail := VoucherForms(settlement);
    assert fs == prefix + EducationForms(students) + tail;
    IndexPastPrefix(prefix, EducationForms(students), tail, 0);
    forall j | |prefix| < j <= |prefix| + |students|
      ensures fs[j] == F8863PartIII(students[j - |prefix| - 1])
    {
      StudentAt(fs, prefix, students, tail, j);
    }
  }

  /** The driver's whole list: the complete Form 1040 comes first, and its
      settlement decides the voucher. */
  function Attachments(r: Record, p: Form1040.Parameters, s: Form1040.Supporting): (fs: Result<seq<Form>>)
    ensures fs.Ok? <==> Form1040.Build(r, Form1040.Full, p, s).Ok? && EducationPart(r, p.predicates).Ok?
    ensures fs.Ok? ==>
      fs.value == FormsToAttach(r, p.predicates, Form1040.Build(r, Form1040.Full, p, s).value.payments.settlement).value
  {
    var f :- Form1040.Build(r, Form1040.Full, p, s);
    FormsToAttach(r, p.predicates, f.payments.settlement)
  }
}
