/** The child tax credit worksheet (`forms/worksheet__child_credit.py`),
    after the worksheet in IRS Publication 972.

    Each dependent with an SSN who answers `y` to "under 17" earns the child
    amount; every other dependent earns the other-dependent amount. The
    credit is reduced by 5% of the income over the threshold, that excess
    first raised to a whole multiple of $1,000, and finally capped at the tax
    due less Schedule 3's nonrefundable credits. Nothing clamps that last
    difference at 0.
 */
module ChildCredit {
  import opened Outcomes
  import opened Strings
  import opened Money
  import opened Constants
  import opened Finance

  /** `qualifies_child`: an SSN and a `y` in the under-17 answer. With an SSN
      the answer is read without a default. */
  function QualifiesChild(d: Dependent): (q: Result<bool>)
    ensures d.ssn.None? ==> q == Ok(false)
    ensures d.ssn.Some? && d.ageUnder17.None? ==> q == Err(MissingKey("age_under_17"))
    ensures d.ssn.Some? && d.ageUnder17.Some? ==> q == Ok(Contains(d.ageUnder17.value, "y"))
  {
    if d.ssn.None? then Ok(false)
    else if d.ageUnder17.None? then Err(MissingKey("age_under_17"))
    else Ok(Contains(d.ageUnder17.value, "y"))
  }

  /** `qualifies_other`: no SSN, or no `y` in the under-17 answer. */
  function QualifiesOther(d: Dependent): (q: Result<bool>)
    ensures d.ssn.None? ==> q == Ok(true)
    ensures d.ssn.Some? && d.ageUnder17.None? ==> q == Err(MissingKey("age_under_17"))
    ensures d.ssn.Some? && d.ageUnder17.Some? ==> q == Ok(!Contains(d.ageUnder17.value, "y"))
  {
    if d.ssn.None? then Ok(true)
    else if d.ageUnder17.None? then Err(MissingKey("age_under_17"))
    else Ok(!Contains(d.ageUnder17.value, "y"))
  }

  /** The two tests fail on the same dependents and otherwise answer opposite ways. */
  lemma OtherIsNotChild(d: Dependent)
    ensures QualifiesOther(d).Ok? <==> QualifiesChild(d).Ok?
    ensures QualifiesOther(d).Ok? ==> QualifiesOther(d).value == !QualifiesChild(d).value
  {
  }

  /** A dependent with the flags the worksheet sets: `child_credit` always,
      `other_credit` only when `child_credit` is false. */
  datatype Marked = Marked(dependent: Dependent, childCredit: bool, otherCredit: Option<bool>)

  /** Flags one dependent. */
  function MarkOne(d: Dependent): (m: Result<Marked>)
    ensures m.Ok? <==> QualifiesChild(d).Ok?
    ensures m.Err? ==> m.error == MissingKey("age_under_17")
    ensures m.Ok? ==> m.value.dependent == d && m.value.childCredit == QualifiesChild(d).value
    ensures m.Ok? ==> (m.value.otherCredit.Some? <==> !m.value.childCredit)
    ensures m.Ok? && m.value.otherCredit.Some? ==> m.value.otherCredit.value == QualifiesOther(d).value
  {
    var child :- QualifiesChild(d);
    if child then Ok(Marked(d, true, None))
    else Ok(Marked(d, false, Some(QualifiesOther(d).value)))
  }

  /** Flags every dependent in order; the first one that cannot be classified
      stops the worksheet. */
  function Mark(ds: seq<Dependent>): (ms: Result<seq<Marked>>)
    ensures ms.Ok? <==> forall i :: 0 <= i < |ds| ==> MarkOne(ds[i]).Ok?
    ensures ms.Err? ==> ms.error == MissingKey("age_under_17")
    ensures ms.Ok? ==> |ms.value| == |ds|
    ensures ms.Ok? ==> forall i :: 0 <= i < |ds| ==> ms.value[i] == MarkOne(ds[i]).value
    decreases |ds|
  {
    if |ds| == 0 then Ok([])
    else
      var m :- MarkOne(ds[0]);
      var rest :- Mark(ds[1..]);
      Ok([m] + rest)
  }

  /** What one flagged dependent adds to lines 1 and 2. */
  function Earned(m: Marked, c: DependentsCredit): real {
    if m.childCredit then c.childAmount
    else if m.otherCredit.Some? && m.otherCredit.value then c.otherAmount
    else 0.0
  }

  /** Line 3 as the loop accumulates it: lines 1 and 2 together. */
  function Line3(ms: seq<Marked>, c: DependentsCredit): real
    decreases |ms|
  {
    if |ms| == 0 then 0.0 else Earned(ms[0], c) + Line3(ms[1..], c)
  }

  /** The number of dependents flagged for the child credit. */
  function Children(ms: seq<Marked>): (n: nat)
    ensures n <= |ms|
    decreases |ms|
  {
    if |ms| == 0 then 0 else (if ms[0].childCredit then 1 else 0) + Children(ms[1..])
  }

  /** The number of dependents flagged for the other-dependent credit. */
  function Others(ms: seq<Marked>): (n: nat)
    ensures n <= |ms|
    decreases |ms|
  {
    if |ms| == 0 then 0
    else (if !ms[0].childCredit && ms[0].otherCredit == Some(true) then 1 else 0) + Others(ms[1..])
  }

  /** What `k` children and `o` other dependents earn together. */
  function Worth(k: nat, o: nat, c: DependentsCredit): real {
    k as real * c.childAmount + o as real * c.otherAmount
  }

  /** One more dependent: adding what it earns to the running line 3 adds
      one to exactly the count it belongs to, or to neither. */
  lemma AddDependent(total: real, rest: real, k: nat, o: nat, nk: nat, no: nat,
                     child: bool, other: bool, c: DependentsCredit)
    requires rest == Worth(k, o, c)
    requires total == (if child then c.childAmount else if other then c.otherAmount else 0.0) + rest
    requires nk == (if child then 1 else 0) + k
    requires no == (if !child && other then 1 else 0) + o
    ensures total == Worth(nk, no, c)
  {
    if child {
      assert nk as real * c.childAmount == k as real * c.childAmount + c.childAmount;
    } else if other {
      assert no as real * c.otherAmount == o as real * c.otherAmount + c.otherAmount;
    }
  }

  /** Line 3 = children × child amount + others × other amount. */
  lemma {:induction false} Line3Counts(ms: seq<Marked>, c: DependentsCredit)
    ensures Line3(ms, c) == Worth(Children(ms), Others(ms), c)
    decreases |ms|
  {
    if |ms| > 0 {
      Line3Counts(ms[1..], c);
      AddDependent(Line3(ms, c), Line3(ms[1..], c), Children(ms[1..]), Others(ms[1..]), Children(ms), Others(ms),
                   ms[0].childCredit, ms[0].otherCredit == Some(true), c);
    }
  }

  /** Every flagged dependent earns exactly one of the two amounts. */
  lemma {:induction false} EveryoneCounted(ds: seq<Dependent>)
    requires Mark(ds).Ok?
    ensures Children(Mark(ds).value) + Others(Mark(ds).value) == |ds|
    decreases |ds|
  {
    if |ds| > 0 {
      var ms := Mark(ds).value;
      assert Mark(ds[1..]).Ok?;
      assert ms[1..] == Mark(ds[1..]).value;
      EveryoneCounted(ds[1..]);
      OtherIsNotChild(ds[0]);
    }
  }

  /** Line 8: the income over the threshold raised to a whole multiple of
      $1,000, when there is any. */
  function Line8(line6: real, line7: real): (x: Option<int>)
    ensures x.Some? <==> line6 > line7
    ensures x.Some? ==> x.value % 1000 == 0
    ensures x.Some? ==> line6 - line7 <= x.value as real < line6 - line7 + 1000.0
  {
    if line6 > line7 then Some(Ceil((line6 - line7) / 1000.0) * 1000) else None
  }

  /** Line 9: `int(line_8 * 0.05)`, or 0 without line 8. */
  function Line9(line8: Option<int>): (x: int)
    ensures line8.None? ==> x == 0
  {
    match line8
    case Some(v) => Trunc(v as real * 0.05)
    case None => 0
  }

  /** Five percent of a multiple of $1,000 is a whole number of dollars, so
      the truncation in line 9 loses nothing: line 9 is $50 per $1,000. */
  lemma Line9IsExact(line6: real, line7: real)
    requires line6 > line7
    ensures Line9(Line8(line6, line7)) * 20 == Line8(line6, line7).value
    ensures Line9(Line8(line6, line7)) > 0
  {
    var v := Line8(line6, line7).value;
    var k := v / 1000;
    assert v == 1000 * k;
    assert v as real * 0.05 == (50 * k) as real;
  }

  /** The filled-in worksheet. `line10` is absent when the credit is 0 for
      lack of room over line 9. */
  datatype Worksheet = Worksheet(
    dependents: seq<Marked>,
    line3: real,
    line8: Option<int>,
    line9: int,
    line10: Option<real>,
    totalCredits: real)

  /** `build_data`: the 1040's dependents, AGI and tax due (line 11), and
      Schedule 3's nonrefundable total are its inputs. */
  function Build(ds: seq<Dependent>, agi: real, taxDue: real, s3Total: real,
                 c: DependentsCredit): (w: Result<Worksheet>)
    ensures w.Ok? <==> Mark(ds).Ok?
    ensures w.Err? ==> w.error == MissingKey("age_under_17")
    ensures w.Ok? ==> w.value.dependents == Mark(ds).value
    ensures w.Ok? ==> w.value.line3 == Line3(Mark(ds).value, c)
    ensures w.Ok? ==> w.value.line8 == Line8(agi, c.incomeThreshold) && w.value.line9 == Line9(w.value.line8)
    ensures w.Ok? ==> (w.value.line10.Some? <==> w.value.line3 > w.value.line9 as real)
    ensures w.Ok? && w.value.line10.None? ==> w.value.totalCredits == 0.0
    ensures w.Ok? && w.value.line10.Some? ==>
      w.value.line10.value == w.value.line3 - w.value.line9 as real
      && w.value.totalCredits <= w.value.line10.value
      && w.value.totalCredits <= taxDue - s3Total
      && (w.value.totalCredits == w.value.line10.value || w.value.totalCredits == taxDue - s3Total)
  {
    var ms :- Mark(ds);
    var line3 := Line3(ms, c);
    var line8 := Line8(agi, c.incomeThreshold);
    var line9 := Line9(line8);
    if line3 > line9 as real then
      var line10 := line3 - line9 as real;
      var line15 := taxDue - s3Total;
      Ok(Worksheet(ms, line3, line8, line9, Some(line10), if line10 <= line15 then line10 else line15))
    else
      Ok(Worksheet(ms, line3, line8, line9, None, 0.0))
  }

  /** With income at or under the threshold nothing is phased out, and with
      enough tax left the whole of line 3 is the credit. */
  lemma FullCreditUnderThreshold(ds: seq<Dependent>, agi: real, taxDue: real, s3Total: real, c: DependentsCredit)
    requires Build(ds, agi, taxDue, s3Total, c).Ok?
    requires agi <= c.incomeThreshold
    requires Build(ds, agi, taxDue, s3Total, c).value.line3 > 0.0
    requires taxDue - s3Total >= Build(ds, agi, taxDue, s3Total, c).value.line3
    ensures Build(ds, agi, taxDue, s3Total, c).value.totalCredits == Build(ds, agi, taxDue, s3Total, c).value.line3
  {
  }

  /** The credit is not clamped at 0: when Schedule 3's credits exceed the
      tax due, the worksheet reports a negative credit. */
  lemma NegativeCreditExample()
    ensures var d := Dependent("Kid", "son", Some("000-00-0000"), Some("y"));
      var w := Build([d], 50000.0, 100.0, 300.0, DependentsCredit(2000.0, 500.0, 200000.0));
      w.Ok? && w.value.totalCredits == -200.0
  {
    var d := Dependent("Kid", "son", Some("000-00-0000"), Some("y"));
    assert Contains("y", "y") by {
      assert StartsWith("y", "y");
    }
    assert Mark([d]).value == [Marked(d, true, None)];
  }
}
