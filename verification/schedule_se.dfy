/** Schedule SE (`forms/se_1040.py`): self-employment tax and its deduction.

    The short schedule applies while self-employment income plus social
    security wages stays at or under the long-schedule threshold; above it
    the long schedule applies, which exempts net earnings under a minimum
    and caps the social security part at the threshold less the wages. On
    both paths the deduction is half the tax.

    The source's long schedule multiplies line 10 by the combined
    social-security-plus-Medicare rate and then adds Medicare again on
    line 11. That member is kept as `BuildLongAsWritten`; `BuildLong` uses
    the social security rate on line 10, as the printed form does, and is
    the one `Build` dispatches to.
 */
module ScheduleSE {
  import opened Money
  import opened Finance
  import opened Constants

  /** The filled-in schedule, by path. */
  datatype ScheduleSE =
    | Short(netProfit: real, line4: real, tax: real, deduction: real)
    | LongExempt(netProfit: real, line4: real)
    | Long(netProfit: real, line4: real, ssWages: real, line9: real, line10: real,
           line11: real, tax: real, deduction: real)
  {
    /** `_se_tax`. */
    function SeTax(): real {
      match this
      case LongExempt(_, _) => 0.0
      case Short(_, _, t, _) => t
      case Long(_, _, _, _, _, _, t, _) => t
    }

    /** `_se_deduction`. */
    function SeDeduction(): real {
      match this
      case LongExempt(_, _) => 0.0
      case Short(_, _, _, d) => d
      case Long(_, _, _, _, _, _, _, d) => d
    }
  }

  /** Social security wages over all W-2s. */
  function SsWages(r: Record): real {
    Sum(seq(|r.w2|, i requires 0 <= i < |r.w2| => r.w2[i].ssWages))
  }

  /** The long schedule applies when income plus wages exceed the threshold. */
  predicate TakesLongPath(se: real, ssWages: real, c: SeTaxes) {
    se + ssWages > c.longScheduleThreshold
  }

  /** The short schedule. */
  function BuildShort(se: real, c: SeTaxes): (s: ScheduleSE)
    ensures s.Short? && s.netProfit == se
    ensures s.line4 == se * (1.0 - c.CombinedRate() / 2.0)
    ensures s.tax == s.line4 * c.CombinedRate()
    ensures 2.0 * s.deduction == s.tax
  {
    var line4 := se * (1.0 - c.CombinedRate() * 0.5);
    var line5 := line4 * c.CombinedRate();
    Short(se, line4, line5, line5 * 0.5)
  }

  /** Long schedule line 4: only a positive profit is reduced by half the rate. */
  function LongLine4(line3: real, c: SeTaxes): (line4: real)
    ensures line3 <= 0.0 ==> line4 == line3
    ensures line3 > 0.0 ==> line4 == line3 * (1.0 - c.CombinedRate() / 2.0)
  {
    if line3 > 0.0 then line3 * (1.0 - c.CombinedRate() / 2.0) else line3
  }

  /** With a combined rate between 0 and 200%, long line 4 never exceeds
      line 3, stays non-negative for a profit, and for a profit equals the
      short schedule's line 4. */
  lemma LongLine4Bounds(line3: real, c: SeTaxes)
    requires 0.0 <= c.CombinedRate() <= 2.0
    ensures LongLine4(line3, c) <= line3
    ensures line3 > 0.0 ==> 0.0 <= LongLine4(line3, c)
    ensures line3 > 0.0 ==> LongLine4(line3, c) == BuildShort(line3, c).line4
  {
    if line3 > 0.0 {
      var f := 1.0 - c.CombinedRate() / 2.0;
      assert 0.0 <= f <= 1.0;
      assert line3 * f <= line3 * 1.0;
      assert 0.0 <= line3 * f;
    }
  }

  /** Long schedule line 9: what is left of the threshold after the wages. */
  function Line9(ssWages: real, c: SeTaxes): (line9: real)
    ensures line9 >= 0.0
    ensures line9 >= c.longScheduleThreshold - ssWages
    ensures line9 == 0.0 || line9 == c.longScheduleThreshold - ssWages
  {
    if c.longScheduleThreshold - ssWages > 0.0 then c.longScheduleThreshold - ssWages else 0.0
  }

  /** The smaller of two amounts. */
  function Min(a: real, b: real): (m: real)
    ensures m <= a && m <= b && (m == a || m == b)
  {
    if a <= b then a else b
  }

  /** The long schedule as the source computes it: line 10 at the combined rate. */
  function BuildLongAsWritten(se: real, ssWages: real, c: SeTaxes): (s: ScheduleSE)
    ensures LongLine4(se, c) < c.untaxedThreshold <==> s.LongExempt?
    ensures s.LongExempt? ==> s.SeTax() == 0.0 && s.SeDeduction() == 0.0
    ensures s.Long? ==> s.line4 == LongLine4(se, c) && s.ssWages == ssWages
    ensures s.Long? ==> s.line9 == Line9(ssWages, c)
    ensures s.Long? ==> s.line10 == Min(s.line4, s.line9) * c.CombinedRate()
    ensures s.Long? ==> s.line11 == s.line4 * c.medicareRate
    ensures s.Long? ==> s.tax == s.line10 + s.line11 && 2.0 * s.deduction == s.tax
  {
    var line4 := LongLine4(se, c);
    if line4 < c.untaxedThreshold then LongExempt(se, line4)
    else
      var line9 := Line9(ssWages, c);
      var line10 := Min(line4, line9) * c.CombinedRate();
      var line11 := line4 * c.medicareRate;
      Long(se, line4, ssWages, line9, line10, line11, line10 + line11, (line10 + line11) * 0.5)
  }

  /** The long schedule with line 10 at the social security rate. */
  function BuildLong(se: real, ssWages: real, c: SeTaxes): (s: ScheduleSE)
    ensures LongLine4(se, c) < c.untaxedThreshold <==> s.LongExempt?
    ensures s.LongExempt? ==> s.SeTax() == 0.0 && s.SeDeduction() == 0.0
    ensures s.Long? ==> s.line4 == LongLine4(se, c) && s.ssWages == ssWages
    ensures s.Long? ==> s.line9 == Line9(ssWages, c)
    ensures s.Long? ==> s.line10 == Min(s.line4, s.line9) * c.socialSecurityRate
    ensures s.Long? ==> s.line11 == s.line4 * c.medicareRate
    ensures s.Long? ==> s.tax == s.line10 + s.line11 && 2.0 * s.deduction == s.tax
  {
    var line4 := LongLine4(se, c);
    if line4 < c.untaxedThreshold then LongExempt(se, line4)
    else
      var line9 := Line9(ssWages, c);
      var line10 := Min(line4, line9) * c.socialSecurityRate;
      var line11 := line4 * c.medicareRate;
      Long(se, line4, ssWages, line9, line10, line11, line10 + line11, (line10 + line11) * 0.5)
  }

  /** `build_data`: the short schedule at or under the threshold, the long one
      above it; either way the deduction is half the tax. */
  function Build(se: real, ssWages: real, c: SeTaxes): (s: ScheduleSE)
    ensures TakesLongPath(se, ssWages, c) <==> !s.Short?
    ensures TakesLongPath(se, ssWages, c) ==> s == BuildLong(se, ssWages, c)
    ensures !TakesLongPath(se, ssWages, c) ==> s == BuildShort(se, c)
    ensures 2.0 * s.SeDeduction() == s.SeTax()
  {
    if TakesLongPath(se, ssWages, c) then BuildLong(se, ssWages, c) else BuildShort(se, c)
  }

  /** Right at the threshold the short schedule is used; one dollar above it, the long one. */
  lemma ThresholdBoundary(c: SeTaxes)
    ensures Build(c.longScheduleThreshold - 1.0, 0.0, c).Short?
    ensures Build(c.longScheduleThreshold, 0.0, c).Short?
    ensures !Build(c.longScheduleThreshold + 1.0, 0.0, c).Short?
  {
  }

  /** Where both schedules apply (positive earnings above the minimum that,
      with the wages, stay within the threshold), the long schedule with the
      social security rate on line 10 charges exactly what the short one does. */
  lemma LongAgreesWithShort(se: real, ssWages: real, c: SeTaxes)
    requires se > 0.0 && ssWages >= 0.0
    requires LongLine4(se, c) >= c.untaxedThreshold
    requires LongLine4(se, c) + ssWages <= c.longScheduleThreshold
    ensures BuildLong(se, ssWages, c).SeTax() == BuildShort(se, c).SeTax()
  {
    var line4 := LongLine4(se, c);
    assert Min(line4, Line9(ssWages, c)) == line4;
  }

  /** The source's long schedule charges Medicare twice: where both schedules
      apply it exceeds the short schedule by the Medicare rate on line 4. */
  lemma LongAsWrittenChargesMedicareTwice(se: real, ssWages: real, c: SeTaxes)
    requires se > 0.0 && ssWages >= 0.0
    requires LongLine4(se, c) >= c.untaxedThreshold
    requires LongLine4(se, c) + ssWages <= c.longScheduleThreshold
    ensures BuildLongAsWritten(se, ssWages, c).SeTax()
         == BuildShort(se, c).SeTax() + c.medicareRate * LongLine4(se, c)
  {
    var line4 := LongLine4(se, c);
    assert Min(line4, Line9(ssWages, c)) == line4;
  }

  /** A concrete return showing the overcharge: 2018 rates, $120,000 of wages
      and $10,000 of self-employment profit take the long schedule, where the
      source charges $1,553.015 against $1,309.415 with line 10 at 12.4%. */
  lemma LongAsWrittenCounterexample()
    ensures var c := SeTaxes(128400.0, 0.029, 0.124, 400.0);
      && TakesLongPath(10000.0, 120000.0, c)
      && BuildLongAsWritten(10000.0, 120000.0, c).SeTax() == 1553.015
      && BuildLong(10000.0, 120000.0, c).SeTax() == 1309.415
  {
  }
}
