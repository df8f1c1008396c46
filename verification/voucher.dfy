/** The payment voucher, Form 1040-V (`forms/s_1040v.py`).

    The voucher copies the filer's identity and address from the record and
    carries a pay line only when the complete Form 1040 ends in an amount
    owed above 0. Unlike the 1040, it keeps the SSN's dashes and takes the
    apartment from the record's `apartment` key rather than `address_apt`.
 */
module Voucher {
  import opened Outcomes
  import opened Finance
  import Form1040

  /** The filled-in voucher. */
  datatype Voucher = Voucher(
    ssn: string,
    firstAndInitial: string,
    last: string,
    address: string,
    cityStateZip: string,
    apartment: Option<string>,
    pay: Option<real>)

  /** The voucher for a return that settled as given. */
  function Fill(r: Record, settlement: Form1040.Settlement): (v: Voucher)
    ensures v.ssn == r.filer.ssn && v.last == r.filer.last && v.address == r.address
    ensures v.firstAndInitial == r.filer.first + " " + r.filer.middleInitial
    ensures v.cityStateZip == r.city + ", " + r.state + " " + r.zip
    ensures v.apartment == r.apartment
    ensures v.pay.Some? <==> settlement.Owed? && settlement.owed > 0.0
    ensures v.pay.Some? ==> v.pay.value == settlement.owed
  {
    Voucher(r.filer.ssn, Form1040.FirstAndInitial(r.filer), r.filer.last, r.address,
            Form1040.CityStateZip(r), r.apartment,
            if settlement.Owed? && settlement.owed > 0.0 then Some(settlement.owed) else None)
  }

  /** `build_data`: the voucher needs the complete Form 1040, and fails when it does. */
  function Build(r: Record, p: Form1040.Parameters, s: Form1040.Supporting): (v: Result<Voucher>)
    ensures v.Ok? <==> Form1040.Build(r, Form1040.Full, p, s).Ok?
    ensures v.Ok? ==> v.value == Fill(r, Form1040.Build(r, Form1040.Full, p, s).value.payments.settlement)
  {
    var f :- Form1040.Build(r, Form1040.Full, p, s);
    Ok(Fill(r, f.payments.settlement))
  }

  /** The pay line is present exactly when the total tax exceeds the payments,
      and then it is the difference; a refund or an even return has none. */
  lemma PayOnlyWhenOwed(r: Record, p: Form1040.Parameters, s: Form1040.Supporting)
    requires Build(r, p, s).Ok?
    ensures var x := Form1040.Build(r, Form1040.Full, p, s).value.payments;
      var v := Build(r, p, s).value;
      && (v.pay.Some? <==> x.totalTax > x.totalPayments)
      && (v.pay.Some? ==> v.pay.value == x.totalTax - x.totalPayments)
  {
  }

  /** The voucher's apartment line does not depend on the 1040's `address_apt`. */
  lemma ApartmentIgnoresAddressApt(r: Record, apt: Option<string>, settlement: Form1040.Settlement)
    ensures Fill(r.(addressApt := apt), settlement) == Fill(r, settlement)
  {
  }

  /** The voucher keeps the SSN as written, while the 1040 replaces its dashes:
      with a dash in the SSN the two differ. */
  lemma SsnKeepsDashes(r: Record, settlement: Form1040.Settlement)
    requires '-' in r.filer.ssn
    ensures Fill(r, settlement).ssn != Form1040.SsnBoxes(r.filer.ssn)
  {
  }
}
