/** Schedule C-EZ (`forms/cez_1040.py`): the expense worksheet and the net
    profit of a sole proprietor.

    The worksheet has five expense slots, `wk_b` to `wk_f`. The listed
    business expenses fill them in order, followed by a computed vehicle
    line when the record has a vehicle; a sixth expense does not fit and
    aborts the build (the source indexes past the end of its slot list).
 */
module ScheduleCEZ {
  import opened Outcomes
  import opened Strings
  import opened Money
  import opened Finance

  /** The worksheet's expense slots, in order. */
  const ExpensePrefixes: seq<string> := ["wk_b", "wk_c", "wk_d", "wk_e", "wk_f"]

  /** One filled slot: its prefix, description and amount. */
  datatype ExpenseLine = ExpenseLine(prefix: string, description: string, amount: real)

  /** The worksheet returned by `calculate_expenses`. */
  datatype Worksheet = Worksheet(meals: Option<real>, lines: seq<ExpenseLine>, total: real)

  /** The filled-in schedule. */
  datatype ScheduleCEZ = ScheduleCEZ(receipts: real, worksheet: Worksheet, netProfit: real)

  /** The line appended for business use of a vehicle. */
  function VehicleLine(v: Vehicle): (e: Expense)
    ensures e.amount == v.mileage * v.mileageRate
  {
    Expense("Vehicle Mileage (" + IntToString(Trunc(v.mileage)) + " miles @ $0.545 per mile)",
            v.mileage * v.mileageRate)
  }

  /** The expenses to place: a copy of `business_exp` (none when absent), then
      the vehicle line when there is a vehicle. */
  function AllExpenses(r: Record): (es: seq<Expense>)
    ensures |es| == |r.businessExp.GetOr([])| + (if r.vehicle.Some? then 1 else 0)
    ensures es[..|r.businessExp.GetOr([])|] == r.businessExp.GetOr([])
    ensures r.vehicle.Some? ==> es[|es| - 1] == VehicleLine(r.vehicle.value)
  {
    r.businessExp.GetOr([]) + (match r.vehicle case Some(v) => [VehicleLine(v)] case None => [])
  }

  /** The amounts of a list of expenses, in order. */
  function ExpenseAmounts(es: seq<Expense>): (xs: seq<real>)
    ensures |xs| == |es|
    ensures forall i :: 0 <= i < |es| ==> xs[i] == es[i].amount
  {
    seq(|es|, i requires 0 <= i < |es| => es[i].amount)
  }

  /** Places `es` into the slots from slot `i` on, failing when an expense
      falls past the last slot. */
  function FillSlots(es: seq<Expense>, i: nat): (r: Result<seq<ExpenseLine>>)
    ensures r.Err? <==> i + |es| > |ExpensePrefixes| && |es| > 0
    ensures r.Err? ==> r.error == TooManyExpenses
    ensures r.Ok? ==> |r.value| == |es|
    ensures r.Ok? ==> forall j :: 0 <= j < |es| ==>
      r.value[j] == ExpenseLine(ExpensePrefixes[i + j], es[j].description, es[j].amount)
    decreases |es|
  {
    if |es| == 0 then Ok([])
    else if i >= |ExpensePrefixes| then Err(TooManyExpenses)
    else
      var rest :- FillSlots(es[1..], i + 1);
      Ok([ExpenseLine(ExpensePrefixes[i], es[0].description, es[0].amount)] + rest)
  }

  /** `calculate_expenses`: every expense in its own slot, in order, and the
      total of all expenses plus meals; more expenses than slots is an error. */
  function CalculateExpenses(r: Record): (w: Result<Worksheet>)
    ensures w.Err? <==> |AllExpenses(r)| > |ExpensePrefixes|
    ensures w.Err? ==> w.error == TooManyExpenses
    ensures w.Ok? ==> w.value.meals == r.meals
    ensures w.Ok? ==> |w.value.lines| == |AllExpenses(r)|
    ensures w.Ok? ==> forall j :: 0 <= j < |w.value.lines| ==>
      w.value.lines[j] == ExpenseLine(ExpensePrefixes[j], AllExpenses(r)[j].description, AllExpenses(r)[j].amount)
    ensures w.Ok? ==> w.value.total == Sum(ExpenseAmounts(AllExpenses(r))) + r.meals.GetOr(0.0)
  {
    var es := AllExpenses(r);
    var lines :- FillSlots(es, 0);
    Ok(Worksheet(r.meals, lines, Sum(ExpenseAmounts(es)) + r.meals.GetOr(0.0)))
  }

  /** Gross receipts: the sum of the 1099-MISC `other_income` amounts cut to
      whole dollars toward zero, or 0 without 1099-MISC forms. */
  function Receipts(r: Record): (x: real)
    ensures x.Floor as real == x
    ensures r.misc1099.None? ==> x == 0.0
    ensures r.misc1099.Some? && Sum(r.misc1099.value) >= 0.0 ==>
      0.0 <= x <= Sum(r.misc1099.value) < x + 1.0
    ensures r.misc1099.Some? && Sum(r.misc1099.value) < 0.0 ==>
      x - 1.0 < Sum(r.misc1099.value) <= x <= 0.0
  {
    match r.misc1099
    case Some(incomes) => Trunc(Sum(incomes)) as real
    case None => 0.0
  }

  /** `build_data`: receipts less the worksheet total, with the whole
      worksheet carried along. */
  function Build(r: Record): (c: Result<ScheduleCEZ>)
    ensures c.Ok? <==> CalculateExpenses(r).Ok?
    ensures c.Err? ==> c.error == TooManyExpenses
    ensures c.Ok? ==> c.value.worksheet == CalculateExpenses(r).value
    ensures c.Ok? ==> c.value.receipts == Receipts(r)
    ensures c.Ok? ==> c.value.netProfit == Receipts(r) - Sum(ExpenseAmounts(AllExpenses(r))) - r.meals.GetOr(0.0)
  {
    var w :- CalculateExpenses(r);
    var receipts := Receipts(r);
    Ok(ScheduleCEZ(receipts, w, receipts - w.total))
  }

  /** Five listed expenses leave no slot for the vehicle line: the build
      fails rather than dropping it. */
  lemma VehicleOverflowFails(r: Record)
    requires |r.businessExp.GetOr([])| == |ExpensePrefixes|
    requires r.vehicle.Some?
    ensures Build(r) == Err(TooManyExpenses)
  {
  }

  /** When the build succeeds with a vehicle, the last filled slot is the
      vehicle line, worth mileage times rate, after every listed expense in
      its original order. */
  lemma VehicleLineLast(r: Record)
    requires r.vehicle.Some?
    requires Build(r).Ok?
    ensures var lines := Build(r).value.worksheet.lines;
      && |lines| == |r.businessExp.GetOr([])| + 1
      && lines[|lines| - 1].amount == r.vehicle.value.mileage * r.vehicle.value.mileageRate
      && forall j :: 0 <= j < |lines| - 1 ==>
           lines[j].description == r.businessExp.GetOr([])[j].description &&
           lines[j].amount == r.businessExp.GetOr([])[j].amount
  {
    var es := AllExpenses(r);
    var listed := r.businessExp.GetOr([]);
    forall j | 0 <= j < |es| - 1
      ensures es[j] == listed[j]
    {
      assert es[..|listed|][j] == es[j];
    }
  }

  /** The total on the worksheet is the sum of the amounts in its slots plus meals. */
  lemma TotalIsSumOfSlots(r: Record)
    requires CalculateExpenses(r).Ok?
    ensures var w := CalculateExpenses(r).value;
      w.total == Sum(seq(|w.lines|, i requires 0 <= i < |w.lines| => w.lines[i].amount)) + r.meals.GetOr(0.0)
  {
    var w := CalculateExpenses(r).value;
    var es := AllExpenses(r);
    assert seq(|w.lines|, i requires 0 <= i < |w.lines| => w.lines[i].amount) == ExpenseAmounts(es);
  }
}
