/** Money arithmetic shared by the form builders.

    A dollars/cents pair in a form dictionary is taken to store its real value
    exactly, so a form's amount fields are modelled as a map from field stem
    (`"business"`, `"capital_gain"`, ...) to a `real`. Python's `int()`,
    `math.ceil` and `round` on floats are modelled by `Trunc`, `Ceil` and the
    `RoundsToThousandths` bound.
 */
module Money {
  import opened Outcomes

  /** The amount fields of one form dictionary, keyed by stem. */
  type Amounts = map<string, real>

  /** A stem's amount, or 0 when the dictionary does not hold it. */
  function Amount(d: Amounts, stem: string): real {
    if stem in d then d[stem] else 0.0
  }

  /** `d` with `stem` set to `x` when there is a value, untouched otherwise. */
  function Put(d: Amounts, stem: string, x: Option<real>): (e: Amounts)
    ensures e.Keys <= d.Keys + {stem}
    ensures x.Some? ==> stem in e && e[stem] == x.value
    ensures x.None? ==> Amount(e, stem) == Amount(d, stem)
    ensures forall s :: s != stem ==> Amount(e, s) == Amount(d, s)
  {
    match x
    case Some(v) => d[stem := v]
    case None => d
  }

  /** The sum of the named stems' amounts, absent stems counting 0. */
  function AddFields(d: Amounts, stems: seq<string>): real
    decreases |stems|
  {
    if |stems| == 0 then 0.0 else Amount(d, stems[0]) + AddFields(d, stems[1..])
  }

  /** Summing over two lists of stems is summing over each. */
  lemma {:induction false} AddFieldsConcat(d: Amounts, a: seq<string>, b: seq<string>)
    ensures AddFields(d, a + b) == AddFields(d, a) + AddFields(d, b)
    decreases |a|
  {
    if |a| > 0 {
      assert (a + b)[1..] == a[1..] + b;
      AddFieldsConcat(d, a[1..], b);
    } else {
      assert a + b == b;
    }
  }

  /** Stems the dictionary does not hold contribute nothing. */
  lemma {:induction false} AddFieldsAbsent(d: Amounts, stems: seq<string>)
    requires forall i :: 0 <= i < |stems| ==> stems[i] !in d
    ensures AddFields(d, stems) == 0.0
    decreases |stems|
  {
    if |stems| > 0 {
      AddFieldsAbsent(d, stems[1..]);
    }
  }

  /** Two dictionaries that agree on every listed stem have the same total. */
  lemma {:induction false} AddFieldsAgree(d: Amounts, e: Amounts, stems: seq<string>)
    requires forall i :: 0 <= i < |stems| ==> Amount(d, stems[i]) == Amount(e, stems[i])
    ensures AddFields(d, stems) == AddFields(e, stems)
    decreases |stems|
  {
    if |stems| > 0 {
      AddFieldsAgree(d, e, stems[1..]);
    }
  }

  /** Python's `sum` over a list of amounts. */
  function Sum(xs: seq<real>): real
    decreases |xs|
  {
    if |xs| == 0 then 0.0 else xs[0] + Sum(xs[1..])
  }

  /** `sum` distributes over list concatenation. */
  lemma {:induction false} SumConcat(xs: seq<real>, ys: seq<real>)
    ensures Sum(xs + ys) == Sum(xs) + Sum(ys)
    decreases |xs|
  {
    if |xs| > 0 {
      assert (xs + ys)[1..] == xs[1..] + ys;
      SumConcat(xs[1..], ys);
    } else {
      assert xs + ys == ys;
    }
  }

  /** A sum of non-negative amounts is non-negative. */
  lemma {:induction false} SumNonNegative(xs: seq<real>)
    requires forall i :: 0 <= i < |xs| ==> xs[i] >= 0.0
    ensures Sum(xs) >= 0.0
    decreases |xs|
  {
    if |xs| > 0 {
      SumNonNegative(xs[1..]);
    }
  }

  /** `sum(x[k] if k in x else 0 for x in entries)`: an optional amount per
      entry, a missing one counting 0. */
  function SumPresent(xs: seq<Option<real>>): real
    decreases |xs|
  {
    if |xs| == 0 then 0.0 else xs[0].GetOr(0.0) + SumPresent(xs[1..])
  }

  /** The optional-amount sum distributes over list concatenation. */
  lemma {:induction false} SumPresentConcat(xs: seq<Option<real>>, ys: seq<Option<real>>)
    ensures SumPresent(xs + ys) == SumPresent(xs) + SumPresent(ys)
    decreases |xs|
  {
    if |xs| > 0 {
      assert (xs + ys)[1..] == xs[1..] + ys;
      SumPresentConcat(xs[1..], ys);
    } else {
      assert xs + ys == ys;
    }
  }

  /** Entries without the key contribute nothing: only the present amounts count. */
  lemma {:induction false} SumPresentAllMissing(xs: seq<Option<real>>)
    requires forall i :: 0 <= i < |xs| ==> xs[i].None?
    ensures SumPresent(xs) == 0.0
    decreases |xs|
  {
    if |xs| > 0 {
      SumPresentAllMissing(xs[1..]);
    }
  }

  /** Python's `int(x)` on a float: truncation toward zero. */
  function Trunc(x: real): (r: int)
    ensures 0.0 <= x ==> 0 <= r && r as real <= x < r as real + 1.0
    ensures x < 0.0 ==> r <= 0 && r as real - 1.0 < x <= r as real
  {
    if x >= 0.0 then x.Floor else -((-x).Floor)
  }

  /** Python's `math.ceil(x)`: the least integer not below `x`. */
  function Ceil(x: real): (r: int)
    ensures x <= r as real < x + 1.0
  {
    if x.Floor as real == x then x.Floor else x.Floor + 1
  }

  /** A product handed to a rounding parameter. Naming it lets the verifier
      see that equal products round to equal values. */
  function Times(a: real, b: real): real {
    a * b
  }

  /** A product with a positive factor is positive only if the other factor is. */
  lemma PositiveFactor(y: real, b: real)
    requires b > 0.0 && y * b > 0.0
    ensures y > 0.0
  {
  }

  /** A positive amount over a larger one is a fraction strictly between 0 and 1. */
  lemma FractionInUnit(a: real, b: real)
    requires 0.0 < a < b
    ensures 0.0 < a / b < 1.0
  {
    var x := a / b;
    assert x * b == a;
    assert (1.0 - x) * b == b - a;
    PositiveFactor(x, b);
    PositiveFactor(1.0 - x, b);
  }

  /** `y` is a whole number of thousandths. */
  predicate IsThousandths(y: real) {
    (y * 1000.0).Floor as real == y * 1000.0
  }

  /** `y` is an admissible value of Python's `round(x, 3)`: a whole number of
      thousandths no further than half a thousandth from `x`. The tie-breaking
      rule and binary floating point are not modelled. */
  predicate RoundsToThousandths(x: real, y: real) {
    IsThousandths(y) && -0.0005 <= y - x <= 0.0005
  }

  /** A rounding function that always returns an admissible `round(x, 3)`. */
  ghost predicate IsRound3(round3: real -> real) {
    forall x :: RoundsToThousandths(x, round3(x))
  }

  /** Rounding a value strictly between 0 and 1 to thousandths stays within
      [0, 1], at a whole number of thousandths between 0 and 1000. */
  lemma RoundedFractionInUnit(x: real, y: real)
    requires 0.0 < x < 1.0
    requires RoundsToThousandths(x, y)
    ensures 0.0 <= y <= 1.0
    ensures 0 <= (y * 1000.0).Floor <= 1000
  {
    var k := (y * 1000.0).Floor;
    assert k as real == y * 1000.0;
    assert -0.5 < k as real < 1000.5;
  }
}
