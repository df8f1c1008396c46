/** The finance record: the parsed data file every builder reads.

    Only the keys the modelled builders read are represented. A key the source
    reads behind an `in` test, or reads without one but may legitimately be
    absent, is an `Option`; keys every return must carry (names, SSN, address,
    the W-2 list) are plain fields.
 */
module Finance {
  import opened Outcomes
  import opened Constants

  /** A JSON scalar, for keys whose exact value the source tests (`is True`). */
  datatype Scalar = Bool(b: bool) | Number(x: real) | Text(s: string)

  /** The filer or the spouse: `name_first`, `name_middle_i`, `name_last`,
      `ssn`, and the optional `blind` / `senior_citizen` answers. */
  datatype Person = Person(
    first: string,
    middleInitial: string,
    last: string,
    ssn: string,
    blind: Option<string>,
    senior: Option<string>)

  /** One entry of `dependents`. */
  datatype Dependent = Dependent(
    name: string,
    relationship: string,
    ssn: Option<string>,
    ageUnder17: Option<string>)

  /** One entry of `w2`. */
  datatype W2 = W2(income: real, federalWithheld: real, ssWages: real)

  /** One entry of `1099_div`. */
  datatype Div1099 = Div1099(
    totalQualified: real,
    totalCapitalGain: Option<real>,
    foreignTax: Option<real>)

  /** One entry of `1099_r`, by its `type`. */
  datatype Distribution =
    | Rollover(amount: real)
    | BackdoorConversion(converted: real)
    | OtherDistribution(kind: string)

  /** One entry of `business_exp`. */
  datatype Expense = Expense(description: string, amount: real)

  /** The `vehicle` entry of a self-employed filer. */
  datatype Vehicle = Vehicle(dates: string, mileage: real, mileageRate: real)

  /** One entry of `postsecondary_education`. */
  datatype Student = Student(
    name: string,
    ssn: string,
    institution: string,
    address: string,
    ein: string,
    expenses: real,
    isUndergrad: string)

  /** The finance record. */
  datatype Record = Record(
    name: string,
    filingStatus: Option<FilingStatus>,
    filer: Person,
    spouse: Option<Person>,
    address: string,
    addressApt: Option<string>,
    apartment: Option<string>,
    city: string,
    state: string,
    zip: string,
    occupation: string,
    dependents: Option<seq<Dependent>>,
    w2: seq<W2>,
    div1099: Option<seq<Div1099>>,
    r1099: Option<seq<Distribution>>,
    misc1099: Option<seq<real>>,
    businessExp: Option<seq<Expense>>,
    meals: Option<real>,
    vehicle: Option<Vehicle>,
    qbiDeduction: Option<Scalar>,
    educatorExpenses: Option<real>,
    hsaDeduction: Option<real>,
    traditionalIraDeduction: Option<real>,
    studentLoanInterest: Option<real>,
    education: Option<seq<Student>>)

  /** The record-level tests of the utilities module (`has_self_employment`,
      `has_deductible_ira`, `has_education`), taken as given answers. */
  datatype Predicates = Predicates(
    selfEmployment: bool,
    deductibleIra: bool,
    education: bool)

  /** `data['filing_status']` where the source reads it without a default. */
  function RequiredStatus(r: Record): (s: Result<FilingStatus>)
    ensures s.Ok? <==> r.filingStatus.Some?
    ensures s.Ok? ==> s.value == r.filingStatus.value
    ensures s.Err? ==> s.error == MissingKey("filing_status")
  {
    match r.filingStatus
    case Some(fs) => Ok(fs)
    case None => Err(MissingKey("filing_status"))
  }

  /** The status where the source defaults a missing one to `"single"`. */
  function StatusOrSingle(r: Record): (s: FilingStatus)
    ensures r.filingStatus.None? ==> s == Single
    ensures r.filingStatus.Some? ==> s == r.filingStatus.value
  {
    r.filingStatus.GetOr(Single)
  }
}
