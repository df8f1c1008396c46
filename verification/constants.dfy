/** The constant tables of `forms/constants.py` and the lookup `get_value`.

    A table maps a tax year to a map from filing-status key (or the wildcard
    `"all"`) to an amount. Lookup fails loudly, as a `MissingConstant` error,
    when the table, the year or the status is absent.

    Several tables the builders read (`STANDARD_DEDUCTION+`, `SE_TAXES`,
    `STUDENT_LOAN_DEDUCTION`, `EDUCATION_CREDIT`, `DEPENDENTS_CREDIT_*`) are not
    in the shipped file; their values are passed to the builders as the
    parameter records at the end of this module.
 */
module Constants {
  import opened Outcomes
  import opened Strings

  /** The five filing statuses, each with the key the tables use for it. */
  datatype FilingStatus = Single | MarriedJoint | MarriedSeparate | Widow | HeadOfHousehold {

    function Key(): string {
      match this
      case Single => "single"
      case MarriedJoint => "married_joint"
      case MarriedSeparate => "married_separate"
      case Widow => "widow"
      case HeadOfHousehold => "head_of_household"
    }
  }

  /** Distinct statuses have distinct keys, so a status can be read back from its key. */
  lemma KeyInjective(a: FilingStatus, b: FilingStatus)
    ensures a.Key() == b.Key() ==> a == b
  {
    if a != b {
      assert a.Key() != b.Key() by {
        match a
        case Single => assert a.Key()[1] == 'i';
        case MarriedJoint => assert a.Key()[8] == 'j';
        case MarriedSeparate => assert a.Key()[8] == 's';
        case Widow => assert a.Key()[0] == 'w';
        case HeadOfHousehold => assert a.Key()[0] == 'h';
      }
    }
  }

  /** `"married" in filing_status`. */
  predicate KeyMentionsMarried(fs: FilingStatus) {
    Contains(fs.Key(), "married")
  }

  /** `"widow" in filing_status`. */
  predicate KeyMentionsWidow(fs: FilingStatus) {
    Contains(fs.Key(), "widow")
  }

  /** A pattern whose first character never occurs in `s` does not occur in `s`. */
  lemma {:induction false} FirstCharAbsent(s: string, sub: string)
    requires |sub| > 0 && sub[0] !in s
    ensures !Contains(s, sub)
    decreases |s|
  {
    if |s| > 0 {
      FirstCharAbsent(s[1..], sub);
      if |sub| <= |s| {
        assert s[..|sub|][0] == s[0];
      }
    }
  }

  /** A key with neither an `m` nor a `w` mentions neither word. */
  lemma MentionsNeither(key: string)
    requires 'm' !in key && 'w' !in key
    ensures !Contains(key, "married") && !Contains(key, "widow")
  {
    FirstCharAbsent(key, "married");
    FirstCharAbsent(key, "widow");
  }

  /** Both married keys begin with `married` and hold no `w`. */
  lemma MarriedKeys(fs: FilingStatus)
    requires fs == MarriedJoint || fs == MarriedSeparate
    ensures KeyMentionsMarried(fs) && !KeyMentionsWidow(fs)
  {
    assert StartsWith(fs.Key(), "married");
    FirstCharAbsent(fs.Key(), "widow");
  }

  /** The surviving spouse's key is `widow` and holds no `m`. */
  lemma WidowKey()
    ensures KeyMentionsWidow(Widow) && !KeyMentionsMarried(Widow)
  {
    assert StartsWith(Widow.Key(), "widow");
    FirstCharAbsent(Widow.Key(), "married");
  }

  /** The substring tests on the status key pick out exactly the married
      statuses and the surviving spouse. */
  lemma StatusSubstrings(fs: FilingStatus)
    ensures KeyMentionsMarried(fs) <==> fs == MarriedJoint || fs == MarriedSeparate
    ensures KeyMentionsWidow(fs) <==> fs == Widow
  {
    match fs
    case Single =>
      MentionsNeither(fs.Key());
    case HeadOfHousehold =>
      MentionsNeither(fs.Key());
    case MarriedJoint =>
      MarriedKeys(fs);
    case MarriedSeparate =>
      MarriedKeys(fs);
    case Widow =>
      WidowKey();
  }

  /** The wildcard status key. */
  const AllStatuses: string := "all"

  /** `TAX_YEAR`, the default year of a lookup. */
  const TaxYear: string := "2018"

  /** The default status of a lookup. */
  const DefaultStatus: string := "single"

  /** One table: year -> status key (or `"all"`) -> amount. */
  type Table = map<string, map<string, real>>

  /** All tables by name. */
  type Tables = map<string, Table>

  /** `get_value(key, filing_status, tax_year)`: index the table by year, then
      take the wildcard entry if there is one and the status entry otherwise. */
  function GetValue(tables: Tables, key: string, status: string, year: string): (r: Result<real>)
    ensures r.Ok? <==>
      key in tables && year in tables[key] &&
      (AllStatuses in tables[key][year] || status in tables[key][year])
    ensures r.Ok? && AllStatuses in tables[key][year] ==> r.value == tables[key][year][AllStatuses]
    ensures r.Ok? && AllStatuses !in tables[key][year] ==> r.value == tables[key][year][status]
    ensures r.Err? ==> r.error.MissingConstant?
  {
    if key !in tables then Err(MissingConstant(key))
    else if year !in tables[key] then Err(MissingConstant(year))
    else
      var table := tables[key][year];
      if AllStatuses in table then Ok(table[AllStatuses])
      else if status in table then Ok(table[status])
      else Err(MissingConstant(status))
  }

  /** `get_value(key)` with the default status and year. */
  function GetDefault(tables: Tables, key: string): (r: Result<real>)
    ensures r == GetValue(tables, key, "single", "2018")
  {
    GetValue(tables, key, DefaultStatus, TaxYear)
  }

  /** A wildcard entry answers every status alike, whatever the status entries say. */
  lemma WildcardIgnoresStatus(tables: Tables, key: string, year: string, s: string, t: string)
    requires key in tables && year in tables[key] && AllStatuses in tables[key][year]
    ensures GetValue(tables, key, s, year) == GetValue(tables, key, t, year)
    ensures GetValue(tables, key, s, year) == Ok(tables[key][year][AllStatuses])
  {
  }

  /** The tables shipped for 2018. */
  function Shipped(): Tables {
    map[
      "STANDARD_DEDUCTION" := map["2018" := map[
        "single" := 12000.0,
        "married_joint" := 24000.0,
        "widow" := 24000.0,
        "married_separate" := 12000.0,
        "head_of_household" := 18000.0]],
      "QBI_THRESHOLD" := map["2018" := map["all" := 157500.0]],
      "MAX_DEDUCTIBLE_STATE_TAX" := map["2018" := map["all" := 10000.0]]
    ]
  }

  /** 2018 standard deduction: a joint return and a surviving spouse get twice
      the single amount, a separate return the single amount, and every
      status has an entry. */
  lemma ShippedStandardDeduction(fs: FilingStatus)
    ensures GetValue(Shipped(), "STANDARD_DEDUCTION", fs.Key(), "2018").Ok?
    ensures GetValue(Shipped(), "STANDARD_DEDUCTION", "married_joint", "2018")
         == GetValue(Shipped(), "STANDARD_DEDUCTION", "widow", "2018")
         == Ok(2.0 * GetValue(Shipped(), "STANDARD_DEDUCTION", "single", "2018").value)
    ensures GetValue(Shipped(), "STANDARD_DEDUCTION", "married_separate", "2018")
         == GetValue(Shipped(), "STANDARD_DEDUCTION", "single", "2018")
  {
  }

  /** A lookup with the defaults reads the single filer's 2018 entry. */
  lemma ShippedDefaults()
    ensures GetDefault(Shipped(), "STANDARD_DEDUCTION") == Ok(12000.0)
    ensures GetDefault(Shipped(), "QBI_THRESHOLD") == Ok(157500.0)
  {
  }

  /** The QBI threshold and the state-tax cap are one value for every status. */
  lemma ShippedWildcardTables(status: string)
    ensures GetValue(Shipped(), "QBI_THRESHOLD", status, "2018") == Ok(157500.0)
    ensures GetValue(Shipped(), "MAX_DEDUCTIBLE_STATE_TAX", status, "2018") == Ok(10000.0)
  {
  }

  /** Nothing is defaulted: another year, an unknown status, or a table the
      file does not define all fail. */
  lemma ShippedLookupFailures()
    ensures GetValue(Shipped(), "STANDARD_DEDUCTION", "single", "2019") == Err(MissingConstant("2019"))
    ensures GetValue(Shipped(), "STANDARD_DEDUCTION", "widowed", "2018") == Err(MissingConstant("widowed"))
    ensures GetValue(Shipped(), "STANDARD_DEDUCTION+", "single", "2018") == Err(MissingConstant("STANDARD_DEDUCTION+"))
  {
  }

  /** `SE_TAXES`: Schedule SE parameters. */
  datatype SeTaxes = SeTaxes(
    longScheduleThreshold: real,
    medicareRate: real,
    socialSecurityRate: real,
    untaxedThreshold: real)
  {
    /** `medicare_rate + social_security_rate`. */
    function CombinedRate(): real {
      medicareRate + socialSecurityRate
    }
  }

  /** `STUDENT_LOAN_DEDUCTION`: the interest cap and the phase-out range. */
  datatype StudentLoanLimits = StudentLoanLimits(
    maxDeduction: real,
    phaseoutBegin: real,
    phaseoutEnd: real)

  /** `EDUCATION_CREDIT`: Form 8863 parameters for the filer's status. */
  datatype EducationLimits = EducationLimits(
    refundableIncomeThreshold: real,
    refundablePhaseoutRange: real,
    refundableRate: real,
    maxNonrefundableCredit: real,
    nonrefundableRate: real,
    nonrefundableIncomeThreshold: real,
    nonrefundablePhaseoutRange: real,
    maxRefundableClaim: real,
    fullyCoveredRefundableExpense: real,
    partiallyCoveredRefundableRate: real)

  /** `DEPENDENTS_CREDIT_AMT` and `DEPENDENTS_CREDIT_INCOME_THRESHOLD`. */
  datatype DependentsCredit = DependentsCredit(
    childAmount: real,
    otherAmount: real,
    incomeThreshold: real)
}
