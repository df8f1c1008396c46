/** Failure results shared by every form builder.

    The preparer has no error values of its own: a builder either returns a
    form dictionary or raises (a KeyError on a missing key, an IndexError on a
    sixth expense line, a bare Exception above the QBI threshold, ...). Each
    raise becomes an `Err` here, so that a failing build is a value the
    properties can talk about.
 */
module Outcomes {

  /** Why a build aborted. */
  datatype Error =
    | MissingKey(key: string)        // a record or form dictionary read without a guard
    | MissingConstant(key: string)   // constants.get_value on an absent table, year or status
    | TooManyExpenses                // a sixth Schedule C-EZ expense line (IndexError)
    | TooManyDependents              // a fifth dependent on Form 1040
    | QbiAboveThreshold              // taxable income above the section 199A threshold

  /** Either the value a builder returns or the reason it aborted. */
  datatype Result<+T> = Ok(value: T) | Err(error: Error) {

    predicate IsFailure() {
      Err?
    }

    function PropagateFailure<U>(): Result<U>
      requires Err?
    {
      Err(error)
    }

    function Extract(): T
      requires Ok?
    {
      value
    }
  }

  /** The conventional Some/None datatype, for keys a record may lack. */
  datatype Option<+T> = None | Some(value: T) {

    function GetOr(default: T): T {
      match this
      case Some(v) => v
      case None => default
    }
  }
}
