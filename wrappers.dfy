/** Option and a pass/fail outcome, usable with `:-`, standing in for the
    source's NULL returns and `goto` error exits. */
module Wrappers {

  datatype Option<+T> = None | Some(value: T) {
    predicate IsFailure() { None? }

    function PropagateFailure<U>(): Option<U>
      requires None?
    {
      None
    }

    function Extract(): T
      requires Some?
    {
      value
    }

    function GetOr(default: T): T {
      match this
      case Some(v) => v
      case None => default
    }
  }

  /** A check with no value of its own: `:- Need(c);` exits with None when c fails. */
  datatype Outcome = Pass | Fail {
    predicate IsFailure() { Fail? }

    function PropagateFailure<U>(): Option<U>
      requires Fail?
    {
      None
    }
  }

  function Need(condition: bool): Outcome {
    if condition then Pass else Fail
  }
}
