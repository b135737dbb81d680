/** Small value types shared by every page of the console. */
module Basics {

  /** A value that may be absent (`null` / `undefined` in the console's code). */
  datatype Option<+T> = None | Some(value: T) {
    function GetOr(default: T): T {
      match this
      case Some(v) => v
      case None => default
    }
  }

  /** A computation that either produced a value or failed with an error. */
  datatype Result<+R, +E> = Success(value: R) | Failure(error: E)

  /** What an awaited request to the backend did. `Rejected` carries the two
      texts the pages read from a rejected promise: `err.response.data.message`
      and `err.message`; an absent text is the empty string. */
  datatype ServerOutcome = Accepted | Rejected(responseMessage: string, message: string)

  /** Why a snackbar asked to be closed. */
  datatype CloseReason = Timeout | ClickAway | EscapeKeyDown

  /** Snackbar severities used by the product and user pages. */
  datatype Severity = SuccessSeverity | ErrorSeverity | InfoSeverity

  /** A snackbar's state: whether it is shown, its text and its severity. */
  datatype Snackbar = Snackbar(open: bool, message: string, severity: Severity)

  /** A warehouse as the pages list it in their selectors. */
  datatype Warehouse = Warehouse(id: string, name: string)

  /** A route parameter or stored text is "missing" for the pages' `!x` tests
      when it is absent or empty. */
  predicate Present(x: Option<string>) {
    x.Some? && x.value != ""
  }
}
