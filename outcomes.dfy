/** Result and error types shared by the habit controller model. */
module Outcomes {

  /** A value that may be missing (JavaScript `null` / `undefined`). */
  datatype Option<+T> = None | Some(value: T) {
    function GetOr(default: T): T {
      match this
      case Some(v) => v
      case None => default
    }
  }

  /** The error responses of the habit handlers. */
  datatype HabitError =
    | UnitsInvalid      // "units must be a non-negative number."
    | TypeInvalid       // "type must be 'use' or 'resist'."
    | InvalidTimestamp  // "Invalid timestamp."
    | FutureTimestamp   // "Timestamp is in the future."
    | UserNotFound      // "User not found."
    | AlreadyCheckedIn  // "Already checked in today."
    | SaveRejected      // the record failed schema validation on save
  {
    /** The HTTP status the handler answers with. */
    function Status(): (code: nat)
      ensures code in {400, 404, 409, 500}
      ensures code == 400 <==> (UnitsInvalid? || TypeInvalid? || InvalidTimestamp? || FutureTimestamp?)
      ensures UserNotFound? ==> code == 404
      ensures AlreadyCheckedIn? ==> code == 409
      ensures SaveRejected? ==> code == 500
    {
      match this
      case UserNotFound => 404
      case AlreadyCheckedIn => 409
      case SaveRejected => 500
      case _ => 400
    }
  }

  /** The outcome of a handler: a value, or the error it answers with. */
  datatype Outcome<+T> = Ok(value: T) | Fail(error: HabitError) {
    predicate IsFailure() {
      Fail?
    }

    function PropagateFailure<U>(): Outcome<U>
      requires Fail?
    {
      Fail(error)
    }

    function Extract(): T
      requires Ok?
    {
      value
    }
  }
}
