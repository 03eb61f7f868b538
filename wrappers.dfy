/** Option and Result values for the absent keys and raised exceptions of the scripts. */
module Wrappers {

  datatype Option<+T> = None | Some(value: T) {
    function GetOr(default: T): T {
      match this
      case Some(v) => v
      case None => default
    }
  }

  /** The exception kinds the modelled scripts can raise on their own data. */
  datatype Error =
    | KeyMissing        // a dictionary key is indexed that the data lacks
    | IndexOutOfRange   // a list is indexed past its end
    | BadNumber         // float()/int() rejects the text
    | DivisionByZero    // a float division by zero
    | TypeMismatch      // a non-dictionary value is used as a dictionary
    | NoWaypoints       // the converter's own ValueError

  datatype Result<+T> = Ok(value: T) | Err(error: Error)
}
