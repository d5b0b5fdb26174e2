/** The optional-value datatype used for the nullable fields of the app's records
    (`User | null`, `planId: ... | null`, `Date | null`, `string | null`). */
module Wrappers {

  datatype Option<+T> = None | Some(value: T) {

    /** The value when present, otherwise `default` (the `?? default` of the source). */
    function GetOr(default: T): T {
      match this
      case Some(v) => v
      case None => default
    }
  }
}
