/** Small value wrappers shared by the whole model. */
module Wrappers {

  /** A value that may be absent: JavaScript's `null` / `undefined`. */
  datatype Option<T> = None | Some(value: T)
  {
    function GetOr(default: T): T
    {
      match this
      case None => default
      case Some(v) => v
    }
  }

  /**
   * The result of a JavaScript routine that may throw: `Threw` stands for an
   * exception that escapes the routine (a `TypeError`, or a deliberate `throw`).
   */
  datatype Outcome<T> = Returned(value: T) | Threw(reason: string)
}
