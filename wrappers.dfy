/** The nullable values of the screens (`T | null`) as an Option. */
module Wrappers {

  datatype Option<+T> = None | Some(value: T) {

    /** `x ?? d` for a value that is either present or null. */
    function GetOr(default: T): T
    {
      match this
      case Some(v) => v
      case None => default
    }
  }
}
