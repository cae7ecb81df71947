/** Stock value types shared by every module. */
module Wrappers {

  datatype Option<+T> = None | Some(value: T) {
    function GetOr(default: T): T {
      match this
      case None => default
      case Some(v) => v
    }
  }

  /** The number of values of a 32-bit word. */
  const TWO_32 := 0x1_0000_0000
}
