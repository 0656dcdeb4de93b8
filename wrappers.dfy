/** Option, the stand-in for Python's `None`-or-value results. */
module Wrappers {

  datatype Option<+T> = None | Some(value: T) {

    /** The value of `Some`, or `default` for `None` (Python's `x if x is not None else default`). */
    function GetOr(default: T): T {
      match this
      case Some(v) => v
      case None => default
    }
  }
}

/** Octets, as Python's `bytes` holds them. */
module Bytes {
  type Byte = x: int | 0 <= x < 256
}

/** A call that either returns a value or raises a Python exception carrying a message. */
module Calls {
  datatype Call<+T> = Returns(value: T) | Raises(message: string)
}
