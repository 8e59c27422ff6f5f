/** Real-number helpers the firmware takes from the C library or writes by hand. */
module Numeric {

  function Abs(x: real): real {
    if x < 0.0 then -x else x
  }

  function Max(a: real, b: real): real {
    if a < b then b else a
  }

  function Min(a: real, b: real): real {
    if a < b then a else b
  }

  /** The firmware's `clampf`: the lower limit is tested first. */
  function Clampf(v: real, lo: real, hi: real): real {
    if v < lo then lo else if v > hi then hi else v
  }
}
