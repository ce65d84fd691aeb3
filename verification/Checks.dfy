/** The outcome of an admission check: a value, or the fault code it raises. */
module Checks {
  datatype Checked<+T> = Accept(value: T) | Deny(code: int)
  {
    predicate IsFailure() {
      Deny?
    }

    function PropagateFailure<U>(): Checked<U>
      requires IsFailure()
    {
      Deny(code)
    }

    function Extract(): T
      requires !IsFailure()
    {
      value
    }
  }

  /** A bare condition, which stops an admission with its fault code when it fails. */
  datatype Guard = Met | Unmet(code: int)
  {
    predicate IsFailure() {
      Unmet?
    }

    function PropagateFailure<U>(): Checked<U>
      requires IsFailure()
    {
      Deny(code)
    }
  }

  function Require(ok: bool, code: int): Guard {
    if ok then Met else Unmet(code)
  }
}
