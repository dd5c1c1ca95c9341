/** Value types and numeric helpers shared by every component of the agent. */
module Common {

  /** A value that may be absent, as a key missing from a Python dict. */
  datatype Option<+T> = None | Some(value: T)

  function Min(a: real, b: real): (r: real)
    ensures r <= a && r <= b && (r == a || r == b)
  {
    if a <= b then a else b
  }

  function Max(a: real, b: real): (r: real)
    ensures r >= a && r >= b && (r == a || r == b)
  {
    if a >= b then a else b
  }

  /** `max(minimum, min(maximum, value))`: the value pulled into [minimum, maximum]. */
  function Clamp(value: real, minimum: real, maximum: real): (r: real)
    ensures minimum <= maximum ==> minimum <= r <= maximum
    ensures minimum <= value <= maximum ==> r == value
    ensures value < minimum ==> r == minimum
    ensures minimum <= maximum < value ==> r == maximum
  {
    Max(minimum, Min(maximum, value))
  }
}
