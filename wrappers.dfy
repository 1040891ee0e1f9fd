module Wrappers {
  /** An optional value; None where the source makes no call or has no value. */
  datatype Option<+T> = None | Some(value: T)
}

/** The smaller and larger of two integers, shared by the car clamp and the
    question count. */
module Numbers {
  function Min(a: int, b: int): (r: int)
    ensures r <= a && r <= b && (r == a || r == b)
  {
    if a <= b then a else b
  }

  function Max(a: int, b: int): (r: int)
    ensures r >= a && r >= b && (r == a || r == b)
  {
    if a >= b then a else b
  }
}
