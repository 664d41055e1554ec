/** The optional value used for Rust's `Option<T>` throughout the model. */
module Wrappers {

  datatype Option<+T> = None | Some(value: T)

  /** Rust's `usize::saturating_sub`: `a - b`, or 0 when `b > a`. */
  function SatSub(a: nat, b: nat): (r: nat)
    ensures a >= b ==> r + b == a
    ensures a < b ==> r == 0
  {
    if a >= b then a - b else 0
  }

  function Min(a: nat, b: nat): (r: nat)
    ensures r <= a && r <= b && (r == a || r == b)
  {
    if a <= b then a else b
  }

  function Max(a: nat, b: nat): (r: nat)
    ensures r >= a && r >= b && (r == a || r == b)
  {
    if a >= b then a else b
  }
}
