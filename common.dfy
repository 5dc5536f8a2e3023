/** Small value types and saturating arithmetic shared by every module. */
module Common {

  /** Rust's `Option<T>`. */
  datatype Option<+T> = None | Some(value: T)

  function Min(a: int, b: int): (m: int)
    ensures m <= a && m <= b
    ensures m == a || m == b
  {
    if a <= b then a else b
  }

  function Max(a: int, b: int): (m: int)
    ensures a <= m && b <= m
    ensures m == a || m == b
  {
    if a <= b then b else a
  }

  /** `usize::saturating_sub`: subtraction that stops at zero. */
  function SatSub(a: nat, b: nat): (r: nat)
    ensures r <= a
    ensures b <= a ==> r + b == a
    ensures a <= b ==> r == 0
  {
    if a <= b then 0 else a - b
  }
}
