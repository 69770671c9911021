/** Small value types shared by the other modules. */
module Wrappers {

  /** A Go pointer or an optional value: absent (`nil`) or present. */
  datatype Option<+T> = None | Some(value: T)

  /** A value or the error that stopped it from being computed. */
  datatype Result<+R, +E> = Success(value: R) | Failure(error: E)
}

/** Go's fixed-width `int32` and its wrap-around arithmetic. */
module GoInt {

  const TwoTo31: int := 0x8000_0000
  const TwoTo32: int := 0x1_0000_0000

  newtype int32 = x: int | -0x8000_0000 <= x < 0x8000_0000

  /** Reduces an unbounded integer to the int32 with the same residue modulo 2^32. */
  function Wrap32(x: int): (r: int32)
    ensures (x - r as int) % TwoTo32 == 0
    ensures -TwoTo31 <= x < TwoTo31 ==> r as int == x
  {
    ((x + TwoTo31) % TwoTo32 - TwoTo31) as int32
  }

  /** Go's `a - b` on two int32 values: the exact difference, wrapped. */
  function Sub32(a: int32, b: int32): (r: int32)
    ensures (a as int - b as int - r as int) % TwoTo32 == 0
  {
    Wrap32(a as int - b as int)
  }

  /** Two non-negative int32 values never wrap when subtracted. */
  lemma Sub32NonNegativeExact(a: int32, b: int32)
    requires 0 <= a && 0 <= b
    ensures Sub32(a, b) as int == a as int - b as int
  {
  }
}
