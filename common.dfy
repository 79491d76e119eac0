/** Shared vocabulary: optional values, results of remote calls, and the
    32-bit signed integers the job arguments are declared with. */
module Common {

  datatype Option<+T> = None | Some(value: T)

  /** A call into a collaborator either yields a value or throws. */
  datatype Result<+T> = Success(value: T) | Failure(error: Fault)

  /** An exception raised by a collaborator; its contents are opaque here. */
  datatype Fault = Fault(description: string)

  const TwoTo31: int := 0x8000_0000
  const TwoTo32: int := 0x1_0000_0000
  const MaxInt32: int := 0x7FFF_FFFF

  /** The values of a C# `int`. */
  type Int32 = x: int | -0x8000_0000 <= x < 0x8000_0000

  /** Unchecked two's-complement arithmetic: the `int` that `x` wraps to. */
  function Wrap32(x: int): (r: Int32)
    ensures (x - r) % TwoTo32 == 0
    ensures -TwoTo31 <= x < TwoTo31 ==> r == x
  {
    (x + TwoTo31) % TwoTo32 - TwoTo31
  }

  /** Wrapping an intermediate sum does not change the wrapped total. */
  lemma WrapAdd(a: int, b: int)
    ensures Wrap32(Wrap32(a) + b) == Wrap32(a + b)
  {
  }
}
