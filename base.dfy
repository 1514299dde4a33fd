/**
 Value types shared by the SDK model: C#'s nullable references and values
 (Option), the exceptions the modelled code raises or lets through, and the
 32-bit `int` of the CLR with its unchecked wrap-around.
 */
module Base {

  /** A C# value that may be null (`string`, `float?`, `DateTime?`). */
  datatype Option<+T> = None | Some(value: T)

  /** The exceptions that the modelled code throws or lets propagate. */
  datatype Exception =
    | ArgumentNullException(paramName: string, message: string)
    | InvalidOperationException(message: string)
    | NullReferenceException
      /** Thrown by code outside the model: an agent's PollCycle or the concrete context. */
    | ExternalException(message: string)

  /** How a call into C# code ended: normally or by throwing. */
  datatype Outcome = Completed | Threw(exception: Exception)

  /** `string.IsNullOrEmpty`. */
  predicate IsNullOrEmpty(s: Option<string>): (b: bool)
    ensures b <==> s.None? || |s.value| == 0
  {
    match s
    case None => true
    case Some(v) => v == ""
  }

  const Int32Modulus: int := 0x1_0000_0000

  /** The CLR's `int`. */
  newtype int32 = x: int | -0x8000_0000 <= x < 0x8000_0000

  /** Unchecked conversion of a mathematical integer to `int`: the value congruent modulo 2^32. */
  function WrapInt32(x: int): (r: int32)
    ensures (r as int - x) % Int32Modulus == 0
    ensures -0x8000_0000 <= x < 0x8000_0000 ==> r as int == x
  {
    var shifted := x + 0x8000_0000;
    var k := shifted / Int32Modulus;
    assert shifted == k * Int32Modulus + shifted % Int32Modulus;
    (shifted % Int32Modulus - 0x8000_0000) as int32
  }

  /** `x++` on an `int` in an unchecked context. */
  function Increment(x: int32): (r: int32)
    ensures (r as int - x as int - 1) % Int32Modulus == 0
    ensures x < 0x7fff_ffff ==> r as int == x as int + 1
  {
    WrapInt32(x as int + 1)
  }

  /** `--x` on an `int` in an unchecked context. */
  function Decrement(x: int32): (r: int32)
    ensures (x as int - r as int - 1) % Int32Modulus == 0
    ensures -0x8000_0000 < x ==> r as int == x as int - 1
  {
    WrapInt32(x as int - 1)
  }
}
