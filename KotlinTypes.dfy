/** The few Kotlin standard types the app's logic relies on: the 32-bit `Int`
    with its wrap-around, nullable values, exceptions and `kotlin.Result`. */
module KotlinTypes {

  /** Kotlin's `Int`: a 32-bit two's-complement integer. */
  type int32 = x: int | -0x8000_0000 <= x <= 0x7fff_ffff

  const INT_MIN: int32 := -0x8000_0000
  const INT_MAX: int32 := 0x7fff_ffff

  /** `x.plus(1)` / `x + 1` on `Int`: the result is congruent to x + 1 modulo 2^32. */
  function PlusOne(x: int32): (r: int32)
    ensures (r - (x + 1)) % 0x1_0000_0000 == 0
    ensures x < INT_MAX ==> r == x + 1
  {
    if x == INT_MAX then INT_MIN else x + 1
  }

  /** `x.minus(1)` / `x - 1` on `Int`: the result is congruent to x - 1 modulo 2^32. */
  function MinusOne(x: int32): (r: int32)
    ensures (r - (x - 1)) % 0x1_0000_0000 == 0
    ensures INT_MIN < x ==> r == x - 1
  {
    if x == INT_MIN then INT_MAX else x - 1
  }

  /** Adding one and subtracting one undo each other, wrap-around included. */
  lemma PlusOneMinusOne(x: int32)
    ensures MinusOne(PlusOne(x)) == x
    ensures PlusOne(MinusOne(x)) == x
  {
  }

  /** A Kotlin nullable value `T?`. */
  datatype Option<+T> = None | Some(value: T)

  /** A caught `Exception`, of which the app only ever reads the (nullable) message. */
  datatype Throwable = Throwable(message: Option<string>)

  /** `kotlin.Result<T>`: `Result.success(value)` or `Result.failure(exception)`.
      It also stands for the outcome of a suspending call that either returns or throws. */
  datatype Result<+T> = Success(value: T) | Failure(exception: Throwable)
}
