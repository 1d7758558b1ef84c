/**
 * What the calculator engine borrows from the platform: floating-point library
 * functions and constants, the random number generator and the number formatter.
 * None of them is modelled; each is a parameter of the engine.
 */
module Platform {
  import opened Wrappers

  /** `UInt32`, the type of a value drawn by `arc4random()`. */
  newtype u32 = x: int | 0 <= x < 0x1_0000_0000

  /** `UInt32.max`. */
  const U32Max: u32 := 0xFFFF_FFFF

  /**
   * The foreign primitives, as values:
   * `sqrt`, `cos`, `sin`, `tan` of the C library, `Double.pi`, `M_E`,
   * the IEEE-754 quotient `x / 0` (an infinity or NaN) and
   * `formatter.string(from:)`, which may fail and then yields `nil`.
   */
  datatype Primitives = Primitives(
    sqrt: real -> real,
    cos: real -> real,
    sin: real -> real,
    tan: real -> real,
    pi: real,
    e: real,
    divideByZero: real -> real,
    format: real -> Option<string>)

  /** Swift's `x / y` on `Double`: exact division, or the platform's value for a zero divisor. */
  function Divide(env: Primitives, x: real, y: real): (r: real)
    ensures y != 0.0 ==> r * y == x
    ensures y == 0.0 ==> r == env.divideByZero(x)
  {
    if y != 0.0 then x / y else env.divideByZero(x)
  }

  /** `Double(arc4random()) / Double(UInt32.max)`, for the drawn value `draw`. */
  function RandomFraction(draw: u32): (r: real)
    ensures 0.0 <= r <= 1.0
    ensures r == 1.0 <==> draw == U32Max
    ensures r == 0.0 <==> draw == 0
  {
    draw as real / U32Max as real
  }
}
