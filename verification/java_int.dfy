/** Java's 32-bit `int` and the two's-complement wrap-around of its arithmetic. */
module JavaInt {

  const MinInt: int := -0x8000_0000
  const MaxInt: int := 0x7fff_ffff
  const Modulus: int := 0x1_0000_0000

  type Int32 = x: int | -0x8000_0000 <= x <= 0x7fff_ffff

  predicate InRange(x: int) {
    MinInt <= x <= MaxInt
  }

  /** The `int` a Java expression yields when its mathematical value is `x`. */
  function Wrap(x: int): (r: Int32)
    ensures InRange(x) ==> r == x
    ensures (x - r) % Modulus == 0
  {
    var m := (x - MinInt) % Modulus;
    assert x - MinInt == Modulus * ((x - MinInt) / Modulus) + m;
    m + MinInt
  }

  /** `Math.max` on two ints. */
  function Max(a: Int32, b: Int32): (r: Int32)
    ensures r >= a && r >= b
    ensures r == a || r == b
  {
    if a >= b then a else b
  }
}
