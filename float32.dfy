/** The scalar of every vector: a 32-bit IEEE-754 float, kept as its bit pattern.
    Float arithmetic itself is not interpreted: the operations the vector
    operators use are passed in as an `Arith` record, so nothing proved here
    depends on rounding, NaN or infinity. */
module Float32 {

  /** An `f32`, as the 32 bits that store it. */
  type F32 = bv32

  /** `0.0` (positive zero). */
  const Zero: F32 := 0x0000_0000

  /** `1.0`. */
  const One: F32 := 0x3F80_0000

  /** The `f32` implementations of `Add::add`, `Sub::sub`, `Mul::mul`,
      `Div::div` and `Neg::neg`, left uninterpreted. */
  datatype Arith = Arith(
    add: (F32, F32) -> F32,
    sub: (F32, F32) -> F32,
    mul: (F32, F32) -> F32,
    div: (F32, F32) -> F32,
    neg: F32 -> F32)
}
