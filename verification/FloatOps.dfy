/** Floating-point arithmetic without laws: the operations are arbitrary functions, so two
    results are provably equal only when they are the same operations on the same operands
    in the same order. Equality here therefore means bit-exactness. */
module FloatOps {

  /** `F` stands for f32 and `D` for f64. */
  datatype Ops<!F, !D> = Ops(
    zero: F, one: F, epsilon: F, minusHalf: F, negInfinity: F,
    add: (F, F) -> F, sub: (F, F) -> F, mul: (F, F) -> F, div: (F, F) -> F,
    neg: F -> F, exp: F -> F, sqrt: F -> F, silu: F -> F, sigmoid: F -> F, softplus: F -> F,
    cos: F -> F, sin: F -> F, powf: (F, F) -> F, greater: (F, F) -> bool, ofNat: nat -> F,
    zero64: D, add64: (D, D) -> D, mul64: (D, D) -> D, div64: (D, D) -> D,
    widen: F -> D, narrow: D -> F, ofNat64: nat -> D)
}
