/**
 * The transcendental functions the code calls (Math.atan2, Math.sin,
 * Math.cos, Math.sqrt) are left abstract: a `MathLib` is any choice of them,
 * and the few facts a proof needs are stated as predicates over that choice.
 */
module RealMath {

  datatype MathLib = MathLib(
    atan2: (real, real) -> real,
    sin: real -> real,
    cos: real -> real,
    sqrt: real -> real)

  /** Square root of a positive number: positive, and it squares back. */
  ghost predicate SqrtSound(m: MathLib) {
    forall s: real {:trigger m.sqrt(s)} :: s > 0.0 ==> m.sqrt(s) > 0.0 && m.sqrt(s) * m.sqrt(s) == s
  }

  /** sin^2 + cos^2 = 1 at every angle. */
  ghost predicate PythagoreanIdentity(m: MathLib) {
    forall t: real {:trigger m.sin(t)} :: m.sin(t) * m.sin(t) + m.cos(t) * m.cos(t) == 1.0
  }
}
