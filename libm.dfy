/** The floating-point library both variants call: Rust's `f32::sin_cos` and `f32::sqrt`,
    C's `sinf`, `cosf` and `sqrtf`. The model does not interpret these functions; it takes
    them as a value, and a lemma that needs a fact about them states that fact in its
    `requires` at the one argument where it is used. */
module Libm {

  datatype Ops = Ops(sin: real -> real, cos: real -> real, sqrt: real -> real)

  /** sin²(a) + cos²(a) = 1 */
  predicate Pythagorean(m: Ops, a: real)
  {
    m.sin(a) * m.sin(a) + m.cos(a) * m.cos(a) == 1.0
  }

  /** sin is odd and cos is even at a */
  predicate Symmetric(m: Ops, a: real)
  {
    m.sin(-a) == -m.sin(a) && m.cos(-a) == m.cos(a)
  }

  /** sqrt(t) is the positive square root of t */
  predicate SqrtAt(m: Ops, t: real)
  {
    m.sqrt(t) > 0.0 && m.sqrt(t) * m.sqrt(t) == t
  }
}
