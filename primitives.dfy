/**
 * Number and string refinements shared by the Zod schemas.
 * JSON numbers are modelled as exact reals; `z.number().int()` is integrality of the real.
 * `z.string().datetime()` is not re-derived: every schema predicate takes the datetime
 * check as a parameter, so each property proved holds for any such check.
 */
module Primitives {

  /** The format check behind `z.string().datetime()`, left abstract. */
  type DateTimeCheck = string -> bool

  /** `z.number().int()` */
  predicate IsInt(x: real) {
    x.Floor as real == x
  }

  /** `z.number().int().nonnegative()` */
  predicate IsNonNegativeInt(x: real) {
    IsInt(x) && x >= 0.0
  }

  /** `z.number().int().positive()` */
  predicate IsPositiveInt(x: real) {
    IsInt(x) && x > 0.0
  }

  lemma NaturalIsNonNegativeInt(n: nat)
    ensures IsNonNegativeInt(n as real)
  {
  }
}
