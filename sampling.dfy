/**
 * The random sources of the instance generators.
 *
 * `std::mt19937` is not reproduced. A seeded engine is modelled as the
 * stream of canonical samples it feeds to `std::uniform_real_distribution`:
 * one sample in [0, 1) per distribution call, in call order. A distribution
 * over [a, b) maps a canonical sample u to a + u * (b - a).
 */
module Sampling {

  /** A canonical sample: a real in [0, 1). */
  type Unit = u: real | 0.0 <= u < 1.0

  /** The canonical samples an engine produces, in order. */
  type Stream = nat -> Unit

  /** An engine: the sample stream for each seed. */
  type Engine = int -> Stream

  /** `uniform_real_distribution(a, b)` applied to canonical sample u. */
  function Uniform(a: real, b: real, u: Unit): (r: real)
    ensures a <= b ==> a <= r <= b
    ensures a < b ==> r < b
    ensures a == b ==> r == a
  {
    ScaledBelowWidth(u, a, b);
    a + u * (b - a)
  }

  lemma ScaledBelowWidth(u: real, a: real, b: real)
    requires 0.0 <= u < 1.0
    ensures a <= b ==> 0.0 <= u * (b - a) <= b - a
    ensures a < b ==> u * (b - a) < b - a
  {
    if a < b {
      PositiveProduct(1.0 - u, b - a);
      assert (1.0 - u) * (b - a) == (b - a) - u * (b - a);
    }
    if a <= b {
      NonNegativeProduct(u, b - a);
    }
  }

  lemma PositiveProduct(x: real, y: real)
    requires x > 0.0 && y > 0.0
    ensures x * y > 0.0
  {
  }

  lemma NonNegativeProduct(x: real, y: real)
    requires x >= 0.0 && y >= 0.0
    ensures x * y >= 0.0
  {
  }
}
