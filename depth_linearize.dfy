/**
 * Depth-linearisation parameters with sign normalisation.
 *
 * The same rule appears in the debug visualizer (near and far scene) and in
 * the cloud volumes: take mul = -proj[3][2] and add = proj[2][2], and flip
 * the sign of add when the two disagree, so that the shader's
 * `mul / (add - depth)` has a consistent sign for either handedness.
 * Single-precision arithmetic is modelled over the reals.
 */
module DepthLinearize {
  import opened Gpu
  import opened Numeric

  datatype Params = Params(mul: real, add: real)

  function Linearize(proj: Mat4): (p: Params)
    ensures p.mul == -proj[3][2]
    ensures p.mul * p.add >= 0.0
    ensures p.add == proj[2][2] || p.add == -proj[2][2]
    /** add is negated exactly when the raw pair disagrees in sign */
    ensures p.add != proj[2][2] <==> -proj[3][2] * proj[2][2] < 0.0
  {
    var mul := -proj[3][2];
    var add := proj[2][2];
    if mul * add < 0.0 then
      assert mul * -add == -(mul * add);
      Params(mul, -add)
    else
      Params(mul, add)
  }

  /** The magnitude of add is always that of proj[2][2]; only its sign moves. */
  lemma LinearizeKeepsMagnitude(proj: Mat4)
    ensures Abs(Linearize(proj).add) == Abs(proj[2][2])
    ensures Abs(Linearize(proj).mul) == Abs(proj[3][2])
  {
  }

  /** Normalising twice changes nothing: a pair that already agrees in sign is kept. */
  lemma LinearizeIdempotent(proj: Mat4, again: Mat4)
    requires again[3][2] == proj[3][2] && again[2][2] == Linearize(proj).add
    ensures Linearize(again) == Linearize(proj)
  {
  }
}
