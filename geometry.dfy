/** Points and displacements in the arena plane, over the reals. */
module Geometry {

  /** A 2D point or displacement (one row of an N x 2 coordinate array). */
  datatype Vec = Vec(x: real, y: real)

  const Zero: Vec := Vec(0.0, 0.0)

  function Add(a: Vec, b: Vec): Vec
  {
    Vec(a.x + b.x, a.y + b.y)
  }

  /** The zero vector is the identity of addition, on either side. */
  lemma AddZero(u: Vec)
    ensures Add(u, Zero) == u && Add(Zero, u) == u
  {
  }

  function Sub(a: Vec, b: Vec): Vec
  {
    Vec(a.x - b.x, a.y - b.y)
  }

  /** Subtracting the zero vector changes nothing. */
  lemma SubZero(u: Vec)
    ensures Sub(u, Zero) == u
  {
  }

  /** Multiplies both coordinates by `k`. */
  function Scale(v: Vec, k: real): Vec
  {
    Vec(v.x * k, v.y * k)
  }

  /** Divides both coordinates by `k` (numpy's broadcast division by a column). */
  function Div(v: Vec, k: real): Vec
    requires k != 0.0
  {
    Vec(v.x / k, v.y / k)
  }

  /** The zero vector divided by any non-zero number is the zero vector. */
  lemma DivZero(k: real)
    requires k != 0.0
    ensures Div(Zero, k) == Zero
  {
  }

  /**
   * The Euclidean length of a vector (the square root of the sum of its
   * squared coordinates, in floating point), left abstract: any function that
   * never returns a negative number. Nothing else about it is relied upon.
   */
  type Norm = f: Vec -> real | forall v :: 0.0 <= f(v) witness (v: Vec) => 0.0

  /** The length of `v` under `norm`. */
  function Dist(norm: Norm, v: Vec): (d: real)
    ensures 0.0 <= d
  {
    norm(v)
  }
}
