/**
 * Value types shared by the recorder, the replayer and the mesh generator.
 * Unity's float vectors, matrices and colours become exact values here; the
 * float arithmetic itself (rotations, normalisation) is supplied by callers.
 */
module Geometry {

  /** A point or direction (`Vector3`). */
  datatype Vec = Vec(x: real, y: real, z: real)

  function Add(a: Vec, b: Vec): Vec {
    Vec(a.x + b.x, a.y + b.y, a.z + b.z)
  }

  function Neg(v: Vec): Vec {
    Vec(-v.x, -v.y, -v.z)
  }

  function Scale(v: Vec, k: real): Vec {
    Vec(k * v.x, k * v.y, k * v.z)
  }

  /**
   * A 4x4 transform (`Matrix4x4`), kept symbolic: `Given` stands for a matrix
   * computed outside the model (a TRS, a transform's localToWorldMatrix) and
   * `Product` for the matrix product `left * right`.
   */
  datatype Matrix = Identity | Given(id: nat) | Product(left: Matrix, right: Matrix)

  /** A straight-alpha RGBA colour (`Color`). */
  datatype Color = Color(r: real, g: real, b: real, a: real)

  const White := Color(1.0, 1.0, 1.0, 1.0)

  /** `Color.WithAlpha`: the same colour with its alpha replaced. */
  function WithAlpha(c: Color, alpha: real): (w: Color)
    ensures w.a == alpha
    ensures w.r == c.r && w.g == c.g && w.b == c.b
    ensures w == c <==> alpha == c.a
  {
    c.(a := alpha)
  }

  /** An opaque handle to externally owned geometry (`Mesh`). */
  type MeshId = nat

  /** A recorded line segment, in the space of the matrix active when it was recorded. */
  datatype Line = Line(a: Vec, b: Vec)
}
