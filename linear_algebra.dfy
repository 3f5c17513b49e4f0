/**
 * The small vector and matrix types the core computes with (`Vector3`,
 * `Matrix33`, `Matrix44`), as values with component-wise operations.
 */
module LinearAlgebra {
  import opened MathFunctions

  datatype Vector3 = Vector3(x: real, y: real, z: real)

  function Zero3(): Vector3 { Vector3(0.0, 0.0, 0.0) }

  function Add(a: Vector3, b: Vector3): Vector3 { Vector3(a.x + b.x, a.y + b.y, a.z + b.z) }

  function Sub(a: Vector3, b: Vector3): Vector3 { Vector3(a.x - b.x, a.y - b.y, a.z - b.z) }

  /** `v * s`, every component multiplied by the scalar `s`. */
  function Scale(v: Vector3, s: real): Vector3 { Vector3(v.x * s, v.y * s, v.z * s) }

  function Dot(a: Vector3, b: Vector3): real { a.x * b.x + a.y * b.y + a.z * b.z }

  function Cross(a: Vector3, b: Vector3): Vector3
  {
    Vector3(a.y * b.z - a.z * b.y, a.z * b.x - a.x * b.z, a.x * b.y - a.y * b.x)
  }

  function Max(a: real, b: real): real { if a >= b then a else b }

  function Min(a: real, b: real): real { if a <= b then a else b }

  /** Component-wise maximum, as `np.maximum`. */
  function Maximum(a: Vector3, b: Vector3): Vector3 { Vector3(Max(a.x, b.x), Max(a.y, b.y), Max(a.z, b.z)) }

  /** Component-wise minimum, as `np.minimum`. */
  function Minimum(a: Vector3, b: Vector3): Vector3 { Vector3(Min(a.x, b.x), Min(a.y, b.y), Min(a.z, b.z)) }

  /** `a <= b` in every component. */
  predicate LessEq(a: Vector3, b: Vector3) { a.x <= b.x && a.y <= b.y && a.z <= b.z }

  function Length(m: Maths, v: Vector3): real { m.sqrt(Dot(v, v)) }

  /** `v / |v|`; a zero-length vector is returned unchanged. */
  function Normalized(m: Maths, v: Vector3): Vector3
  {
    var l := Length(m, v);
    if l != 0.0 then Scale(v, 1.0 / l) else v
  }

  /** A 3x3 matrix; `mij` is row i, column j (1-based). */
  datatype Matrix33 = Matrix33(m11: real, m12: real, m13: real,
                               m21: real, m22: real, m23: real,
                               m31: real, m32: real, m33: real)

  function Identity33(): Matrix33 { Matrix33(1.0, 0.0, 0.0, 0.0, 1.0, 0.0, 0.0, 0.0, 1.0) }

  /** `r @ v`. */
  function Apply33(r: Matrix33, v: Vector3): Vector3
  {
    Vector3(r.m11 * v.x + r.m12 * v.y + r.m13 * v.z,
            r.m21 * v.x + r.m22 * v.y + r.m23 * v.z,
            r.m31 * v.x + r.m32 * v.y + r.m33 * v.z)
  }

  predicate Is4x4(s: seq<seq<real>>) { |s| == 4 && forall i :: 0 <= i < 4 ==> |s[i]| == 4 }

  /** A 4x4 homogeneous matrix, row-major. */
  type Matrix44 = s: seq<seq<real>> | Is4x4(s)
    witness [[1.0, 0.0, 0.0, 0.0], [0.0, 1.0, 0.0, 0.0], [0.0, 0.0, 1.0, 0.0], [0.0, 0.0, 0.0, 1.0]]

  function Identity44(): Matrix44
  {
    [[1.0, 0.0, 0.0, 0.0], [0.0, 1.0, 0.0, 0.0], [0.0, 0.0, 1.0, 0.0], [0.0, 0.0, 0.0, 1.0]]
  }

  /** `a @ b`. */
  function MatMul44(a: Matrix44, b: Matrix44): Matrix44
  {
    seq(4, i requires 0 <= i < 4 =>
      seq(4, j requires 0 <= j < 4 =>
        a[i][0] * b[0][j] + a[i][1] * b[1][j] + a[i][2] * b[2][j] + a[i][3] * b[3][j]))
  }

  /** `h[0:3, 0:3]`. */
  function Rotation(h: Matrix44): Matrix33
  {
    Matrix33(h[0][0], h[0][1], h[0][2], h[1][0], h[1][1], h[1][2], h[2][0], h[2][1], h[2][2])
  }

  /** `h[0:3, 3]`. */
  function Translation(h: Matrix44): Vector3 { Vector3(h[0][3], h[1][3], h[2][3]) }

  /** The homogeneous matrix with rotation block `r`, translation column `v` and last row `0 0 0 1`. */
  function Homogeneous(r: Matrix33, v: Vector3): Matrix44
  {
    [[r.m11, r.m12, r.m13, v.x], [r.m21, r.m22, r.m23, v.y], [r.m31, r.m32, r.m33, v.z], [0.0, 0.0, 0.0, 1.0]]
  }

  /** `Matrix44.fromTranslation(v)`: the identity with `v` in column 3. */
  function FromTranslation(v: Vector3): Matrix44 { Homogeneous(Identity33(), v) }

  /** The homogeneous matrix of the identity rotation and the zero vector is the 4x4 identity. */
  lemma HomogeneousIdentity()
    ensures Homogeneous(Identity33(), Zero3()) == Identity44()
  {
    var r := Identity33();
    assert r.m11 == 1.0 && r.m12 == 0.0;
  }
}
