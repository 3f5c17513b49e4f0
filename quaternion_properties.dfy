/**
 * Properties of the quaternion operations: the algebra of the Hamilton product,
 * conjugation and normalisation, rotation, and the matrix and axis-angle conversions.
 */
module QuaternionProperties {
  import opened Results
  import opened MathFunctions
  import opened LinearAlgebra
  import opened Quaternions

  // ---------------------------------------------------------------------------
  // The Hamilton product

  /** The product written out component by component. */
  function Hamilton(a: Quaternion, b: Quaternion): Quaternion
  {
    Quaternion(a.w * b.w - a.x * b.x - a.y * b.y - a.z * b.z,
               a.w * b.x + b.w * a.x + (a.y * b.z - a.z * b.y),
               a.w * b.y + b.w * a.y + (a.z * b.x - a.x * b.z),
               a.w * b.z + b.w * a.z + (a.x * b.y - a.y * b.x))
  }

  /** The components of one product, for proofs that keep `Hamilton` folded elsewhere. */
  lemma HamiltonUnfold(a: Quaternion, b: Quaternion)
    ensures Hamilton(a, b).w == a.w * b.w - a.x * b.x - a.y * b.y - a.z * b.z
    ensures Hamilton(a, b).x == a.w * b.x + b.w * a.x + (a.y * b.z - a.z * b.y)
    ensures Hamilton(a, b).y == a.w * b.y + b.w * a.y + (a.z * b.x - a.x * b.z)
    ensures Hamilton(a, b).z == a.w * b.z + b.w * a.z + (a.x * b.y - a.y * b.x)
  {
  }

  /** The dot-and-cross form of the product agrees with the component form. */
  lemma MulComponents(a: Quaternion, b: Quaternion)
    ensures Mul(a, b) == Hamilton(a, b)
  {
  }

  /** `identity()` is a left and a right unit of the product. */
  lemma IdentityIsUnit(q: Quaternion)
    ensures Mul(Identity(), q) == q
    ensures Mul(q, Identity()) == q
  {
  }

  /**
   * The polynomial identity behind component `w` of associativity, with `p = a b`
   * and `q = b c` (index 0 is `w`, then `x`, `y`, `z`).
   */
  lemma RingW(a0: real, a1: real, a2: real, a3: real, b0: real, b1: real, b2: real, b3: real,
              c0: real, c1: real, c2: real, c3: real, p0: real, p1: real, p2: real, p3: real,
              q0: real, q1: real, q2: real, q3: real)
    requires p0 == a0 * b0 - a1 * b1 - a2 * b2 - a3 * b3
    requires p1 == a0 * b1 + b0 * a1 + (a2 * b3 - a3 * b2)
    requires p2 == a0 * b2 + b0 * a2 + (a3 * b1 - a1 * b3)
    requires p3 == a0 * b3 + b0 * a3 + (a1 * b2 - a2 * b1)
    requires q0 == b0 * c0 - b1 * c1 - b2 * c2 - b3 * c3
    requires q1 == b0 * c1 + c0 * b1 + (b2 * c3 - b3 * c2)
    requires q2 == b0 * c2 + c0 * b2 + (b3 * c1 - b1 * c3)
    requires q3 == b0 * c3 + c0 * b3 + (b1 * c2 - b2 * c1)
    ensures p0 * c0 - p1 * c1 - p2 * c2 - p3 * c3 == a0 * q0 - a1 * q1 - a2 * q2 - a3 * q3
  {
  }

  lemma AssociativeW(a: Quaternion, b: Quaternion, c: Quaternion)
    ensures Hamilton(Hamilton(a, b), c).w == Hamilton(a, Hamilton(b, c)).w
  {
    hide Hamilton;
    var p, q := Hamilton(a, b), Hamilton(b, c);
    HamiltonUnfold(a, b);
    HamiltonUnfold(b, c);
    HamiltonUnfold(p, c);
    HamiltonUnfold(a, q);
    RingW(a.w, a.x, a.y, a.z, b.w, b.x, b.y, b.z, c.w, c.x, c.y, c.z, p.w, p.x, p.y, p.z, q.w, q.x, q.y, q.z);
  }

  /**
   * The polynomial identity behind component `x` of associativity, with `p = a b`
   * and `q = b c` (index 0 is `w`, then `x`, `y`, `z`).
   */
  lemma RingX(a0: real, a1: real, a2: real, a3: real, b0: real, b1: real, b2: real, b3: real,
              c0: real, c1: real, c2: real, c3: real, p0: real, p1: real, p2: real, p3: real,
              q0: real, q1: real, q2: real, q3: real)
    requires p0 == a0 * b0 - a1 * b1 - a2 * b2 - a3 * b3
    requires p1 == a0 * b1 + b0 * a1 + (a2 * b3 - a3 * b2)
    requires p2 == a0 * b2 + b0 * a2 + (a3 * b1 - a1 * b3)
    requires p3 == a0 * b3 + b0 * a3 + (a1 * b2 - a2 * b1)
    requires q0 == b0 * c0 - b1 * c1 - b2 * c2 - b3 * c3
    requires q1 == b0 * c1 + c0 * b1 + (b2 * c3 - b3 * c2)
    requires q2 == b0 * c2 + c0 * b2 + (b3 * c1 - b1 * c3)
    requires q3 == b0 * c3 + c0 * b3 + (b1 * c2 - b2 * c1)
    ensures p0 * c1 + c0 * p1 + (p2 * c3 - p3 * c2) == a0 * q1 + q0 * a1 + (a2 * q3 - a3 * q2)
  {
  }

  lemma AssociativeX(a: Quaternion, b: Quaternion, c: Quaternion)
    ensures Hamilton(Hamilton(a, b), c).x == Hamilton(a, Hamilton(b, c)).x
  {
    hide Hamilton;
    var p, q := Hamilton(a, b), Hamilton(b, c);
    HamiltonUnfold(a, b);
    HamiltonUnfold(b, c);
    HamiltonUnfold(p, c);
    HamiltonUnfold(a, q);
    RingX(a.w, a.x, a.y, a.z, b.w, b.x, b.y, b.z, c.w, c.x, c.y, c.z, p.w, p.x, p.y, p.z, q.w, q.x, q.y, q.z);
  }

  /**
   * The polynomial identity behind component `y` of associativity, with `p = a b`
   * and `q = b c` (index 0 is `w`, then `x`, `y`, `z`).
   */
  lemma RingY(a0: real, a1: real, a2: real, a3: real, b0: real, b1: real, b2: real, b3: real,
              c0: real, c1: real, c2: real, c3: real, p0: real, p1: real, p2: real, p3: real,
              q0: real, q1: real, q2: real, q3: real)
    requires p0 == a0 * b0 - a1 * b1 - a2 * b2 - a3 * b3
    requires p1 == a0 * b1 + b0 * a1 + (a2 * b3 - a3 * b2)
    requires p2 == a0 * b2 + b0 * a2 + (a3 * b1 - a1 * b3)
    requires p3 == a0 * b3 + b0 * a3 + (a1 * b2 - a2 * b1)
    requires q0 == b0 * c0 - b1 * c1 - b2 * c2 - b3 * c3
    requires q1 == b0 * c1 + c0 * b1 + (b2 * c3 - b3 * c2)
    requires q2 == b0 * c2 + c0 * b2 + (b3 * c1 - b1 * c3)
    requires q3 == b0 * c3 + c0 * b3 + (b1 * c2 - b2 * c1)
    ensures p0 * c2 + c0 * p2 + (p3 * c1 - p1 * c3) == a0 * q2 + q0 * a2 + (a3 * q1 - a1 * q3)
  {
  }

  lemma AssociativeY(a: Quaternion, b: Quaternion, c: Quaternion)
    ensures Hamilton(Hamilton(a, b), c).y == Hamilton(a, Hamilton(b, c)).y
  {
    hide Hamilton;
    var p, q := Hamilton(a, b), Hamilton(b, c);
    HamiltonUnfold(a, b);
    HamiltonUnfold(b, c);
    HamiltonUnfold(p, c);
    HamiltonUnfold(a, q);
    RingY(a.w, a.x, a.y, a.z, b.w, b.x, b.y, b.z, c.w, c.x, c.y, c.z, p.w, p.x, p.y, p.z, q.w, q.x, q.y, q.z);
  }

  /**
   * The polynomial identity behind component `z` of associativity, with `p = a b`
   * and `q = b c` (index 0 is `w`, then `x`, `y`, `z`).
   */
  lemma RingZ(a0: real, a1: real, a2: real, a3: real, b0: real, b1: real, b2: real, b3: real,
              c0: real, c1: real, c2: real, c3: real, p0: real, p1: real, p2: real, p3: real,
              q0: real, q1: real, q2: real, q3: real)
    requires p0 == a0 * b0 - a1 * b1 - a2 * b2 - a3 * b3
    requires p1 == a0 * b1 + b0 * a1 + (a2 * b3 - a3 * b2)
    requires p2 == a0 * b2 + b0 * a2 + (a3 * b1 - a1 * b3)
    requires p3 == a0 * b3 + b0 * a3 + (a1 * b2 - a2 * b1)
    requires q0 == b0 * c0 - b1 * c1 - b2 * c2 - b3 * c3
    requires q1 == b0 * c1 + c0 * b1 + (b2 * c3 - b3 * c2)
    requires q2 == b0 * c2 + c0 * b2 + (b3 * c1 - b1 * c3)
    requires q3 == b0 * c3 + c0 * b3 + (b1 * c2 - b2 * c1)
    ensures p0 * c3 + c0 * p3 + (p1 * c2 - p2 * c1) == a0 * q3 + q0 * a3 + (a1 * q2 - a2 * q1)
  {
  }

  lemma AssociativeZ(a: Quaternion, b: Quaternion, c: Quaternion)
    ensures Hamilton(Hamilton(a, b), c).z == Hamilton(a, Hamilton(b, c)).z
  {
    hide Hamilton;
    var p, q := Hamilton(a, b), Hamilton(b, c);
    HamiltonUnfold(a, b);
    HamiltonUnfold(b, c);
    HamiltonUnfold(p, c);
    HamiltonUnfold(a, q);
    RingZ(a.w, a.x, a.y, a.z, b.w, b.x, b.y, b.z, c.w, c.x, c.y, c.z, p.w, p.x, p.y, p.z, q.w, q.x, q.y, q.z);
  }

  /** The Hamilton product is associative. */
  lemma MulAssociative(a: Quaternion, b: Quaternion, c: Quaternion)
    ensures Mul(Mul(a, b), c) == Mul(a, Mul(b, c))
  {
    MulComponents(a, b);
    MulComponents(b, c);
    MulComponents(Mul(a, b), c);
    MulComponents(a, Mul(b, c));
    AssociativeW(a, b, c);
    AssociativeX(a, b, c);
    AssociativeY(a, b, c);
    AssociativeZ(a, b, c);
  }

  // ---------------------------------------------------------------------------
  // Conjugate, norm, normalisation and inverse

  /** `conjugate` keeps `w`, negates exactly the vector part, and is an involution. */
  lemma ConjugateInvolution(q: Quaternion)
    ensures Conjugate(q).w == q.w && Conjugate(q).Axis() == Scale(q.Axis(), -1.0)
    ensures Conjugate(Conjugate(q)) == q
  {
  }

  /**
   * The polynomial identities behind the conjugate of a product, with `p' = conj p`
   * and `q' = conj q` (index 0 is `w`, then `x`, `y`, `z`).
   */
  lemma ConjugateProductRing(p0: real, p1: real, p2: real, p3: real, q0: real, q1: real, q2: real, q3: real,
                             cp0: real, cp1: real, cp2: real, cp3: real, cq0: real, cq1: real, cq2: real, cq3: real)
    requires cp0 == p0 && cp1 == -p1 && cp2 == -p2 && cp3 == -p3
    requires cq0 == q0 && cq1 == -q1 && cq2 == -q2 && cq3 == -q3
    ensures p0 * q0 - p1 * q1 - p2 * q2 - p3 * q3 == cq0 * cp0 - cq1 * cp1 - cq2 * cp2 - cq3 * cp3
    ensures -(p0 * q1 + q0 * p1 + (p2 * q3 - p3 * q2)) == cq0 * cp1 + cp0 * cq1 + (cq2 * cp3 - cq3 * cp2)
    ensures -(p0 * q2 + q0 * p2 + (p3 * q1 - p1 * q3)) == cq0 * cp2 + cp0 * cq2 + (cq3 * cp1 - cq1 * cp3)
    ensures -(p0 * q3 + q0 * p3 + (p1 * q2 - p2 * q1)) == cq0 * cp3 + cp0 * cq3 + (cq1 * cp2 - cq2 * cp1)
  {
  }

  /** The conjugate of a product is the product of the conjugates in reverse order. */
  lemma ConjugateOfProduct(p: Quaternion, q: Quaternion)
    ensures Conjugate(Mul(p, q)) == Mul(Conjugate(q), Conjugate(p))
  {
    MulComponents(p, q);
    MulComponents(Conjugate(q), Conjugate(p));
    var cp, cq := Conjugate(p), Conjugate(q);
    ConjugateProductRing(p.w, p.x, p.y, p.z, q.w, q.x, q.y, q.z, cp.w, cp.x, cp.y, cp.z, cq.w, cq.x, cq.y, cq.z);
  }

  /** The polynomial identities behind `q * conj q` and `conj q * q`. */
  lemma NormRing(q0: real, q1: real, q2: real, q3: real, c0: real, c1: real, c2: real, c3: real)
    requires c0 == q0 && c1 == -q1 && c2 == -q2 && c3 == -q3
    ensures q0 * c0 - q1 * c1 - q2 * c2 - q3 * c3 == q1 * q1 + q2 * q2 + q3 * q3 + q0 * q0
    ensures c0 * q0 - c1 * q1 - c2 * q2 - c3 * q3 == q1 * q1 + q2 * q2 + q3 * q3 + q0 * q0
    ensures q0 * c1 + c0 * q1 + (q2 * c3 - q3 * c2) == 0.0 && c0 * q1 + q0 * c1 + (c2 * q3 - c3 * q2) == 0.0
    ensures q0 * c2 + c0 * q2 + (q3 * c1 - q1 * c3) == 0.0 && c0 * q2 + q0 * c2 + (c3 * q1 - c1 * q3) == 0.0
    ensures q0 * c3 + c0 * q3 + (q1 * c2 - q2 * c1) == 0.0 && c0 * q3 + q0 * c3 + (c1 * q2 - c2 * q1) == 0.0
    ensures c1 * c1 + c2 * c2 + c3 * c3 + c0 * c0 == q1 * q1 + q2 * q2 + q3 * q3 + q0 * q0
  {
  }

  /** `q * conjugate(q)` and `conjugate(q) * q` are the real quaternion `|q|²`. */
  lemma MulConjugate(q: Quaternion)
    ensures Mul(q, Conjugate(q)) == Quaternion(NormSquared(q), 0.0, 0.0, 0.0)
    ensures Mul(Conjugate(q), q) == Quaternion(NormSquared(q), 0.0, 0.0, 0.0)
  {
    MulComponents(q, Conjugate(q));
    MulComponents(Conjugate(q), q);
    var c := Conjugate(q);
    NormRing(q.w, q.x, q.y, q.z, c.w, c.x, c.y, c.z);
  }

  /** The conjugate has the same squared length. */
  lemma NormSquaredConjugate(q: Quaternion)
    ensures NormSquared(Conjugate(q)) == NormSquared(q)
  {
    var c := Conjugate(q);
    NormRing(q.w, q.x, q.y, q.z, c.w, c.x, c.y, c.z);
  }

  /** The squared length is never negative, so `magnitude` takes a square root in its domain. */
  lemma NormSquaredNonNegative(q: Quaternion)
    ensures 0.0 <= NormSquared(q)
  {
    SquareNonNegative(q.x);
    SquareNonNegative(q.y);
    SquareNonNegative(q.z);
    SquareNonNegative(q.w);
  }

  /** `normalize` of the zero quaternion is the zero quaternion. */
  lemma NormalizeZero(m: Maths)
    requires m.sqrt(0.0) == 0.0
    ensures Normalize(m, ZeroQuaternion()) == ZeroQuaternion()
  {
    var z := ZeroQuaternion();
    assert z.x == 0.0 && z.y == 0.0 && z.z == 0.0 && z.w == 0.0;
    assert NormSquared(z) == 0.0;
  }

  /** The polynomial identity behind normalisation: the quotients by the length have unit squared length. */
  lemma UnitQuotients(a: real, b: real, c: real, d: real, l: real, ua: real, ub: real, uc: real, ud: real)
    requires 0.0 < l && l * l == a * a + b * b + c * c + d * d
    requires ua == a / l && ub == b / l && uc == c / l && ud == d / l
    ensures ua * ua + ub * ub + uc * uc + ud * ud == 1.0
  {
    var k := 1.0 / l;
    assert l * k == 1.0;
    assert ua == a * k && ub == b * k && uc == c * k && ud == d * k;
    calc {
      ua * ua + ub * ub + uc * uc + ud * ud;
      (a * a + b * b + c * c + d * d) * (k * k);
      (l * l) * (k * k);
      (l * k) * (l * k);
      1.0;
    }
  }

  /** A quaternion of non-zero length, divided by that length, has length one. */
  lemma NormalizeIsUnit(m: Maths, q: Quaternion)
    requires SqrtLaw(m)
    requires Magnitude(m, q) != 0.0
    ensures NormSquared(Normalize(m, q)) == 1.0
    ensures Magnitude(m, Normalize(m, q)) == 1.0
  {
    NormSquaredNonNegative(q);
    var l := Magnitude(m, q);
    var u := Normalize(m, q);
    UnitQuotients(q.x, q.y, q.z, q.w, l, u.x, u.y, u.z, u.w);
    SqrtAtSquares(m);
  }

  /** For a unit quaternion the inverse is the conjugate, and `q * q.inverse()` is the identity. */
  lemma InverseOfUnit(m: Maths, q: Quaternion)
    requires m.sqrt(1.0) == 1.0
    requires NormSquared(q) == 1.0
    ensures Inverse(m, q) == Conjugate(q)
    ensures Mul(q, Inverse(m, q)) == Identity()
    ensures Mul(Inverse(m, q), q) == Identity()
  {
    NormSquaredConjugate(q);
    assert Magnitude(m, Conjugate(q)) == 1.0;
    MulConjugate(q);
  }

  // ---------------------------------------------------------------------------
  // Rotation

  /** The identity is its own inverse. */
  lemma InverseOfIdentity(m: Maths)
    requires m.sqrt(1.0) == 1.0
    ensures Inverse(m, Identity()) == Identity()
  {
    var one := Identity();
    assert one.w == 1.0 && one.x == 0.0 && one.y == 0.0 && one.z == 0.0;
    assert NormSquared(one) == 1.0;
    InverseOfUnit(m, one);
  }

  /** Rotating by the identity leaves every point unchanged. */
  lemma RotateByIdentity(m: Maths, p: Vector3)
    requires m.sqrt(1.0) == 1.0
    ensures Rotate(m, Identity(), p) == p
  {
    InverseOfIdentity(m);
    IdentityIsUnit(PureQuaternion(p));
  }

  /** Every quaternion rotates the origin to the origin. */
  lemma RotateZero(m: Maths, q: Quaternion)
    ensures Rotate(m, q, Zero3()) == Zero3()
  {
    MulComponents(q, PureQuaternion(Zero3()));
    assert Mul(q, PureQuaternion(Zero3())) == ZeroQuaternion();
    MulComponents(ZeroQuaternion(), Inverse(m, q));
  }

  // ---------------------------------------------------------------------------
  // Rotation by a product

  /** Every component multiplied by `s`. */
  function ScaleQ(q: Quaternion, s: real): Quaternion { Quaternion(q.w * s, q.x * s, q.y * s, q.z * s) }

  /** The component-wise sum of two quaternions. */
  function AddQ(a: Quaternion, b: Quaternion): Quaternion { Quaternion(a.w + b.w, a.x + b.x, a.y + b.y, a.z + b.z) }

  /** The factor `inverse` applies to the conjugate: one over the length, or zero for length zero. */
  function InverseFactor(m: Maths, q: Quaternion): real
  {
    if Magnitude(m, q) != 0.0 then 1.0 / Magnitude(m, q) else 0.0
  }

  /** `inverse()` is the conjugate scaled by `InverseFactor`. */
  lemma InverseIsScaledConjugate(m: Maths, q: Quaternion)
    ensures Inverse(m, q) == ScaleQ(Conjugate(q), InverseFactor(m, q))
  {
    NormSquaredConjugate(q);
    assert Magnitude(m, Conjugate(q)) == Magnitude(m, q);
  }

  /**
   * The polynomial identity behind scaling one factor of a product, for the
   * scalar part: with `c = s a`, `d = s b` and `r` the scalar part of `a b`,
   * the scalar parts of `c b` and of `a d` are `s r`. The scaled components
   * and `r` are plain variables so that callers match them term by term.
   */
  lemma RingScaleW(a0: real, a1: real, a2: real, a3: real, b0: real, b1: real, b2: real, b3: real, s: real,
                    c0: real, c1: real, c2: real, c3: real, d0: real, d1: real, d2: real, d3: real, r: real)
    requires c0 == a0 * s && c1 == a1 * s && c2 == a2 * s && c3 == a3 * s
    requires d0 == b0 * s && d1 == b1 * s && d2 == b2 * s && d3 == b3 * s
    requires r == a0 * b0 - a1 * b1 - a2 * b2 - a3 * b3
    ensures c0 * b0 - c1 * b1 - c2 * b2 - c3 * b3 == r * s
    ensures a0 * d0 - a1 * d1 - a2 * d2 - a3 * d3 == r * s
  {
  }

  /** As `RingScaleW`, for the x part. */
  lemma RingScaleX(a0: real, a1: real, a2: real, a3: real, b0: real, b1: real, b2: real, b3: real, s: real,
                    c0: real, c1: real, c2: real, c3: real, d0: real, d1: real, d2: real, d3: real, r: real)
    requires c0 == a0 * s && c1 == a1 * s && c2 == a2 * s && c3 == a3 * s
    requires d0 == b0 * s && d1 == b1 * s && d2 == b2 * s && d3 == b3 * s
    requires r == a0 * b1 + b0 * a1 + (a2 * b3 - a3 * b2)
    ensures c0 * b1 + b0 * c1 + (c2 * b3 - c3 * b2) == r * s
    ensures a0 * d1 + d0 * a1 + (a2 * d3 - a3 * d2) == r * s
  {
  }

  /** As `RingScaleW`, for the y part. */
  lemma RingScaleY(a0: real, a1: real, a2: real, a3: real, b0: real, b1: real, b2: real, b3: real, s: real,
                    c0: real, c1: real, c2: real, c3: real, d0: real, d1: real, d2: real, d3: real, r: real)
    requires c0 == a0 * s && c1 == a1 * s && c2 == a2 * s && c3 == a3 * s
    requires d0 == b0 * s && d1 == b1 * s && d2 == b2 * s && d3 == b3 * s
    requires r == a0 * b2 + b0 * a2 + (a3 * b1 - a1 * b3)
    ensures c0 * b2 + b0 * c2 + (c3 * b1 - c1 * b3) == r * s
    ensures a0 * d2 + d0 * a2 + (a3 * d1 - a1 * d3) == r * s
  {
  }

  /** As `RingScaleW`, for the z part. */
  lemma RingScaleZ(a0: real, a1: real, a2: real, a3: real, b0: real, b1: real, b2: real, b3: real, s: real,
                    c0: real, c1: real, c2: real, c3: real, d0: real, d1: real, d2: real, d3: real, r: real)
    requires c0 == a0 * s && c1 == a1 * s && c2 == a2 * s && c3 == a3 * s
    requires d0 == b0 * s && d1 == b1 * s && d2 == b2 * s && d3 == b3 * s
    requires r == a0 * b3 + b0 * a3 + (a1 * b2 - a2 * b1)
    ensures c0 * b3 + b0 * c3 + (c1 * b2 - c2 * b1) == r * s
    ensures a0 * d3 + d0 * a3 + (a1 * d2 - a2 * d1) == r * s
  {
  }

  /** The scalar part of a product with either factor scaled by `s` is the scalar part of the product scaled by `s`. */
  lemma ScaledProductW(a: Quaternion, b: Quaternion, s: real)
    ensures Hamilton(ScaleQ(a, s), b).w == Hamilton(a, b).w * s
    ensures Hamilton(a, ScaleQ(b, s)).w == Hamilton(a, b).w * s
  {
    var c, d := ScaleQ(a, s), ScaleQ(b, s);
    hide Hamilton;
    HamiltonUnfold(c, b);
    HamiltonUnfold(a, d);
    HamiltonUnfold(a, b);
    RingScaleW(a.w, a.x, a.y, a.z, b.w, b.x, b.y, b.z, s, c.w, c.x, c.y, c.z, d.w, d.x, d.y, d.z, Hamilton(a, b).w);
  }

  /** The x part of a product with either factor scaled by `s` is the x part of the product scaled by `s`. */
  lemma ScaledProductX(a: Quaternion, b: Quaternion, s: real)
    ensures Hamilton(ScaleQ(a, s), b).x == Hamilton(a, b).x * s
    ensures Hamilton(a, ScaleQ(b, s)).x == Hamilton(a, b).x * s
  {
    var c, d := ScaleQ(a, s), ScaleQ(b, s);
    hide Hamilton;
    HamiltonUnfold(c, b);
    HamiltonUnfold(a, d);
    HamiltonUnfold(a, b);
    RingScaleX(a.w, a.x, a.y, a.z, b.w, b.x, b.y, b.z, s, c.w, c.x, c.y, c.z, d.w, d.x, d.y, d.z, Hamilton(a, b).x);
  }

  /** The y part of a product with either factor scaled by `s` is the y part of the product scaled by `s`. */
  lemma ScaledProductY(a: Quaternion, b: Quaternion, s: real)
    ensures Hamilton(ScaleQ(a, s), b).y == Hamilton(a, b).y * s
    ensures Hamilton(a, ScaleQ(b, s)).y == Hamilton(a, b).y * s
  {
    var c, d := ScaleQ(a, s), ScaleQ(b, s);
    hide Hamilton;
    HamiltonUnfold(c, b);
    HamiltonUnfold(a, d);
    HamiltonUnfold(a, b);
    RingScaleY(a.w, a.x, a.y, a.z, b.w, b.x, b.y, b.z, s, c.w, c.x, c.y, c.z, d.w, d.x, d.y, d.z, Hamilton(a, b).y);
  }

  /** The z part of a product with either factor scaled by `s` is the z part of the product scaled by `s`. */
  lemma ScaledProductZ(a: Quaternion, b: Quaternion, s: real)
    ensures Hamilton(ScaleQ(a, s), b).z == Hamilton(a, b).z * s
    ensures Hamilton(a, ScaleQ(b, s)).z == Hamilton(a, b).z * s
  {
    var c, d := ScaleQ(a, s), ScaleQ(b, s);
    hide Hamilton;
    HamiltonUnfold(c, b);
    HamiltonUnfold(a, d);
    HamiltonUnfold(a, b);
    RingScaleZ(a.w, a.x, a.y, a.z, b.w, b.x, b.y, b.z, s, c.w, c.x, c.y, c.z, d.w, d.x, d.y, d.z, Hamilton(a, b).z);
  }

  /** Scaling the left factor of the component-form product scales the product. */
  lemma HamiltonScaleLeft(a: Quaternion, b: Quaternion, s: real)
    ensures Hamilton(ScaleQ(a, s), b) == ScaleQ(Hamilton(a, b), s)
  {
    ScaledProductW(a, b, s);
    ScaledProductX(a, b, s);
    ScaledProductY(a, b, s);
    ScaledProductZ(a, b, s);
    hide Hamilton;
  }

  /** Scaling the right factor of the component-form product scales the product. */
  lemma HamiltonScaleRight(a: Quaternion, b: Quaternion, s: real)
    ensures Hamilton(a, ScaleQ(b, s)) == ScaleQ(Hamilton(a, b), s)
  {
    ScaledProductW(a, b, s);
    ScaledProductX(a, b, s);
    ScaledProductY(a, b, s);
    ScaledProductZ(a, b, s);
    hide Hamilton;
  }

  /** The product is linear in its left factor under scaling. */
  lemma MulScaleLeft(a: Quaternion, b: Quaternion, s: real)
    ensures Mul(ScaleQ(a, s), b) == ScaleQ(Mul(a, b), s)
  {
    MulComponents(ScaleQ(a, s), b);
    MulComponents(a, b);
    HamiltonScaleLeft(a, b, s);
  }

  /** The product is linear in its right factor under scaling. */
  lemma MulScaleRight(a: Quaternion, b: Quaternion, s: real)
    ensures Mul(a, ScaleQ(b, s)) == ScaleQ(Mul(a, b), s)
  {
    MulComponents(a, ScaleQ(b, s));
    MulComponents(a, b);
    HamiltonScaleRight(a, b, s);
  }

  /** The product distributes over a sum in its left factor. */
  lemma MulAddLeft(a: Quaternion, b: Quaternion, c: Quaternion)
    ensures Mul(AddQ(a, b), c) == AddQ(Mul(a, c), Mul(b, c))
  {
    MulComponents(AddQ(a, b), c);
    MulComponents(a, c);
    MulComponents(b, c);
  }

  /** The product distributes over a sum in its right factor. */
  lemma MulAddRight(a: Quaternion, b: Quaternion, c: Quaternion)
    ensures Mul(a, AddQ(b, c)) == AddQ(Mul(a, b), Mul(a, c))
  {
    MulComponents(a, AddQ(b, c));
    MulComponents(a, b);
    MulComponents(a, c);
  }

  /** The squared length of a product is the product of the squared lengths. */
  lemma NormSquaredMul(p: Quaternion, q: Quaternion)
    ensures NormSquared(Mul(p, q)) == NormSquared(p) * NormSquared(q)
  {
    var cp, cq := Conjugate(p), Conjugate(q);
    var np, nq := NormSquared(p), NormSquared(q);
    MulConjugate(Mul(p, q));
    ConjugateOfProduct(p, q);
    MulConjugate(q);
    MulConjugate(p);
    MulAssociative(p, q, Mul(cq, cp));
    MulAssociative(q, cq, cp);
    MulScaleLeft(Identity(), cp, nq);
    IdentityIsUnit(cp);
    MulScaleRight(p, cp, nq);
    hide Mul, NormSquared;
    calc {
      Quaternion(NormSquared(Mul(p, q)), 0.0, 0.0, 0.0);
      Mul(Mul(p, q), Mul(cq, cp));
      Mul(p, Mul(Mul(q, cq), cp));
      { assert Quaternion(nq, 0.0, 0.0, 0.0) == ScaleQ(Identity(), nq); }
      Mul(p, Mul(ScaleQ(Identity(), nq), cp));
      ScaleQ(Mul(p, cp), nq);
      ScaleQ(Quaternion(np, 0.0, 0.0, 0.0), nq);
    }
  }

  /** With `x = a²` and `y = b²`, the square of `a b` is `x y`. */
  lemma ProductOfSquares(a: real, b: real, x: real, y: real)
    requires a * a == x && b * b == y
    ensures (a * b) * (a * b) == x * y
  {
    calc {
      (a * b) * (a * b);
      (a * a) * (b * b);
      x * y;
    }
  }

  /** Under the square-root law, the length of a product is the product of the lengths. */
  lemma MagnitudeMul(m: Maths, p: Quaternion, q: Quaternion)
    requires SqrtLaw(m)
    ensures Magnitude(m, Mul(p, q)) == Magnitude(m, p) * Magnitude(m, q)
  {
    NormSquaredNonNegative(p);
    NormSquaredNonNegative(q);
    NormSquaredMul(p, q);
    hide Mul, NormSquared;
    var a, b := Magnitude(m, p), Magnitude(m, q);
    assert 0.0 <= a && a * a == NormSquared(p);
    assert 0.0 <= b && b * b == NormSquared(q);
    assert 0.0 <= a * b;
    ProductOfSquares(a, b, NormSquared(p), NormSquared(q));
    SqrtUnique(m, NormSquared(Mul(p, q)), a * b);
  }

  /** The factor of `inverse` is multiplicative too, the zero length included. */
  lemma InverseFactorMul(m: Maths, p: Quaternion, q: Quaternion)
    requires SqrtLaw(m)
    ensures InverseFactor(m, Mul(p, q)) == InverseFactor(m, p) * InverseFactor(m, q)
  {
    MagnitudeMul(m, p, q);
    var a, b := Magnitude(m, p), Magnitude(m, q);
    if a != 0.0 && b != 0.0 {
      assert a * b != 0.0;
      assert (1.0 / a) * (1.0 / b) * (a * b) == 1.0;
    }
  }

  /** Scaling twice is scaling by the product of the factors. */
  lemma ScaleQByProduct(q: Quaternion, s: real, t: real, u: real)
    requires u == s * t
    ensures ScaleQ(ScaleQ(q, s), t) == ScaleQ(q, u)
  {
    assert (q.w * s) * t == q.w * (s * t);
    assert (q.x * s) * t == q.x * (s * t);
    assert (q.y * s) * t == q.y * (s * t);
    assert (q.z * s) * t == q.z * (s * t);
  }

  /** With the source's `inverse`, the inverse of a product is the reversed product of the inverses. */
  lemma InverseOfProduct(m: Maths, p: Quaternion, q: Quaternion)
    requires SqrtLaw(m)
    ensures Inverse(m, Mul(p, q)) == Mul(Inverse(m, q), Inverse(m, p))
  {
    var fp, fq := InverseFactor(m, p), InverseFactor(m, q);
    var cp, cq := Conjugate(p), Conjugate(q);
    hide Mul, Inverse, InverseFactor, Conjugate, ScaleQ;
    calc {
      Inverse(m, Mul(p, q));
      { InverseIsScaledConjugate(m, Mul(p, q)); }
      ScaleQ(Conjugate(Mul(p, q)), InverseFactor(m, Mul(p, q)));
      { ConjugateOfProduct(p, q); }
      ScaleQ(Mul(cq, cp), InverseFactor(m, Mul(p, q)));
      { InverseFactorMul(m, p, q); ScaleQByProduct(Mul(cq, cp), fp, fq, InverseFactor(m, Mul(p, q))); }
      ScaleQ(ScaleQ(Mul(cq, cp), fp), fq);
      { MulScaleRight(cq, cp, fp); }
      ScaleQ(Mul(cq, ScaleQ(cp, fp)), fq);
      { MulScaleLeft(cq, ScaleQ(cp, fp), fq); }
      Mul(ScaleQ(cq, fq), ScaleQ(cp, fp));
      { InverseIsScaledConjugate(m, p); InverseIsScaledConjugate(m, q); }
      Mul(Inverse(m, q), Inverse(m, p));
    }
  }

  /** The polynomial identity behind a pure sandwich: `w` of `a * conj q` is zero for `a = q * (0, v)`. */
  lemma PureSandwichRing(q0: real, q1: real, q2: real, q3: real, v1: real, v2: real, v3: real,
                         a0: real, a1: real, a2: real, a3: real, c0: real, c1: real, c2: real, c3: real)
    requires a0 == q0 * 0.0 - q1 * v1 - q2 * v2 - q3 * v3
    requires a1 == q0 * v1 + 0.0 * q1 + (q2 * v3 - q3 * v2)
    requires a2 == q0 * v2 + 0.0 * q2 + (q3 * v1 - q1 * v3)
    requires a3 == q0 * v3 + 0.0 * q3 + (q1 * v2 - q2 * v1)
    requires c0 == q0 && c1 == -q1 && c2 == -q2 && c3 == -q3
    ensures a0 * c0 - a1 * c1 - a2 * c2 - a3 * c3 == 0.0
  {
  }

  /** `(q * (0, v)) * conj q` has no real part. */
  lemma HamiltonPureSandwich(q: Quaternion, v: Vector3)
    ensures Hamilton(Hamilton(q, PureQuaternion(v)), Conjugate(q)).w == 0.0
  {
    hide Hamilton;
    var pv, c := PureQuaternion(v), Conjugate(q);
    var a := Hamilton(q, pv);
    HamiltonUnfold(q, pv);
    HamiltonUnfold(a, c);
    PureSandwichRing(q.w, q.x, q.y, q.z, v.x, v.y, v.z, a.w, a.x, a.y, a.z, c.w, c.x, c.y, c.z);
  }

  /** `q * (0, p) * q.inverse()` is itself a pure quaternion, `(0, q.rotate(p))`. */
  lemma SandwichIsPure(m: Maths, q: Quaternion, p: Vector3)
    ensures Mul(Mul(q, PureQuaternion(p)), Inverse(m, q)) == PureQuaternion(Rotate(m, q, p))
  {
    var a := Mul(q, PureQuaternion(p));
    var f := InverseFactor(m, q);
    InverseIsScaledConjugate(m, q);
    MulScaleRight(a, Conjugate(q), f);
    MulComponents(q, PureQuaternion(p));
    MulComponents(a, Conjugate(q));
    HamiltonPureSandwich(q, p);
    hide Mul, Hamilton, Inverse;
    assert Mul(a, Conjugate(q)).w == 0.0;
    assert Mul(a, Inverse(m, q)).w == 0.0 * f;
  }

  /** Rotating by a product is rotating by the right factor, then by the left one. */
  lemma RotateMul(m: Maths, p: Quaternion, q: Quaternion, v: Vector3)
    requires SqrtLaw(m)
    ensures Rotate(m, Mul(p, q), v) == Rotate(m, p, Rotate(m, q, v))
  {
    var pv := PureQuaternion(v);
    var a := Mul(q, pv);
    var ip, iq := Inverse(m, p), Inverse(m, q);
    InverseOfProduct(m, p, q);
    MulAssociative(p, q, pv);
    MulAssociative(Mul(p, a), iq, ip);
    MulAssociative(p, a, iq);
    SandwichIsPure(m, q, v);
  }

  /** Rotation is additive: `q.rotate(a + b) = q.rotate(a) + q.rotate(b)`. */
  lemma RotateAdd(m: Maths, q: Quaternion, a: Vector3, b: Vector3)
    ensures Rotate(m, q, Add(a, b)) == Add(Rotate(m, q, a), Rotate(m, q, b))
  {
    var pa, pb := PureQuaternion(a), PureQuaternion(b);
    assert PureQuaternion(Add(a, b)) == AddQ(pa, pb);
    MulAddRight(q, pa, pb);
    MulAddLeft(Mul(q, pa), Mul(q, pb), Inverse(m, q));
  }

  // ---------------------------------------------------------------------------
  // Matrices and axis-angle form

  /** The identity quaternion's matrix is the 3x3 identity. */
  lemma ToMatrixIdentity()
    ensures ToMatrix(Identity()) == Identity33()
  {
    var q := Identity();
    assert q.w == 1.0 && q.x == 0.0 && q.y == 0.0 && q.z == 0.0;
  }

  /** Rotating by the quaternion of a zero angle about any axis leaves a point where it is. */
  lemma RotateByZeroAngle(m: Maths, axis: Vector3, p: Vector3)
    requires TrigAtZero(m) && m.sqrt(1.0) == 1.0
    ensures Rotate(m, FromAxisAngle(m, axis, 0.0), p) == p
  {
    FromAxisAngleZero(m, axis);
    RotateByIdentity(m, p);
  }

  /** A zero angle about any axis gives the identity quaternion. */
  lemma FromAxisAngleZero(m: Maths, axis: Vector3)
    requires TrigAtZero(m)
    ensures FromAxisAngle(m, axis, 0.0) == Identity()
  {
    assert 0.0 / 2.0 == 0.0;
  }

  /** The identity quaternion has the zero axis and the zero angle. */
  lemma ToAxisAngleIdentity(m: Maths)
    requires AcosAtOne(m)
    ensures ToAxisAngle(m, Identity()) == Ok((Zero3(), 0.0))
  {
  }

  /**
   * `toAxisAngle` raises exactly outside `[-1, 1]`, and returns the zero axis
   * whenever the angle is below `Eps`.
   */
  lemma ToAxisAngleDomain(m: Maths, q: Quaternion)
    ensures ToAxisAngle(m, q) == Err(DomainError) <==> q.w < -1.0 || 1.0 < q.w
    ensures -1.0 <= q.w <= 1.0 && RotationAngle(m, q) < Eps
            ==> ToAxisAngle(m, q) == Ok((Zero3(), RotationAngle(m, q)))
  {
  }

  /**
   * At or above the tolerance, `toAxisAngle` fails with non-finite values when
   * `sqrt(1 - w²)` is zero, and otherwise returns the angle `2 acos(w)` and an
   * axis that, scaled back by `sqrt(1 - w²)`, is the vector part.
   */
  lemma ToAxisAngleAxis(m: Maths, q: Quaternion)
    requires -1.0 <= q.w <= 1.0 && Eps <= RotationAngle(m, q)
    ensures AxisDivisor(m, q) == 0.0 ==> ToAxisAngle(m, q) == Err(NonFinite)
    ensures AxisDivisor(m, q) != 0.0 ==>
              ToAxisAngle(m, q).Ok? && ToAxisAngle(m, q).value.1 == RotationAngle(m, q)
              && Scale(ToAxisAngle(m, q).value.0, AxisDivisor(m, q)) == q.Axis()
  {
    if AxisDivisor(m, q) != 0.0 {
      QuotientTimes(q.x, AxisDivisor(m, q), q.x / AxisDivisor(m, q));
      QuotientTimes(q.y, AxisDivisor(m, q), q.y / AxisDivisor(m, q));
      QuotientTimes(q.z, AxisDivisor(m, q), q.z / AxisDivisor(m, q));
    }
  }

  /** The arithmetic of the final scaling in `fromMatrix`: `t * 0.5 / sqrt(t) = sqrt(t) / 2`. */
  lemma HalfRoot(c: real, t: real, s: real)
    requires c == t && 0.0 < s && s * s == t
    ensures c * 0.5 / s == s / 2.0 && 0.0 < c * 0.5 / s
  {
  }

  /**
   * `fromMatrix` fails exactly when the chosen branch's `t` is not positive,
   * and otherwise puts `sqrt(t) / 2` in the branch's own component.
   */
  lemma FromMatrixBranchComponent(m: Maths, r: Matrix33)
    requires SqrtLaw(m)
    ensures FromMatrix(m, r).Err? <==> BranchTrace(r, FromMatrixBranch(r)) <= 0.0
    ensures FromMatrix(m, r) == Err(DomainError) <==> BranchTrace(r, FromMatrixBranch(r)) < 0.0
    ensures FromMatrix(m, r).Ok?
            ==> Component(FromMatrix(m, r).value, FromMatrixBranch(r)) == m.sqrt(BranchTrace(r, FromMatrixBranch(r))) / 2.0
                && Component(FromMatrix(m, r).value, FromMatrixBranch(r)) > 0.0
  {
    var b := FromMatrixBranch(r);
    var t := BranchTrace(r, b);
    if t >= 0.0 {
      SqrtZeroIff(m, t);
      var s := m.sqrt(t);
      if s != 0.0 {
        var q := BranchQuaternion(r, b);
        var c := Component(q, b);
        HalfRoot(c, t, s);
        match b
        case XBranch => assert Component(FromMatrix(m, r).value, b) == q.x * 0.5 / s;
        case YBranch => assert Component(FromMatrix(m, r).value, b) == q.y * 0.5 / s;
        case ZBranch => assert Component(FromMatrix(m, r).value, b) == q.z * 0.5 / s;
        case WBranch => assert Component(FromMatrix(m, r).value, b) == q.w * 0.5 / s;
      }
    }
  }

  /** The 3x3 identity converts to the identity quaternion (the `WBranch` with `t = 4`). */
  lemma FromMatrixIdentity(m: Maths)
    requires m.sqrt(4.0) == 2.0
    ensures FromMatrix(m, Identity33()) == Ok(Identity())
  {
    assert FromMatrixBranch(Identity33()) == WBranch;
    assert BranchTrace(Identity33(), WBranch) == 4.0;
    assert BranchQuaternion(Identity33(), WBranch) == Quaternion(4.0, 0.0, 0.0, 0.0);
  }

  /** The identity survives the round trip through its rotation matrix. */
  lemma IdentityMatrixRoundTrip(m: Maths)
    requires m.sqrt(4.0) == 2.0
    ensures FromMatrix(m, ToMatrix(Identity())) == Ok(Identity())
  {
    ToMatrixIdentity();
    FromMatrixIdentity(m);
  }
}
