/**
 * Quaternions and rigid poses (quaternion-vector pairs): the Hamilton product,
 * conjugate, normalisation, rotation by sandwich product, and the conversions
 * to and from rotation matrices and axis-angle form.
 */
module Quaternions {
  import opened Results
  import opened MathFunctions
  import opened LinearAlgebra

  /** The tolerance `eps` used by `toAxisAngle` and `fromMatrix`. */
  const Eps: real := 0.0000001

  datatype MathError =
    | DomainError   // `math.sqrt` or `math.acos` outside its domain raises `ValueError`
    | NonFinite     // a NumPy division by zero, which yields infinities instead of a number

  /** A quaternion `w + xi + yj + zk`. */
  datatype Quaternion = Quaternion(w: real, x: real, y: real, z: real)
  {
    /** The vector part `(x, y, z)`. */
    function Axis(): Vector3 { Vector3(x, y, z) }
  }

  /** `Quaternion()`: every component zero. */
  function ZeroQuaternion(): Quaternion { Quaternion(0.0, 0.0, 0.0, 0.0) }

  /** `Quaternion.identity()`. */
  function Identity(): Quaternion { Quaternion(1.0, 0.0, 0.0, 0.0) }

  function Conjugate(q: Quaternion): Quaternion { Quaternion(q.w, -q.x, -q.y, -q.z) }

  /** The squared length `x² + y² + z² + w²`. */
  function NormSquared(q: Quaternion): real
  {
    q.x * q.x + q.y * q.y + q.z * q.z + q.w * q.w
  }

  function Magnitude(m: Maths, q: Quaternion): real { m.sqrt(NormSquared(q)) }

  /** Every component divided by the length; the zero quaternion when the length is zero. */
  function Normalize(m: Maths, q: Quaternion): Quaternion
  {
    var length := Magnitude(m, q);
    if length != 0.0 then Quaternion(q.w / length, q.x / length, q.y / length, q.z / length)
    else ZeroQuaternion()
  }

  function Inverse(m: Maths, q: Quaternion): Quaternion { Normalize(m, Conjugate(q)) }

  /** The Hamilton product `a * b`: `w = w1 w2 - v1.v2`, `v = w1 v2 + w2 v1 + v1 x v2`. */
  function Mul(a: Quaternion, b: Quaternion): Quaternion
  {
    var v1, v2 := a.Axis(), b.Axis();
    var w := a.w * b.w - Dot(v1, v2);
    var v := Add(Add(Scale(v2, a.w), Scale(v1, b.w)), Cross(v1, v2));
    Quaternion(w, v.x, v.y, v.z)
  }

  /** The quaternion `(0, p)` that `rotate` builds from a point. */
  function PureQuaternion(p: Vector3): Quaternion { Quaternion(0.0, p.x, p.y, p.z) }

  /** `q.rotate(p)`: the vector part of `q * (0, p) * q.inverse()`. */
  function Rotate(m: Maths, q: Quaternion, p: Vector3): Vector3
  {
    Mul(Mul(q, PureQuaternion(p)), Inverse(m, q)).Axis()
  }

  /** `q.toMatrix()`: the rotation matrix of a unit quaternion. */
  function ToMatrix(q: Quaternion): Matrix33
  {
    var twoxx, twoyy, twozz := 2.0 * q.x * q.x, 2.0 * q.y * q.y, 2.0 * q.z * q.z;
    var twowx, twowy, twowz := 2.0 * q.w * q.x, 2.0 * q.w * q.y, 2.0 * q.w * q.z;
    var twoxy, twoxz, twoyz := 2.0 * q.x * q.y, 2.0 * q.x * q.z, 2.0 * q.y * q.z;
    Matrix33(1.0 - twoyy - twozz, twoxy - twowz, twoxz + twowy,
             twoxy + twowz, 1.0 - twoxx - twozz, twoyz - twowx,
             twoxz - twowy, twoyz + twowx, 1.0 - twoxx - twoyy)
  }

  /** The angle `2 acos(w)` that `toAxisAngle` reports. */
  function RotationAngle(m: Maths, q: Quaternion): real { 2.0 * m.acos(q.w) }

  /** The divisor `sqrt(1 - w²)` that `toAxisAngle` applies to the vector part. */
  function AxisDivisor(m: Maths, q: Quaternion): real { m.sqrt(1.0 - q.w * q.w) }

  /**
   * `q.toAxisAngle()`: the angle `2 acos(w)` and the axis `(x, y, z) / sqrt(1 - w²)`,
   * or the zero axis when the angle is below `Eps`. `acos` and `sqrt` raise
   * outside `[-1, 1]`; a zero divisor from `w = -1` gives non-finite values.
   */
  function ToAxisAngle(m: Maths, q: Quaternion): Result<(Vector3, real), MathError>
  {
    if q.w < -1.0 || 1.0 < q.w then Err(DomainError)
    else if RotationAngle(m, q) < Eps then Ok((Zero3(), RotationAngle(m, q)))
    else if AxisDivisor(m, q) == 0.0 then Err(NonFinite)
    else Ok((Vector3(q.x / AxisDivisor(m, q), q.y / AxisDivisor(m, q), q.z / AxisDivisor(m, q)), RotationAngle(m, q)))
  }

  /** `Quaternion.fromAxisAngle(axis, angle)`: `(cos(angle/2), normalized(axis) sin(angle/2))`. */
  function FromAxisAngle(m: Maths, axis: Vector3, angle: real): Quaternion
  {
    var w := m.cos(angle / 2.0);
    var v := Scale(Normalized(m, axis), m.sin(angle / 2.0));
    Quaternion(w, v.x, v.y, v.z)
  }

  /** The four branches of `fromMatrix`, named after the component that receives `t`. */
  datatype Branch = XBranch | YBranch | ZBranch | WBranch

  /** The branch `fromMatrix` takes: first on `m33 < eps`, then on `m11 > m22` or `m11 < -m22`. */
  function FromMatrixBranch(r: Matrix33): Branch
  {
    if r.m33 < Eps then (if r.m11 > r.m22 then XBranch else YBranch)
    else (if r.m11 < -r.m22 then ZBranch else WBranch)
  }

  /** The value `t` computed in a branch. */
  function BranchTrace(r: Matrix33, b: Branch): real
  {
    match b
    case XBranch => 1.0 + r.m11 - r.m22 - r.m33
    case YBranch => 1.0 - r.m11 + r.m22 - r.m33
    case ZBranch => 1.0 - r.m11 - r.m22 + r.m33
    case WBranch => 1.0 + r.m11 + r.m22 + r.m33
  }

  /** The quaternion a branch builds before scaling, with `t` in its own component. */
  function BranchQuaternion(r: Matrix33, b: Branch): Quaternion
  {
    var t := BranchTrace(r, b);
    match b
    case XBranch => Quaternion(r.m32 - r.m23, t, r.m12 + r.m21, r.m13 + r.m31)
    case YBranch => Quaternion(r.m13 - r.m31, r.m12 + r.m21, t, r.m23 + r.m32)
    case ZBranch => Quaternion(r.m21 - r.m12, r.m13 + r.m31, r.m23 + r.m32, t)
    case WBranch => Quaternion(t, r.m32 - r.m23, r.m13 - r.m31, r.m21 - r.m12)
  }

  /** The component of `q` that a branch fills with `t`. */
  function Component(q: Quaternion, b: Branch): real
  {
    match b
    case XBranch => q.x
    case YBranch => q.y
    case ZBranch => q.z
    case WBranch => q.w
  }

  /**
   * `Quaternion.fromMatrix(matrix)`: the branch's quaternion scaled by
   * `0.5 / sqrt(t)`. A negative `t` makes `math.sqrt` raise; `t = 0` divides by zero.
   */
  function FromMatrix(m: Maths, r: Matrix33): Result<Quaternion, MathError>
  {
    var b := FromMatrixBranch(r);
    var t := BranchTrace(r, b);
    var q := BranchQuaternion(r, b);
    if t < 0.0 then Err(DomainError)
    else
      var s := m.sqrt(t);
      if s == 0.0 then Err(NonFinite)
      else Ok(Quaternion(q.w * 0.5 / s, q.x * 0.5 / s, q.y * 0.5 / s, q.z * 0.5 / s))
  }
}

/** Rigid poses: a rotation quaternion paired with a translation vector. */
module Poses {
  import opened Results
  import opened MathFunctions
  import opened LinearAlgebra
  import opened Quaternions
  import opened QuaternionProperties

  /** The value of a `QuaternionVectorPair`: a rotation followed by a translation. */
  datatype Pose = Pose(quaternion: Quaternion, vector: Vector3)

  /** `QuaternionVectorPair.identity()`. */
  function IdentityPose(): Pose { Pose(Identity(), Zero3()) }

  /** Pair composition `a * b = (a.q * b.q, a.q.rotate(b.v) + a.v)`. */
  function Compose(m: Maths, a: Pose, b: Pose): Pose
  {
    Pose(Mul(a.quaternion, b.quaternion), Add(Rotate(m, a.quaternion, b.vector), a.vector))
  }

  /** `toMatrix`: the rotation in the upper-left 3x3 block, the vector in column 3, last row `0 0 0 1`. */
  function PoseMatrix(p: Pose): (h: Matrix44)
    ensures Rotation(h) == ToMatrix(p.quaternion)
    ensures Translation(h) == p.vector
    ensures h[3] == [0.0, 0.0, 0.0, 1.0]
  {
    Homogeneous(ToMatrix(p.quaternion), p.vector)
  }

  /** `QuaternionVectorPair.fromMatrix`: the quaternion of the rotation block and column 3. */
  function PoseFromMatrix(m: Maths, h: Matrix44): Result<Pose, MathError>
  {
    match FromMatrix(m, Rotation(h))
    case Err(e) => Err(e)
    case Ok(q) => Ok(Pose(q, Translation(h)))
  }

  /** The identity pair is a left unit of composition. */
  lemma ComposeLeftUnit(m: Maths, p: Pose)
    requires m.sqrt(1.0) == 1.0
    ensures Compose(m, IdentityPose(), p) == p
  {
    IdentityIsUnit(p.quaternion);
    RotateByIdentity(m, p.vector);
  }

  /** The identity pair is a right unit of composition. */
  lemma ComposeRightUnit(m: Maths, p: Pose)
    ensures Compose(m, p, IdentityPose()) == p
  {
    IdentityIsUnit(p.quaternion);
    RotateZero(m, p.quaternion);
  }

  /**
   * Composition is associative. It rests on rotating by a product being two
   * rotations in turn, and on rotation being additive.
   */
  lemma ComposeAssociative(m: Maths, a: Pose, b: Pose, c: Pose)
    requires SqrtLaw(m)
    ensures Compose(m, Compose(m, a, b), c) == Compose(m, a, Compose(m, b, c))
  {
    MulAssociative(a.quaternion, b.quaternion, c.quaternion);
    RotateMul(m, a.quaternion, b.quaternion, c.vector);
    RotateAdd(m, a.quaternion, Rotate(m, b.quaternion, c.vector), b.vector);
  }

  /** The identity pose's matrix is the 4x4 identity. */
  lemma IdentityPoseMatrix()
    ensures PoseMatrix(IdentityPose()) == Identity44()
  {
    ToMatrixIdentity();
    HomogeneousIdentity();
  }

  /** The 4x4 identity converts back to the identity pose. */
  lemma IdentityPoseFromMatrix(m: Maths)
    requires m.sqrt(4.0) == 2.0
    ensures PoseFromMatrix(m, Identity44()) == Ok(IdentityPose())
  {
    assert Rotation(Identity44()) == Identity33();
    assert Translation(Identity44()) == Zero3();
    FromMatrixIdentity(m);
  }

  /** A rigid pose whose fields `__imul__` overwrites in place. */
  class QuaternionVectorPair {
    var quaternion: Quaternion
    var vector: Vector3

    constructor (q: Quaternion, v: Vector3)
      ensures quaternion == q && vector == v
    {
      quaternion := q;
      vector := v;
    }

    /** `QuaternionVectorPair.identity()`. */
    constructor Identity()
      ensures Value() == IdentityPose()
    {
      quaternion := IdentityPose().quaternion;
      vector := IdentityPose().vector;
    }

    function Value(): Pose
      reads this
    {
      Pose(quaternion, vector)
    }

    /** `self * other`: a new pair holding the composition. */
    method Times(m: Maths, other: QuaternionVectorPair) returns (r: QuaternionVectorPair)
      ensures fresh(r)
      ensures r.Value() == Compose(m, Value(), other.Value())
    {
      var p := Compose(m, Value(), other.Value());
      r := new QuaternionVectorPair(p.quaternion, p.vector);
    }

    /** `self *= other`: `self` becomes the composition; `other` may be `self`. */
    method TimesAssign(m: Maths, other: QuaternionVectorPair)
      modifies this`quaternion, this`vector
      ensures Value() == Compose(m, old(Value()), old(other.Value()))
    {
      var temp := Times(m, other);
      quaternion := temp.quaternion;
      vector := temp.vector;
    }

    /** `toMatrix()`. */
    function HomogeneousMatrix(): (h: Matrix44)
      reads this
      ensures Rotation(h) == ToMatrix(quaternion)
      ensures Translation(h) == vector
      ensures h[3] == [0.0, 0.0, 0.0, 1.0]
    {
      PoseMatrix(Value())
    }

    /** `QuaternionVectorPair.fromMatrix(matrix)`. */
    static method FromHomogeneous(m: Maths, h: Matrix44) returns (r: Result<QuaternionVectorPair, MathError>)
      ensures PoseFromMatrix(m, h).Err? ==> r == Err(PoseFromMatrix(m, h).error)
      ensures PoseFromMatrix(m, h).Ok? ==> r.Ok? && fresh(r.value) && r.value.Value() == PoseFromMatrix(m, h).value
    {
      match PoseFromMatrix(m, h)
      case Err(e) =>
        r := Err(e);
      case Ok(p) =>
        var pair := new QuaternionVectorPair(p.quaternion, p.vector);
        r := Ok(pair);
    }
  }
}
