# SScanSS-2 core: poses, kinematic chains, trajectories and scene nodes

This project models, in Dafny, four sequential pieces of SScanSS-2, the
strain-scanning simulation software, and proves properties of the model:

- **Pose algebra** (`sscanss/core/math/quaternion.py`): `Quaternion` as a
  value with the Hamilton product, conjugate, magnitude, normalisation,
  inverse, rotation by sandwich product, `toMatrix`, the four-branch
  `fromMatrix`, `toAxisAngle` and `fromAxisAngle`; and `QuaternionVectorPair`,
  a rigid pose, as a class whose `*=` overwrites its fields. Files
  `quaternion.dfy` (modules `Quaternions` and `Poses`) and
  `quaternion_properties.dfy` (the algebraic laws).
- **Kinematic chains** (`sscanss/core/instrument/robotics.py`): `Link` as a
  class over offset, set point, lock and limit flags, and `SerialManipulator`
  with `fkine`, `pose`, `reset`, `resetOffsets`, `configuration` and
  `set_points`. Each method is proved against a function of the link states
  (`robotics.dfy`).
- **Trajectories and playback** (`trajectory.dfy`): the cubic boundary-value
  trajectory, `joint_space_trajectory` filling a `step x dof` array column by
  column, and `Sequence` as an abstract state machine (current time, running
  flag, and the log of frame callbacks and `frame_changed` signals).
- **Inverse kinematics shell** (`inverse_kinematics.dfy`): the free-joint
  mask, the pose-error cost, the `opt` closure with `best_result` and its
  early stop, the early return and the abort path of
  `numeric_inverse_kinematics`. The global optimiser is an oracle: the trial
  vectors it evaluates and the vector it reports, all inside the bounds.
- **Numeric helpers** (`misc.dfy`): `clamp`, `map_range`, `trunc` and
  `is_close`.
- **Scene nodes** (`node.dfy`): the `Node` class with its inherited
  attributes, `isEmpty`, `addChild`, the `vertices` setter, `copy` with its
  shared children list, `translate` and the recursive `flatten`.

Floating-point numbers are modelled as reals. `sqrt`, `sin`, `cos` and
`acos` cannot be defined in Dafny, so every operation that needs them takes
a `Maths` value holding the four functions (`math_functions.dfy`). The laws
a proof relies on (`sqrt` is the non-negative root, `cos 0 = 1`,
`sin 0 = 0`, `acos 1 = 0`) are preconditions of the lemmas that use them.
Exceptions become `Result`/`Outcome` values (`results.dfy`). 3-vectors and
3x3/4x4 matrices are values with component-wise operations
(`linear_algebra.dfy`).

## Model

| member | source | states |
|---|---|---|
| QuaternionProperties.MulComponents | sscanss/core/math/quaternion.py:174-184 | the product built from dot and cross products has the Hamilton components `w = w1 w2 - x1 x2 - y1 y2 - z1 z2`, `x = w1 x2 + w2 x1 + (y1 z2 - z1 y2)`, and so on |
| QuaternionProperties.IdentityIsUnit | sscanss/core/math/quaternion.py:15-17 | `identity()` is both a left and a right unit of the product |
| QuaternionProperties.MulAssociative | sscanss/core/math/quaternion.py:174-184 | the product is associative |
| QuaternionProperties.ConjugateInvolution | sscanss/core/math/quaternion.py:59-60 | `conjugate` keeps `w`, negates exactly the vector part, and applied twice gives the quaternion back |
| QuaternionProperties.ConjugateOfProduct | sscanss/core/math/quaternion.py:174-184 | `conj(p * q) == conj(q) * conj(p)` |
| QuaternionProperties.MulConjugate | sscanss/core/math/quaternion.py:174-184 | `q * conj(q)` and `conj(q) * q` are both the real quaternion holding the squared length |
| QuaternionProperties.NormSquaredConjugate | sscanss/core/math/quaternion.py:59-63 | the conjugate has the same length |
| QuaternionProperties.NormSquaredNonNegative | sscanss/core/math/quaternion.py:62-63 | the squared length under the square root in `magnitude` is never negative |
| QuaternionProperties.NormalizeZero | sscanss/core/math/quaternion.py:96-102 | normalising the zero quaternion gives `Quaternion()`, all zero |
| QuaternionProperties.NormalizeIsUnit | sscanss/core/math/quaternion.py:96-102 | a quaternion of non-zero length, each component divided by that length, has squared length and magnitude one |
| QuaternionProperties.InverseOfUnit | sscanss/core/math/quaternion.py:93-94 | for a unit quaternion the inverse is the conjugate, and `q * q.inverse()` and `q.inverse() * q` are the identity |
| QuaternionProperties.InverseOfIdentity | sscanss/core/math/quaternion.py:93-94 | the identity is its own inverse |
| QuaternionProperties.RotateByIdentity | sscanss/core/math/quaternion.py:107-113 | rotating by the identity leaves every point where it is |
| QuaternionProperties.RotateZero | sscanss/core/math/quaternion.py:107-113 | every quaternion rotates the origin to the origin |
| QuaternionProperties.ToMatrixIdentity | sscanss/core/math/quaternion.py:65-81 | the identity quaternion's matrix is the 3x3 identity |
| QuaternionProperties.FromAxisAngleZero | sscanss/core/math/quaternion.py:121-129 | given `cos 0 = 1` and `sin 0 = 0`, a zero angle about any axis gives the identity quaternion |
| QuaternionProperties.RotateByZeroAngle | sscanss/core/math/quaternion.py:121-129 | rotating by the quaternion of a zero angle about any axis leaves a point where it is |
| QuaternionProperties.ToAxisAngleIdentity | sscanss/core/math/quaternion.py:83-91 | given `acos 1 = 0`, the identity has the zero axis and the zero angle |
| QuaternionProperties.ToAxisAngleDomain | sscanss/core/math/quaternion.py:83-91 | `toAxisAngle` raises a domain error exactly when `w` is outside `[-1, 1]`, and returns the zero axis with the angle whenever `2 acos(w) < eps` |
| QuaternionProperties.ToAxisAngleAxis | sscanss/core/math/quaternion.py:83-91 | at or above `eps` the angle is `2 acos(w)` and the axis scaled back by `sqrt(1 - w²)` is the vector part; a zero divisor gives non-finite values |
| QuaternionProperties.FromMatrixBranchComponent | sscanss/core/math/quaternion.py:131-169 | `fromMatrix` picks one of four branches by `m33 < eps` and then `m11 > m22` or `m11 < -m22`; it fails exactly when that branch's `t` is not positive (a domain error when `t < 0`), and otherwise the branch's own component is `sqrt(t) / 2 > 0` |
| QuaternionProperties.FromMatrixIdentity | sscanss/core/math/quaternion.py:131-169 | the 3x3 identity converts to the identity quaternion |
| QuaternionProperties.IdentityMatrixRoundTrip | sscanss/core/math/quaternion.py:131-169 | the identity survives `fromMatrix(toMatrix(q))` |
| QuaternionProperties.NormSquaredMul | sscanss/core/math/quaternion.py:174-184 | the squared length of a product is the product of the squared lengths, for every pair of quaternions |
| QuaternionProperties.MagnitudeMul | sscanss/core/math/quaternion.py:62-63 | under the square-root law, `(p * q).magnitude` is `p.magnitude * q.magnitude` |
| QuaternionProperties.InverseOfProduct | sscanss/core/math/quaternion.py:93-102 | with `inverse = conjugate().normalize()`, the inverse of `p * q` is `q.inverse() * p.inverse()` for every pair, zero lengths included |
| QuaternionProperties.SandwichIsPure | sscanss/core/math/quaternion.py:107-113 | `q * (0, p) * q.inverse()` has no real part, so it is `(0, q.rotate(p))` for every `q` |
| QuaternionProperties.RotateMul | sscanss/core/math/quaternion.py:107-113 | `(p * q).rotate(v)` is `p.rotate(q.rotate(v))` for every pair of quaternions and every point |
| QuaternionProperties.RotateAdd | sscanss/core/math/quaternion.py:107-113 | `q.rotate(a + b)` is `q.rotate(a) + q.rotate(b)` |
| Quaternions.Conjugate | sscanss/core/math/quaternion.py:59-60 | the conjugate keeps `w` and negates the vector part; `ConjugateInvolution`, `ConjugateOfProduct` and `MulConjugate` give its laws |
| Quaternions.Magnitude | sscanss/core/math/quaternion.py:62-63 | the length `sqrt(x² + y² + z² + w²)`, whose radicand `NormSquaredNonNegative` shows is never negative |
| Quaternions.Normalize | sscanss/core/math/quaternion.py:96-102 | each component divided by the length, or the zero quaternion for length 0; `NormalizeIsUnit` and `NormalizeZero` give the two cases |
| Quaternions.Inverse | sscanss/core/math/quaternion.py:93-94 | the normalised conjugate, which `InverseOfUnit` proves a two-sided inverse of a unit quaternion |
| Quaternions.Mul | sscanss/core/math/quaternion.py:174-184 | the product from dot and cross products of the vector parts; `MulComponents` equates it with the independent component form, `MulAssociative` and `IdentityIsUnit` give its algebra |
| Quaternions.Rotate | sscanss/core/math/quaternion.py:107-113 | the vector part of `q * (0, p) * q.inverse()`; `RotateByIdentity`, `RotateZero` and `RotateByZeroAngle` give its fixed cases |
| Quaternions.ToMatrix | sscanss/core/math/quaternion.py:65-81 | the rotation matrix entries of quaternion.py:67-79; `ToMatrixIdentity` gives the identity case |
| Quaternions.ToAxisAngle | sscanss/core/math/quaternion.py:83-91 | angle `2 acos w`, the zero axis below `eps`, and the error values for `acos` out of its domain and a zero divisor; `ToAxisAngleDomain` and `ToAxisAngleAxis` give its meaning |
| Quaternions.FromAxisAngle | sscanss/core/math/quaternion.py:121-129 | `(cos(angle/2), normalized(axis) sin(angle/2))`; `FromAxisAngleZero` gives a zero angle as the identity |
| Quaternions.FromMatrix | sscanss/core/math/quaternion.py:131-169 | the four branches on `m33 < eps` and then `m11 > m22` or `m11 < -m22`, each scaled by `0.5 / sqrt(t)`, with error values for a negative or zero `t`; `FromMatrixBranchComponent` and `FromMatrixIdentity` give its meaning |
| Quaternions.Identity | sscanss/core/math/quaternion.py:15-17 | the quaternion `(1, 0, 0, 0)`; `IdentityIsUnit` proves it a two-sided unit of the product |
| Quaternions.NormSquared | sscanss/core/math/quaternion.py:62-63 | the radicand of `magnitude`; `NormSquaredNonNegative`, `NormSquaredConjugate` and `NormSquaredMul` give its laws |
| Quaternions.PureQuaternion | sscanss/core/math/quaternion.py:108 | the quaternion `(0, p)` that `rotate` builds from a point; `SandwichIsPure` shows the sandwich keeps that form |
| Quaternions.RotationAngle | sscanss/core/math/quaternion.py:84 | the angle `2 acos(w)`; `ToAxisAngleDomain` and `ToAxisAngleAxis` state how `toAxisAngle` uses it |
| Quaternions.AxisDivisor | sscanss/core/math/quaternion.py:85 | the divisor `sqrt(1 - w²)`; `ToAxisAngleAxis` proves the axis scaled back by it is the vector part |
| Quaternions.FromMatrixBranch | sscanss/core/math/quaternion.py:132-168 | the branch `fromMatrix` takes on `m33 < eps`, then `m11 > m22` or `m11 < -m22`; `FromMatrixBranchComponent` gives its meaning |
| Quaternions.BranchTrace | sscanss/core/math/quaternion.py:132-168 | the value `t` each branch computes from the diagonal; `FromMatrixBranchComponent` ties the result's sign and size to it |
| Quaternions.BranchQuaternion | sscanss/core/math/quaternion.py:132-168 | the unscaled quaternion of each branch, with `t` in the branch's own component; `FromMatrixBranchComponent` gives its meaning |
| Poses.PoseMatrix | sscanss/core/math/quaternion.py:210-215 | the pair's matrix has the rotation in the upper-left 3x3 block, the vector in column 3 and last row `0 0 0 1` |
| Poses.ComposeLeftUnit | sscanss/core/math/quaternion.py:195-202 | the identity pair composed on the left changes nothing |
| Poses.ComposeRightUnit | sscanss/core/math/quaternion.py:195-202 | the identity pair composed on the right changes nothing |
| Poses.IdentityPoseMatrix | sscanss/core/math/quaternion.py:224-229 | the identity pair's matrix is the 4x4 identity |
| Poses.IdentityPoseFromMatrix | sscanss/core/math/quaternion.py:217-222 | the 4x4 identity converts back to the identity pair |
| Poses.QuaternionVectorPair.constructor | sscanss/core/math/quaternion.py:191-193 | the pair holds the given quaternion and vector |
| Poses.QuaternionVectorPair.Identity | sscanss/core/math/quaternion.py:224-229 | `identity()` is the identity quaternion with the zero vector |
| Poses.QuaternionVectorPair.Times | sscanss/core/math/quaternion.py:195-202 | `a * b` is a new pair `(a.q * b.q, a.q.rotate(b.v) + a.v)` |
| Poses.QuaternionVectorPair.TimesAssign | sscanss/core/math/quaternion.py:204-208 | after `self *= other`, `self` holds the composition of the two old values, also when `other` is `self` |
| Poses.QuaternionVectorPair.HomogeneousMatrix | sscanss/core/math/quaternion.py:210-215 | `toMatrix()`: the rotation block is the quaternion's matrix, column 3 the vector, last row `0 0 0 1` |
| Poses.QuaternionVectorPair.FromHomogeneous | sscanss/core/math/quaternion.py:217-222 | a new pair from the rotation block's quaternion and column 3, or the error `fromMatrix` raises |
| Poses.Compose | sscanss/core/math/quaternion.py:195-202 | pair composition `(q1 * q2, q1.rotate(v2) + v1)`; `ComposeLeftUnit` and `ComposeRightUnit` give the identity pair as its unit |
| Poses.PoseFromMatrix | sscanss/core/math/quaternion.py:217-222 | the pair of `fromMatrix` of the rotation block and column 3, or its error; `IdentityPoseFromMatrix` gives the identity case |
| Poses.ComposeAssociative | sscanss/core/math/quaternion.py:195-202 | under the square-root law, pair composition is associative: `(a * b) * c == a * (b * c)` for every three pairs |
| Robotics.MoveLockedIsNoOp | sscanss/core/instrument/robotics.py:241-242 | `move` on a locked link without `ignore_locks` leaves the whole link state unchanged |
| Robotics.MoveUpdatesOffset | sscanss/core/instrument/robotics.py:244-245 | a move that is not held by the lock takes the new offset, takes it as set point exactly when `setpoint` is true, and keeps the lock and the limit flag |
| Robotics.MoveIdempotent | sscanss/core/instrument/robotics.py:231-250 | moving twice to the same offset is the same as moving once |
| Robotics.MovedPoseForgetsHistory | sscanss/core/instrument/robotics.py:246-250 | the pose after a move depends only on the offset: a revolute link gets `fromAxisAngle(axis, offset)` and `rotate(home)`, a prismatic one `home + axis * offset` with its quaternion kept |
| Robotics.ResetIgnoresLock | sscanss/core/instrument/robotics.py:252-256 | `reset` sets the offset and the set point to `default_offset` even on a locked link, and keeps the lock and limit flags |
| Robotics.RevoluteZeroOffsetPose | sscanss/core/instrument/robotics.py:246-248 | at offset zero a revolute link has the identity rotation and sits at its home point |
| Robotics.PrismaticZeroOffsetPose | sscanss/core/instrument/robotics.py:249-250 | at offset zero a prismatic link, with the quaternion it was built with, has the identity rotation and sits at its home point |
| Robotics.ChainPoseSingle | sscanss/core/instrument/robotics.py:132-134 | folding `qs *= pair` over one link from the identity gives that link's pose |
| Robotics.MovedChainIsChainPose | sscanss/core/instrument/robotics.py:62-65 | moving each link of the range in turn and composing its pose right after its move gives the fold of the moved links' poses |
| Robotics.FkineMovesOnlyRange | sscanss/core/instrument/robotics.py:63-64 | `fkine` gives each link in `[start, end)` the state `move(q[i])` gives it and leaves every other link as it was |
| Robotics.FkineConfiguration | sscanss/core/instrument/robotics.py:63-64 | after a full-range `fkine(q)` in which no link is held by its lock, `configuration` is `q` |
| Robotics.FkineKeepsSetPoints | sscanss/core/instrument/robotics.py:34-65 | an `fkine` with `setpoint=False` leaves `set_points` unchanged, whatever the range |
| Robotics.ResetsRestoreDefaults | sscanss/core/instrument/robotics.py:69-84 | both resets bring every link to its default offset and set point; `reset` also clears every lock and limit flag, while `resetOffsets` keeps them |
| Robotics.WithSetPointsPrefix | sscanss/core/instrument/robotics.py:106-114 | the `set_points` setter writes the first `min(len(q), n)` set points from `q`, keeps the rest, and changes no offset |
| Robotics.Link.constructor | sscanss/core/instrument/robotics.py:212-229 | for an accepted axis, a link holding the axis, home point, type and default offset, left in the state `reset()` gives it: offset and set point at `default_offset`, unlocked, limits enforced |
| Robotics.CreateLink | sscanss/core/instrument/robotics.py:212-229 | `Link(...)` raises exactly when the axis is shorter than `0.00001`; otherwise the new link is at its default offset and set point, unlocked, with limits enforced |
| Robotics.Link.Move | sscanss/core/instrument/robotics.py:231-250 | the new link state is the one the move function gives for the old state |
| Robotics.Link.Reset | sscanss/core/instrument/robotics.py:252-256 | the new link state is `move(default_offset, ignore_locks=True)` of the old one |
| Robotics.Link.VectorPair | sscanss/core/instrument/robotics.py:267-274 | a new pair holding the link's quaternion and vector |
| Robotics.SerialManipulator.constructor | sscanss/core/instrument/robotics.py:13-31 | a missing base or tool is the 4x4 identity, and `default_base` is the base |
| Robotics.SerialManipulator.GettersMatchStates | sscanss/core/instrument/robotics.py:95-123 | `configuration` lists every link's offset and `set_points` every link's set point, in link order |
| Robotics.SerialManipulator.Fkine | sscanss/core/instrument/robotics.py:34-67 | the start index is clamped at 0 and the end index at the link count (`None` is the count); only links in the range move, as `move` says; the result is `base @ fold @ tool` with the base only when `include_base` and the start is 0, and the tool only when the end is the count; a full-range call returns the matrix of all links |
| Robotics.SerialManipulator.MoveRange | sscanss/core/instrument/robotics.py:62-65 | the loop moves exactly the links of the range and its pair is the fold of their new poses; base and tool do not change |
| Robotics.SerialManipulator.MoveAndCompose | sscanss/core/instrument/robotics.py:64-65 | one loop turn moves link `i` and composes its new pose onto `qs` |
| Robotics.SerialManipulator.Pose | sscanss/core/instrument/robotics.py:125-136 | `pose` changes nothing and is `base @ fold @ tool` over all links, the same matrix a full-range `fkine` returns afterwards |
| Robotics.SerialManipulator.ResetOffsets | sscanss/core/instrument/robotics.py:69-74 | every link is reset; locks and limit flags are kept |
| Robotics.SerialManipulator.Reset | sscanss/core/instrument/robotics.py:76-84 | the base is the default base, the tool is kept, and every link is reset, unlocked and held to its limits |
| Robotics.SerialManipulator.SetSetPoints | sscanss/core/instrument/robotics.py:106-114 | the new link states are the old ones with the first `min(len(q), n)` set points taken from `q` |
| Robotics.ChainPoseAppend | sscanss/core/instrument/robotics.py:62-65 | one more pass of the loop composes the accumulated pose with the next link's pose on the right |
| Robotics.FkineStatesEmptyRange | sscanss/core/instrument/robotics.py:56-65 | an `fkine` whose end is not after its start moves no link |
| Robotics.Moved | sscanss/core/instrument/robotics.py:231-250 | the link state after `move`; `MoveLockedIsNoOp`, `MoveUpdatesOffset`, `MoveIdempotent` and `MovedPoseForgetsHistory` give its meaning |
| Robotics.ResetState | sscanss/core/instrument/robotics.py:252-256 | the link state after `reset`, a move to the default offset that ignores the lock; `ResetIgnoresLock` gives its meaning |
| Robotics.FkineStart | sscanss/core/instrument/robotics.py:56 | a negative start index counts as 0 |
| Robotics.FkineEnd | sscanss/core/instrument/robotics.py:57 | `None`, or an end past the link count, counts as the link count |
| Robotics.FkineStates | sscanss/core/instrument/robotics.py:62-64 | the link states after the moves of `fkine`, one per link; `FkineMovesOnlyRange`, `FkineConfiguration` and `FkineKeepsSetPoints` give its meaning |
| Robotics.ChainPose | sscanss/core/instrument/robotics.py:61-65 | the link poses composed from the first to the last, starting from the identity pair; `ChainPoseSingle` and `ChainPoseAppend` give its meaning |
| Robotics.ChainMatrix | sscanss/core/instrument/robotics.py:59-67 | `base @ qs.toMatrix() @ tool` for a folded pose |
| Robotics.ResetOffsetsStates | sscanss/core/instrument/robotics.py:69-74 | every link in its `reset` state, one state per link; `ResetsRestoreDefaults` gives its meaning |
| Robotics.ResetStates | sscanss/core/instrument/robotics.py:76-84 | every link reset, then unlocked and held to its limits, one state per link; `ResetsRestoreDefaults` gives its meaning |
| Robotics.WithSetPoints | sscanss/core/instrument/robotics.py:106-114 | the states after the `set_points` setter, one per link; `WithSetPointsPrefix` gives its meaning |
| Robotics.Link.Pair | sscanss/core/instrument/robotics.py:267-274 | the link's quaternion and vector as a pose value |
| Robotics.Link.TransformationMatrix | sscanss/core/instrument/robotics.py:258-265 | the matrix of the link's pose |
| Robotics.SerialManipulator.Configuration | sscanss/core/instrument/robotics.py:116-123 | the offset of every link, in order; `GettersMatchStates` ties it to the link states |
| Robotics.SerialManipulator.SetPoints | sscanss/core/instrument/robotics.py:95-104 | the set point of every link, in order; `GettersMatchStates` ties it to the link states |
| Robotics.Window | sscanss/core/instrument/robotics.py:62-65 | the links `fkine` walks, `links[start:end]`, or none for an empty range; `MovedChainIsChainPose` is stated with it |
| Robotics.MovedChain | sscanss/core/instrument/robotics.py:61-65 | the pose `qs` the loop of `fkine` accumulates as it moves each link; `MovedChainIsChainPose` equates it with the chain pose of the moved links |
| Robotics.Offsets | sscanss/core/instrument/robotics.py:116-123 | the offset of every link state, in order; `FkineConfiguration` and `GettersMatchStates` give its meaning |
| Robotics.SetPointsOf | sscanss/core/instrument/robotics.py:95-104 | the set point of every link state, in order; `FkineKeepsSetPoints`, `WithSetPointsPrefix` and `GettersMatchStates` give its meaning |
| Trajectories.EvalIsBoundaryRow | sscanss/core/instrument/robotics.py:322-331 | `np.polyval(a[::-1], t)` at `t0` and `tf`, and its derivative there, are the four rows of the boundary matrix applied to `a` |
| Trajectories.CoefficientsSolveSystem | sscanss/core/instrument/robotics.py:322-329 | the closed-form coefficients `a0 = p0`, `a1 = 0`, `a2 = 3Δ/tf²`, `a3 = -2Δ/tf³` satisfy `m a = b` as written, with `t0 = 0` |
| Trajectories.CoefficientsUnique | sscanss/core/instrument/robotics.py:322-329 | every solution of `m a = b` with `tf != 0` is the closed form, so it is what `inv(m) @ b` computes |
| Trajectories.SystemSingularAtZero | sscanss/core/instrument/robotics.py:319-329 | with `tf = 0` the system has two solutions when `p0 == p1` and none otherwise, so `m` is singular and the inverse raises |
| Trajectories.CubicBoundaryConditions | sscanss/core/instrument/robotics.py:322-331 | the cubic through the closed-form coefficients has `p(0) = p0`, `p'(0) = 0`, `p(tf) = p1`, `p'(tf) = 0` |
| Trajectories.Linspace | sscanss/core/instrument/robotics.py:314 | `np.linspace(0, stop, num)` raises exactly for a negative count, has `num` samples, starts at 0 and, with two or more samples, ends at `stop` |
| Trajectories.CubicTrajectory | sscanss/core/instrument/robotics.py:299-333 | a successful trajectory has exactly `step` samples |
| Trajectories.CubicTrajectoryErrors | sscanss/core/instrument/robotics.py:312-329 | the trajectory exists exactly when `step >= 1`; a negative step raises from `linspace`, a zero step from the singular inverse |
| Trajectories.CubicTrajectoryStarts | sscanss/core/instrument/robotics.py:312-333 | the first sample is `p0` |
| Trajectories.CubicTrajectoryEnds | sscanss/core/instrument/robotics.py:312-333 | with `step >= 2` the last sample is `p1`, because the sample times run from 0 to `step` inclusive |
| Trajectories.CubicTrajectoryConstant | sscanss/core/instrument/robotics.py:299-333 | `p0 == p1` gives a constant trajectory |
| Trajectories.JointSpace | sscanss/core/instrument/robotics.py:277-296 | a successful grid is `step` rows of `dof` entries |
| Trajectories.JointSpaceFirstFailure | sscanss/core/instrument/robotics.py:289-296 | the grid exists exactly when every column does, and otherwise fails with the error of the first failing column, as the loop over joints raises |
| Trajectories.JointSpaceEndRows | sscanss/core/instrument/robotics.py:277-296 | row 0 is the start configuration and, with two or more steps, the last row is the stop configuration |
| Trajectories.JointSpaceTrajectory | sscanss/core/instrument/robotics.py:277-296 | the array filled column by column is `step x dof` and holds, at `[k, i]`, sample `k` of the cubic for joint `i`; it fails exactly when the grid does, with the same error |
| Trajectories.FillColumn | sscanss/core/instrument/robotics.py:294 | `trajectory[:, i] = t` writes column `i` and leaves every other entry alone |
| Trajectories.RowAt | sscanss/core/instrument/robotics.py:397 | `trajectory[index, :]` is row `index`, a negative index counts from the end, and anything else raises `IndexError` |
| Trajectories.LastRowIsStop | sscanss/core/instrument/robotics.py:356-358 | the frame at index `-1` is the stop configuration when there are two or more steps |
| Trajectories.Sequence.constructor | sscanss/core/instrument/robotics.py:339-363 | the timeline keeps `duration` when it is positive and 1000 ms otherwise, and its time is set to that length before the callback is connected, so construction runs no frame and leaves the sequence stopped with an empty event log |
| Trajectories.Sequence.Start | sscanss/core/instrument/robotics.py:365-369 | `start()` runs the timeline from time 0, sets it running and leaves the event log alone; a running timeline keeps its time |
| Trajectories.Sequence.Stop | sscanss/core/instrument/robotics.py:371-378 | `stop()` moves a time earlier than the timeline's length to that length and halts, so `isRunning()` is false afterwards; a later time is kept and the event log is unchanged |
| Trajectories.Sequence.IsRunning | sscanss/core/instrument/robotics.py:380-389 | reports the running flag |
| Trajectories.Sequence.Animate | sscanss/core/instrument/robotics.py:391-398 | `animate(i)` passes trajectory row `i` to the frame function and then emits `frame_changed`; a bad index raises before either |
| Trajectories.CreateSequence | sscanss/core/instrument/robotics.py:339-363 | the sequence exists exactly when the trajectory can be built, holds that trajectory and a timeline of `duration` (1000 ms when `duration` is not positive), and starts stopped at that time with no frames |
| Trajectories.Eval | sscanss/core/instrument/robotics.py:331 | `np.polyval(a[::-1], t)` by Horner's rule; `EvalIsBoundaryRow` ties it to the rows of `m` |
| Trajectories.CubicCoefficients | sscanss/core/instrument/robotics.py:322-329 | the closed-form solution of `m a = b` with `t0 = 0`; `CoefficientsSolveSystem` and `CoefficientsUnique` prove it is `inv(m) @ b` |
| Trajectories.Column | sscanss/core/instrument/robotics.py:292-294 | the cubic trajectory of joint `i`, failing with `IndexError` when `stop_pose` has no entry `i`; `JointSpaceFirstFailure` gives its meaning |
| Trajectories.TimelineDuration | sscanss/core/instrument/robotics.py:355 | the duration `QTimeLine(duration)` keeps is positive: the given one when positive, otherwise the default of 1000 ms |
| Trajectories.Slope | sscanss/core/instrument/robotics.py:322-328 | the derivative of the cubic, the velocity rows of `m`; `CubicBoundaryConditions` proves it zero at both ends |
| Trajectories.BoundaryMatrix | sscanss/core/instrument/robotics.py:322-325 | the matrix `m` of position and velocity rows at `t0` and `tf`; `CoefficientsSolveSystem`, `CoefficientsUnique` and `SystemSingularAtZero` give its meaning |
| Trajectories.BoundaryValues | sscanss/core/instrument/robotics.py:327-328 | the right-hand side `b = [p0, 0, p1, 0]`; `CoefficientsSolveSystem` proves the coefficients solve `m a = b` |
| InverseKinematics.Select | sscanss/core/instrument/robotics.py:410-412 | `conf[state]` keeps one entry per `true` in the mask |
| InverseKinematics.Scatter | sscanss/core/instrument/robotics.py:418 | `conf[state] = q` keeps the length of `conf` |
| InverseKinematics.ScatterKeepsMaskedOut | sscanss/core/instrument/robotics.py:418 | writing `q` into the free entries leaves every locked entry as it was |
| InverseKinematics.SelectScatter | sscanss/core/instrument/robotics.py:411-418 | after `conf[state] = q`, `conf[state]` reads back `q` |
| InverseKinematics.ScatterSelect | sscanss/core/instrument/robotics.py:411-418 | writing back the free entries a configuration already has leaves it unchanged, so `opt(q0)` keeps `conf` |
| InverseKinematics.ScatterIgnoresFreeEntries | sscanss/core/instrument/robotics.py:418 | the configuration after a trial depends only on the locked entries of the one before it, so every trial writes into the entry configuration |
| InverseKinematics.SquaredNorm | sscanss/core/instrument/robotics.py:423 | a dot product of a vector with itself is non-negative and zero only for the zero vector |
| InverseKinematics.SquaredErrorZeroIff | sscanss/core/instrument/robotics.py:420-423 | the stacked six-entry error has a non-negative square, zero exactly when both halves vanish |
| InverseKinematics.CostZeroIff | sscanss/core/instrument/robotics.py:419-423 | the cost `err` is non-negative, and zero exactly when both the position and the orientation error are zero |
| InverseKinematics.OrientationIgnoresTranslation | sscanss/core/instrument/robotics.py:421-422 | the orientation error uses only the rotation block of `H`; the position error adds its translation column |
| InverseKinematics.Lower | sscanss/core/instrument/robotics.py:424-425 | after a trial `best_result` is a finite cost |
| InverseKinematics.LowerNeverIncreases | sscanss/core/instrument/robotics.py:424-425 | `best_result` never increases, is at most the latest cost, and is either that cost or the previous best |
| InverseKinematics.FreeMask | sscanss/core/instrument/robotics.py:411 | `state` has one entry per link, `true` exactly for the unlocked links |
| InverseKinematics.ProblemFor | sscanss/core/instrument/robotics.py:406-412 | the set-up data of one solve is consistent when there is one state per joint |
| InverseKinematics.TrialStates | sscanss/core/instrument/robotics.py:418-419 | `ri.fkine(conf)` inside `opt` leaves one state per link |
| InverseKinematics.EntryStates | sscanss/core/instrument/robotics.py:438 | the first evaluation `opt(q0)` leaves one state per link |
| InverseKinematics.Verdict | sscanss/core/instrument/robotics.py:427-430 | `opt` raises exactly when the cost is below `tolerance`, and otherwise returns the cost |
| InverseKinematics.AbortIndexInRange | sscanss/core/instrument/robotics.py:442-447 | the trial that raises `StopOptimizingException`, if any, is one of the trials the optimiser makes |
| InverseKinematics.OracleLengths | sscanss/core/instrument/robotics.py:412-443 | an optimiser run over `_bounds` (one pair per free joint, none for a robot with no links) makes trials, and reports a result, with one entry per free joint |
| InverseKinematics.AsWrittenOutcomes | sscanss/core/instrument/robotics.py:405-449 | as written, the solver fails with an index error exactly when the links are a non-empty mask and the bounds are of another length, raises exactly when the initial cost is below the tolerance, and otherwise returns the optimiser's result: `return q0` is never reached |
| InverseKinematics.ReachedTargetRaises | sscanss/core/instrument/robotics.py:438-440 | with `tol > 0` and a target the entry configuration already reaches, the solver as written raises `StopOptimizingException` while the guarded one returns `q0` |
| InverseKinematics.CorrectedOutcomes | sscanss/core/instrument/robotics.py:438-449 | the guarded solver returns `q0` when the initial cost is below the tolerance and otherwise agrees with the solver as written |
| InverseKinematics.AnnealResultShape | sscanss/core/instrument/robotics.py:442-449 | when a trial stops the run, the result is `conf`: that trial in the free entries and the entry values in the locked ones; otherwise it is the optimiser's `r.x`. That `r.x` lies within `_bounds` (one pair per free joint) only because the oracle is required to return it there, so that clause repeats the requirement |
| InverseKinematics.Objective.constructor | sscanss/core/instrument/robotics.py:406-412 | the closure starts with `best_result = inf` and `conf` the entry configuration |
| InverseKinematics.Objective.Evaluate | sscanss/core/instrument/robotics.py:414-430 | `opt(q)` writes `q` into the free entries of `conf`, moves the robot to `conf`, lowers `best_result` to the cost and raises exactly when the cost is below `tolerance` |
| InverseKinematics.Anneal | sscanss/core/instrument/robotics.py:418-447 | running the optimiser's trials through `opt` gives the trial configuration that raised, or `r.x` when none did, and leaves the robot's links in the states every trial's `fkine` left them, up to the one that raised |
| InverseKinematics.NumericInverseKinematicsAsWritten | sscanss/core/instrument/robotics.py:405-449 | the solver as written, step by step, returns what the as-written specification function gives for the robot's entry state, and leaves the robot's links where the `fkine` calls of the solve left them |
| InverseKinematics.NumericInverseKinematics | sscanss/core/instrument/robotics.py:405-449 | the solver with its first evaluation guarded returns what the corrected specification function gives, and leaves the robot's links where the `fkine` calls of the solve left them |
| InverseKinematics.PositionError | sscanss/core/instrument/robotics.py:421 | `target[0:3] - (H[0:3, 0:3] @ current[0:3] + H[0:3, 3])`; `OrientationIgnoresTranslation` and `CostZeroIff` give its meaning |
| InverseKinematics.OrientationError | sscanss/core/instrument/robotics.py:422 | `target[3:6] - H[0:3, 0:3] @ current[3:6]`; `OrientationIgnoresTranslation` shows it ignores the translation |
| InverseKinematics.Cost | sscanss/core/instrument/robotics.py:420-423 | `np.dot(err1, err1)` of the stacked error; `CostZeroIff` gives its meaning |
| InverseKinematics.StateCost | sscanss/core/instrument/robotics.py:419-423 | the cost of the chain's tool pose `fkine(conf) @ tool_link` against the target |
| InverseKinematics.AbortIndex | sscanss/core/instrument/robotics.py:427-428 | the first trial from `i` on whose cost is below the tolerance, the one whose `opt` call raises; `AbortIndexInRange` gives its range |
| InverseKinematics.AnnealResult | sscanss/core/instrument/robotics.py:442-447 | the `try` block's `x`; `AnnealResultShape` gives its meaning |
| InverseKinematics.RunStates | sscanss/core/instrument/robotics.py:418-419 | the link states an optimiser run leaves, one per link: every trial moves the chain, up to the one that raises; `RunConfiguration` gives its meaning |
| InverseKinematics.TrialConfiguration | sscanss/core/instrument/robotics.py:418-419 | `opt(q)` leaves the robot at `conf`: the free links at `q` and the locked links where they were, with the lock flags kept |
| InverseKinematics.EntryAgrees | sscanss/core/instrument/robotics.py:408-411 | on entry, a joint is free exactly when its link is unlocked, and `conf` holds every link's offset |
| InverseKinematics.RunConfiguration | sscanss/core/instrument/robotics.py:418-447 | the run leaves the robot at the configuration of the trial that raised; when none did, at the last trial's; with no trials, where it was |
| InverseKinematics.FreeBounds | sscanss/core/instrument/robotics.py:412 | `np.array(bounds)[state]` has one pair per free joint; it is the masked bounds when the lengths match, and empty for a robot with no links |
| InverseKinematics.IKAsWritten | sscanss/core/instrument/robotics.py:405-449 | the solver as written, as a function of the entry states and the oracle; `AsWrittenOutcomes` gives its outcomes |
| InverseKinematics.IKCorrected | sscanss/core/instrument/robotics.py:438-449 | the solver with its early return reachable; `CorrectedOutcomes` relates it to the solver as written |
| InverseKinematics.SolveStates | sscanss/core/instrument/robotics.py:405-449 | the link states a solve leaves, one per link: unchanged when the bounds do not fit, the state after `opt(q0)` when that meets the tolerance, else the state after the run |
| InverseKinematics.SolveConfiguration | sscanss/core/instrument/robotics.py:418-449 | a solve that returns early leaves the robot at its entry configuration; one stopped by a trial leaves it at the returned `conf`; one the optimiser finishes leaves it at its last trial, not at the `r.x` it returns |
| InverseKinematics.SquaredError | sscanss/core/instrument/robotics.py:423 | `np.dot(err1, err1)` of the stacked error; `SquaredErrorZeroIff` proves it zero exactly when both parts are |
| InverseKinematics.ToolPose | sscanss/core/instrument/robotics.py:419 | `fkine(conf) @ tool_link` for the chain in the given states; `StateCost` is the cost of this pose |
| InverseKinematics.BoundsFit | sscanss/core/instrument/robotics.py:412 | `np.array(bounds)[state]` raises no `IndexError`: the mask is empty or as long as the bounds; `AsWrittenOutcomes` gives `BoundsMismatch` exactly when it fails |
| Misc.Clamp | sscanss/core/math/misc.py:8-21 | the result lies in `[min_value, max_value]` when that range is not empty; a value already inside is returned unchanged, one below gives `min_value`, one above gives `max_value`; an empty range (`min_value > max_value`) always gives `min_value` |
| Misc.ClampIdempotent | sscanss/core/math/misc.py:21 | clamping a clamped value changes nothing |
| Misc.ClampMonotone | sscanss/core/math/misc.py:21 | clamping preserves order: `u <= v` gives `clamp(u) <= clamp(v)` |
| Misc.MapRange | sscanss/core/math/misc.py:24-41 | raises `ZeroDivisionError` exactly when `old_min == old_max`; otherwise maps `old_min` to `new_min` and `old_max` to `new_max` |
| Misc.MapRangeAffine | sscanss/core/math/misc.py:41 | the map is affine: the difference of two images is the difference of the values times `(new_max - new_min) / (old_max - old_min)` |
| Misc.MapRangeRoundTrip | sscanss/core/math/misc.py:41 | mapping into a non-degenerate range and back with the ranges swapped returns the original value |
| Misc.Pow10 | sscanss/core/math/misc.py:54 | `10 ** decimals` is positive for every integer `decimals`, negative ones included |
| Misc.ShiftIsScaling | sscanss/core/math/misc.py:54-55 | the decimal shift used for `value * step` is multiplication by `10 ** decimals` |
| Misc.TruncateToIntBounds | sscanss/core/math/misc.py:55 | `math.trunc(x)` lies between zero and `x` and less than one away from `x`, for either sign |
| Misc.WholeTruncates | sscanss/core/math/misc.py:55 | `math.trunc` leaves a whole number unchanged |
| Misc.TruncIsScaledTruncation | sscanss/core/math/misc.py:44-55 | `trunc(value, decimals)` is `math.trunc(value * 10 ** decimals) / 10 ** decimals` |
| Misc.TruncTowardZero | sscanss/core/math/misc.py:44-55 | the truncated value has the value's sign and is no larger in magnitude |
| Misc.TruncWithinOneStep | sscanss/core/math/misc.py:44-55 | the truncated value is less than one step `10 ** -decimals` from the value |
| Misc.TruncWhole | sscanss/core/math/misc.py:44-55 | the truncated value times `10 ** decimals` is a whole number, namely `math.trunc(value * 10 ** decimals)` |
| Misc.TruncIdempotent | sscanss/core/math/misc.py:44-55 | truncating twice to the same number of decimals is truncating once |
| Misc.Broadcast | sscanss/core/math/misc.py:70 | NumPy broadcasting of `np.subtract(a, b)` for one-dimensional operands: both results have one length, and it fails exactly when the lengths differ and neither is one |
| Misc.IsClose | sscanss/core/math/misc.py:58-72 | `is_close` raises exactly when the shapes do not broadcast; for equal lengths it holds iff every pair differs by less than `tol`; a scalar is compared with every element |
| Misc.IsCloseSymmetric | sscanss/core/math/misc.py:70-72 | closeness does not depend on the order of the operands |
| Misc.IsCloseReflexive | sscanss/core/math/misc.py:70-72 | with `tol > 0` every array is close to itself |
| Misc.Trunc | sscanss/core/math/misc.py:44-55 | `math.trunc(value * 10**decimals) / 10**decimals`; `TruncIsScaledTruncation`, `TruncTowardZero`, `TruncWithinOneStep`, `TruncWhole` and `TruncIdempotent` give its meaning |
| Misc.Shift | sscanss/core/math/misc.py:54-55 | `x * 10 ** e`, one decimal step at a time; `ShiftIsScaling` proves it is multiplication by `10 ** e` |
| Misc.TruncateToInt | sscanss/core/math/misc.py:55 | `math.trunc`, rounding toward zero; `TruncateToIntBounds` proves it within one of its argument and no farther from zero |
| Nodes.MergeIsLeastEnclosing | sscanss/core/scene/node.py:153-156 | the box of `np.maximum` of the maxima and `np.minimum` of the minima encloses both boxes and is the least box that does |
| Nodes.EnclosesTransitive | sscanss/core/scene/node.py:92-95 | a box that encloses a box encloses everything that box encloses, so growing a box keeps what it already held |
| Nodes.PointsBoxIsLeast | sscanss/core/scene/node.py:91 | `BoundingBox.fromPoints(vertices)` contains every vertex and lies inside any box that contains them all |
| Nodes.GrowAllIsLeast | sscanss/core/scene/node.py:91-95 | the setter's loop over the children fails exactly when some child has no box, and otherwise gives the least box enclosing the vertices' box and every child's box |
| Nodes.VerticesBoxEncloses | sscanss/core/scene/node.py:84-95 | the box the setter computes exists exactly when there are vertices and every child has a box, and then holds every vertex and every child box |
| Nodes.Extend | sscanss/core/scene/node.py:152-156 | `addChild`'s new box encloses the child's box, and the old box when there was one |
| Nodes.TranslationsCompose | sscanss/core/scene/node.py:158-167 | two `translate` calls applied to one transform add up: the product of the two translation matrices is the translation by the sum |
| Nodes.BoxesOf | sscanss/core/scene/node.py:92-94 | the list of the children's boxes, one per child, in order |
| Nodes.NodeList.constructor | sscanss/core/scene/node.py:53 | a new children list is empty |
| Nodes.Node.constructor | sscanss/core/scene/node.py:33-53 | `Node()` has no vertices, no box, colour black, solid rendering with triangles, the identity transform, no parent, visible, unselected and a new empty children list |
| Nodes.Node.FromMesh | sscanss/core/scene/node.py:33-53 | `Node(mesh)` takes the mesh's vertices, box and colour, with the other attributes as for `Node()` |
| Nodes.Node.Copy | sscanss/core/scene/node.py:55-77 | `copy(transform)` is a shallow copy: the same vertices, box, attributes, parent and the same children list object, and the given transform or else this node's |
| Nodes.Node.InheritedColour | sscanss/core/scene/node.py:97-102 | the `colour` getter returns the first colour set along the parent chain, and `None` exactly when no node on the chain has one |
| Nodes.Node.InheritedVisible | sscanss/core/scene/node.py:108-113 | the `visible` getter returns the first visibility set along the parent chain, and `None` exactly when none is set |
| Nodes.Node.InheritedRenderMode | sscanss/core/scene/node.py:119-124 | the `render_mode` getter returns the first render mode set along the parent chain, and `None` exactly when none is set |
| Nodes.Node.AddChild | sscanss/core/scene/node.py:140-156 | an empty child changes nothing; otherwise the child gets this node as parent and is appended, then a child without a box raises with the box unchanged, and otherwise the box grows to the least box enclosing the old box and the child's |
| Nodes.Node.SetVertices | sscanss/core/scene/node.py:83-95 | the vertices are replaced; the box becomes the least box of the new vertices and every child box; empty vertices or a child without a box raise and leave the old box |
| Nodes.Node.Translate | sscanss/core/scene/node.py:158-167 | an empty node keeps its transform; any other node's transform is post-multiplied by the translation matrix |
| Nodes.Node.Flatten | sscanss/core/scene/node.py:169-189 | the result is a new node with this node's box whose children are, in order, the non-empty leaf children moved with their parent cleared, the flattened children of every child with children, and a boxed copy of this node when it has vertices; otherwise the new node has the defaults of `Node()` (no vertices, black, solid triangles, the identity transform, no parent, visible, not selected); it fails exactly when one of the copies' boxes cannot be computed; only `parent` fields of the tree change |
| Nodes.Node.CopyWithBox | sscanss/core/scene/node.py:185-186 | `parent = self.copy(); parent.vertices = self.vertices` gives a new node with this node's attributes, vertices and children list, and the box its vertices and children give, or fails exactly when that box does not exist |
| Nodes.Node.FlattenSelf | sscanss/core/scene/node.py:184-187 | after the loop, the copy of a node with vertices is appended last, and a node without vertices adds nothing |
| Nodes.Node.FlattenChild | sscanss/core/scene/node.py:177-182 | one pass of the loop: a child with children contributes its flattened children, a non-empty leaf is moved over with its parent cleared, and an empty leaf adds nothing |
| Nodes.CopiesBoxedConcat | sscanss/core/scene/node.py:177-187 | the copies of a concatenation of collected children have boxes exactly when those of both parts do |
| Nodes.PrefixCopiesBoxed | sscanss/core/scene/node.py:177-189 | when the whole flatten succeeds, so does every prefix of its loop |
| Nodes.Merge | sscanss/core/scene/node.py:153-156 | the box of the component-wise maxima and minima; `MergeIsLeastEnclosing` gives its meaning |
| Nodes.PointsBox | sscanss/core/scene/node.py:91 | `BoundingBox.fromPoints` of non-empty vertices; `PointsBoxIsLeast` gives its meaning |
| Nodes.GrowAll | sscanss/core/scene/node.py:92-94 | the setter's loop over the children's boxes; `GrowAllIsLeast` gives its meaning |
| Nodes.VerticesBox | sscanss/core/scene/node.py:90-95 | the box the `vertices` setter computes, or its error; `VerticesBoxEncloses` gives its meaning |
| Nodes.Node.IsEmpty | sscanss/core/scene/node.py:130-138 | no children and no vertices; `ChildFacts` and the contracts of `AddChild`, `Translate` and `Flatten` use it |
| Nodes.FlatEntries | sscanss/core/scene/node.py:169-189 | the children `flatten` produces: those the loop collects, then the copy of the node; the contract of `Node.Flatten` is stated with it |
| Nodes.KidEntries | sscanss/core/scene/node.py:177-182 | what one child contributes: its flattened children, itself when a non-empty leaf, or nothing |
| Nodes.SelfEntry | sscanss/core/scene/node.py:184-187 | the copy appended last when the node has vertices, with the box its vertices give |
| Nodes.Black | sscanss/core/scene/node.py:39 | `Colour.black()`, the opaque black a node without a mesh gets; the contracts of `Node.constructor` and `Node.Flatten` use it |

## Left out

- `SerialManipulator` requires its links to be distinct objects. Python would accept the same `Link` twice, and then moving one index moves the other; the model does not cover that aliasing.
- `SerialManipulator.model` builds scene meshes, so it is not part of this model.
- The `Quaternion` component and axis setters and `__setitem__` are not modelled, because no modelled operation calls them. `Quaternion` is a value.
- QuaternionProperties.NormalizeIsUnit: requires a non-zero magnitude, the guard `normalize` itself tests. The zero case is `NormalizeZero`.
- `sqrt`, `sin`, `cos` and `acos` are parameters constrained only by the laws above; no other property of the real functions is used.
- The equivalence of `rotate` with multiplication by `toMatrix`, and the general `fromMatrix(toMatrix(q))` round trip, are not proved. The round trip has a sign ambiguity; only the identity round trip is proved.
- Floating-point rounding, overflow and NaN are not modelled: every quantity is a real number.
- `ri.tool_link` is used by `numeric_inverse_kinematics` but not defined on `SerialManipulator`, so it is a parameter.
- `dual_annealing` (scipy, stochastic, with a Nelder-Mead local search) is an oracle. The oracle gives the trial vectors, the final vector and their bounds. Its `callback` is not modelled, because it only decides when the optimiser stops, which the oracle already fixes.
- The `QTimeLine` inside `Sequence` (time-to-frame mapping, timer scheduling, Qt signal dispatch) is not modelled. Only the current time, the running flag and the effect of `animate` on the frame log are kept.
- Trajectories.Sequence.Start: does not record the frame callback the timeline would emit when its time jumps back to 0, because the frame a time maps to belongs to the unmodelled `QTimeLine`.
- Trajectories.Sequence.Stop: does not record the frame callback the timeline would emit when its time is moved to the end of the timeline, for the same reason.
- Node factories (`create_*_node`) and the `indices` and `normals` arrays of a node are not modelled. They are only carried along.
- `BoundingBox.transform` and the `Matrix44` internals are not part of this model. Reading a node's box applies its transform as the identity. So the copy made in `flatten` is not transformed twice, unlike in the source.
- `BoundingBox.fromPoints` is taken as the component-wise extremes of the points. An empty vertex array raises (`NoVertices`).
- Nodes.Node.InheritedColour, Nodes.Node.InheritedVisible and Nodes.Node.InheritedRenderMode are modelled only on a finite parent chain that ends at a root. When the parent links form a cycle, the source still returns a node's own value when it has one, and that case is not stated.
- Nodes.Node.Flatten: requires a finite snapshot of the tree below the node. Such a snapshot exists only for an acyclic tree; the source recurses forever on a cycle. The contract does not state the `parent` of the copies it makes.
- Nodes.Node.Translate: the matrix product is stated, not its algebra. Beyond `TranslationsCompose`, no property of `@=` is proved.
- Misc.IsClose: an operand is a scalar (a sequence of length 1) or a 1-D array, and `Misc.Broadcast` covers only those shapes. NumPy broadcasts arrays of any rank; only 1-D arrays have a modelled caller.
- Default arguments are not modelled: `tol=1e-5` of `is_close`, `min_value` and `max_value` of `clamp`, and `decimals=0` of `trunc` are ordinary parameters that every caller passes.
- Quaternions.ToAxisAngle: a NumPy division by zero gives inf or NaN and raises nothing; the model reports it as `Err(NonFinite)`, which carries no number.
- Quaternions.FromMatrix: a zero `sqrt(t)` divisor is reported as `Err(NonFinite)` in the same way, instead of a quaternion of infinities.
- With no free joints, the optimiser is called with empty `_bounds`. What `dual_annealing` then does belongs to the oracle: the model only asks for its answers to have length zero.

## Findings

| source | as written | input that shows it | evidently intended | confidence | as-written member | corrected member |
|---|---|---|---|---|---|---|
| sscanss/core/instrument/robotics.py:438-440 | `best_result = opt(q0)` runs outside the `try`. So when the initial cost is already below `tol * tol`, `opt` raises `StopOptimizingException` out of `numeric_inverse_kinematics`, and `return q0` can never run | a robot whose entry configuration already reaches the target exactly, with `tol > 0`: the cost is 0, which is below `tol * tol` | return `q0` without optimising when the entry configuration is already within tolerance | not executed | InverseKinematics.ReachedTargetRaises | InverseKinematics.CorrectedOutcomes |
