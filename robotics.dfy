/**
 * Serial manipulators: links that move along or about a joint axis, and an
 * open kinematic chain whose forward kinematics folds the link poses.
 */
module Robotics {
  import opened Results
  import opened MathFunctions
  import opened LinearAlgebra
  import opened Quaternions
  import opened QuaternionProperties
  import opened Poses

  /** A joint axis shorter than this is rejected as a zero vector. */
  const MinAxisLength: real := 0.00001

  datatype JointType = Revolute | Prismatic

  /** `Link` raises `ValueError` for a zero joint axis. */
  datatype LinkError = ZeroJointAxis

  /** The parts of a link that never change after construction. */
  datatype Joint = Joint(axis: Vector3, home: Vector3, jointType: JointType, defaultOffset: real)

  /** The parts of a link that `move` and `reset` update. */
  datatype LinkState = LinkState(offset: real, setPoint: real, locked: bool, ignoreLimits: bool,
                                 quaternion: Quaternion, vector: Vector3)

  /** `link.quaterionVectorPair`, as a value. */
  function PairOf(s: LinkState): Pose { Pose(s.quaternion, s.vector) }

  /**
   * The state after `link.move(offset, ignore_locks, setpoint)`. A locked link
   * ignores the move unless locks are ignored; a revolute link turns about its
   * axis by `offset`, a prismatic one slides `offset` along it and keeps its
   * quaternion.
   */
  function Moved(m: Maths, j: Joint, s: LinkState, offset: real, ignoreLocks: bool, setpoint: bool): LinkState
  {
    if s.locked && !ignoreLocks then s
    else
      var setPoint := if setpoint then offset else s.setPoint;
      match j.jointType
      case Revolute =>
        s.(offset := offset, setPoint := setPoint, quaternion := FromAxisAngle(m, j.axis, offset),
           vector := Rotate(m, FromAxisAngle(m, j.axis, offset), j.home))
      case Prismatic =>
        s.(offset := offset, setPoint := setPoint, vector := Add(j.home, Scale(j.axis, offset)))
  }

  /** The state after `link.reset()`: a move to the default offset that ignores the lock. */
  function ResetState(m: Maths, j: Joint, s: LinkState): LinkState
  {
    Moved(m, j, s, j.defaultOffset, true, true)
  }

  /** A locked link does not move unless locks are ignored. */
  lemma MoveLockedIsNoOp(m: Maths, j: Joint, s: LinkState, offset: real, setpoint: bool)
    requires s.locked
    ensures Moved(m, j, s, offset, false, setpoint) == s
  {
  }

  /**
   * An unlocked move (or one that ignores locks) takes the new offset, takes it
   * as set point only when asked, and leaves the lock and the limit flag alone.
   */
  lemma MoveUpdatesOffset(m: Maths, j: Joint, s: LinkState, offset: real, ignoreLocks: bool, setpoint: bool)
    requires !s.locked || ignoreLocks
    ensures Moved(m, j, s, offset, ignoreLocks, setpoint).offset == offset
    ensures Moved(m, j, s, offset, ignoreLocks, setpoint).setPoint == if setpoint then offset else s.setPoint
    ensures Moved(m, j, s, offset, ignoreLocks, setpoint).locked == s.locked
    ensures Moved(m, j, s, offset, ignoreLocks, setpoint).ignoreLimits == s.ignoreLimits
  {
  }

  /** Moving twice to the same offset is the same as moving once. */
  lemma MoveIdempotent(m: Maths, j: Joint, s: LinkState, offset: real, ignoreLocks: bool, setpoint: bool)
    ensures Moved(m, j, Moved(m, j, s, offset, ignoreLocks, setpoint), offset, ignoreLocks, setpoint)
            == Moved(m, j, s, offset, ignoreLocks, setpoint)
  {
  }

  /**
   * The pose after an unlocked move depends only on the offset, not on where
   * the link was: for a prismatic link, as long as its quaternion is the one
   * it was built with.
   */
  lemma MovedPoseForgetsHistory(m: Maths, j: Joint, s: LinkState, t: LinkState, offset: real,
                                ignoreLocks: bool, setpoint: bool)
    requires (!s.locked && !t.locked) || ignoreLocks
    requires j.jointType == Prismatic ==> s.quaternion == t.quaternion
    ensures PairOf(Moved(m, j, s, offset, ignoreLocks, setpoint)) == PairOf(Moved(m, j, t, offset, ignoreLocks, setpoint))
  {
  }

  /** `reset` puts the link at its default offset and set point even when it is locked. */
  lemma ResetIgnoresLock(m: Maths, j: Joint, s: LinkState)
    ensures ResetState(m, j, s).offset == j.defaultOffset
    ensures ResetState(m, j, s).setPoint == j.defaultOffset
    ensures ResetState(m, j, s).locked == s.locked && ResetState(m, j, s).ignoreLimits == s.ignoreLimits
  {
  }

  /**
   * At offset zero a revolute link sits at its home point with no rotation:
   * `fromAxisAngle(axis, 0)` is the identity, and rotating `home` by it leaves `home`.
   */
  lemma RevoluteZeroOffsetPose(m: Maths, j: Joint, s: LinkState, ignoreLocks: bool, setpoint: bool)
    requires TrigAtZero(m) && m.sqrt(1.0) == 1.0
    requires j.jointType == Revolute && (!s.locked || ignoreLocks)
    ensures PairOf(Moved(m, j, s, 0.0, ignoreLocks, setpoint)) == Pose(Identity(), j.home)
  {
    hide Rotate, FromAxisAngle;
    FromAxisAngleZero(m, j.axis);
    RotateByZeroAngle(m, j.axis, j.home);
  }

  /**
   * At offset zero a prismatic link, whose quaternion is `fromAxisAngle(axis, 0)`
   * from its construction, sits at its home point with no rotation.
   */
  lemma PrismaticZeroOffsetPose(m: Maths, j: Joint, s: LinkState, ignoreLocks: bool, setpoint: bool)
    requires TrigAtZero(m)
    requires j.jointType == Prismatic && (!s.locked || ignoreLocks)
    requires s.quaternion == FromAxisAngle(m, j.axis, 0.0)
    ensures PairOf(Moved(m, j, s, 0.0, ignoreLocks, setpoint)) == Pose(Identity(), j.home)
  {
    FromAxisAngleZero(m, j.axis);
    assert Add(j.home, Scale(j.axis, 0.0)) == j.home;
  }

  /** `qs = identity(); for each pair: qs *= pair`: the link poses composed from the first to the last. */
  function ChainPose(m: Maths, states: seq<LinkState>): Pose
    decreases |states|
  {
    if states == [] then IdentityPose()
    else Compose(m, ChainPose(m, states[..|states| - 1]), PairOf(states[|states| - 1]))
  }

  /** A chain of one link has that link's pose. */
  lemma ChainPoseSingle(m: Maths, s: LinkState)
    requires m.sqrt(1.0) == 1.0
    ensures ChainPose(m, [s]) == PairOf(s)
  {
    assert [s][..0] == [];
    ComposeLeftUnit(m, PairOf(s));
  }

  /** Appending a link composes its pose on the right of the chain's. */
  lemma ChainPoseAppend(m: Maths, states: seq<LinkState>, s: LinkState)
    ensures ChainPose(m, states + [s]) == Compose(m, ChainPose(m, states), PairOf(s))
  {
    assert (states + [s])[..|states|] == states;
  }

  /** A prefix one element longer is the prefix with that element appended. */
  lemma PrefixExtend(states: seq<LinkState>, i: nat)
    requires i < |states|
    ensures states[..i + 1] == states[..i] + [states[i]]
  {
  }

  /** The window over every link is the whole chain. */
  lemma WindowWhole(states: seq<LinkState>)
    ensures Window(states, 0, |states|) == states
  {
  }

  /** `base @ qs.toMatrix() @ tool`. */
  function ChainMatrix(base: Matrix44, pose: Pose, tool: Matrix44): Matrix44
  {
    MatMul44(MatMul44(base, PoseMatrix(pose)), tool)
  }

  /** `fkine`'s first link: a negative start index counts as zero. */
  function FkineStart(startIndex: int): nat { if startIndex < 0 then 0 else startIndex }

  /** `fkine`'s end index: `None`, or one past the last link, counts as the link count. */
  function FkineEnd(count: nat, endIndex: Option<int>): int
  {
    if endIndex.None? || endIndex.value > count then count else endIndex.value
  }

  /** The states `states[lo..hi]` when that range is not empty, else none. */
  function Window(states: seq<LinkState>, lo: nat, hi: int): seq<LinkState>
    requires lo < hi ==> hi <= |states|
  {
    if lo < hi then states[lo..hi] else []
  }

  /** The link states after `fkine` moves the links `lo <= i < hi` to `q[i]`. */
  function FkineStates(m: Maths, joints: seq<Joint>, states: seq<LinkState>, q: seq<real>, lo: nat, hi: int,
                       ignoreLocks: bool, setpoint: bool): (r: seq<LinkState>)
    requires |joints| == |states| == |q|
    ensures |r| == |states|
  {
    seq(|states|, i requires 0 <= i < |states| =>
      if lo <= i < hi then Moved(m, joints[i], states[i], q[i], ignoreLocks, setpoint) else states[i])
  }

  /** An empty range moves nothing. */
  lemma FkineStatesEmptyRange(m: Maths, joints: seq<Joint>, states: seq<LinkState>, q: seq<real>, lo: nat, hi: int,
                              ignoreLocks: bool, setpoint: bool)
    requires |joints| == |states| == |q| && hi <= lo
    ensures FkineStates(m, joints, states, q, lo, hi, ignoreLocks, setpoint) == states
  {
  }

  /** Moving link `i` after the links `lo..i` gives the states of the range `lo..i+1`. */
  lemma FkineStatesStep(m: Maths, joints: seq<Joint>, states: seq<LinkState>, q: seq<real>, lo: nat, i: nat,
                        ignoreLocks: bool, setpoint: bool)
    requires |joints| == |states| == |q| && lo <= i < |states|
    ensures FkineStates(m, joints, states, q, lo, i, ignoreLocks, setpoint)[i] == states[i]
    ensures FkineStates(m, joints, states, q, lo, i, ignoreLocks, setpoint)[i := Moved(m, joints[i], states[i], q[i], ignoreLocks, setpoint)]
            == FkineStates(m, joints, states, q, lo, i + 1, ignoreLocks, setpoint)
  {
  }

  /** The pose `fkine` composes: the identity followed by each link of `lo..hi` after its move. */
  function MovedChain(m: Maths, joints: seq<Joint>, states: seq<LinkState>, q: seq<real>, lo: nat, hi: int,
                      ignoreLocks: bool, setpoint: bool): Pose
    requires |joints| == |states| == |q| && (lo < hi ==> hi <= |states|)
    decreases hi - lo
  {
    if hi <= lo then IdentityPose()
    else Compose(m, MovedChain(m, joints, states, q, lo, hi - 1, ignoreLocks, setpoint),
                 PairOf(Moved(m, joints[hi - 1], states[hi - 1], q[hi - 1], ignoreLocks, setpoint)))
  }

  /** The pose composed while moving is the chain pose of the moved window. */
  lemma {:induction false} MovedChainIsChainPose(m: Maths, joints: seq<Joint>, states: seq<LinkState>, q: seq<real>,
                                                 lo: nat, hi: int, ignoreLocks: bool, setpoint: bool)
    requires |joints| == |states| == |q| && (lo < hi ==> hi <= |states|)
    ensures MovedChain(m, joints, states, q, lo, hi, ignoreLocks, setpoint)
            == ChainPose(m, Window(FkineStates(m, joints, states, q, lo, hi, ignoreLocks, setpoint), lo, hi))
    decreases hi - lo
  {
    if lo < hi {
      hide Compose, Moved, PairOf, ChainPose, FkineStates, Window;
      MovedChainIsChainPose(m, joints, states, q, lo, hi - 1, ignoreLocks, setpoint);
      FkineWindowExtend(m, joints, states, q, lo, hi, ignoreLocks, setpoint);
      ChainPoseAppend(m, Window(FkineStates(m, joints, states, q, lo, hi - 1, ignoreLocks, setpoint), lo, hi - 1),
                      Moved(m, joints[hi - 1], states[hi - 1], q[hi - 1], ignoreLocks, setpoint));
      assert MovedChain(m, joints, states, q, lo, hi, ignoreLocks, setpoint)
             == ChainPose(m, Window(FkineStates(m, joints, states, q, lo, hi, ignoreLocks, setpoint), lo, hi));
    }
  }

  /** Widening the moved range by one link appends that link, moved, to the window. */
  lemma FkineWindowExtend(m: Maths, joints: seq<Joint>, states: seq<LinkState>, q: seq<real>, lo: nat, hi: nat,
                          ignoreLocks: bool, setpoint: bool)
    requires |joints| == |states| == |q| && lo < hi <= |states|
    ensures Window(FkineStates(m, joints, states, q, lo, hi, ignoreLocks, setpoint), lo, hi)
            == Window(FkineStates(m, joints, states, q, lo, hi - 1, ignoreLocks, setpoint), lo, hi - 1)
               + [Moved(m, joints[hi - 1], states[hi - 1], q[hi - 1], ignoreLocks, setpoint)]
  {
    hide Moved;
    var shorter := FkineStates(m, joints, states, q, lo, hi - 1, ignoreLocks, setpoint);
    var longer := FkineStates(m, joints, states, q, lo, hi, ignoreLocks, setpoint);
    assert longer[lo..hi - 1] == shorter[lo..hi - 1];
  }

  /** `[link.offset for link in links]`. */
  function Offsets(states: seq<LinkState>): (r: seq<real>)
    ensures |r| == |states|
  {
    seq(|states|, i requires 0 <= i < |states| => states[i].offset)
  }

  /** `[link.set_point for link in links]`. */
  function SetPointsOf(states: seq<LinkState>): (r: seq<real>)
    ensures |r| == |states|
  {
    seq(|states|, i requires 0 <= i < |states| => states[i].setPoint)
  }

  /**
   * `fkine` moves only the links in its range; the others keep their state.
   * Inside the range each link takes the state `move` gives it.
   */
  lemma FkineMovesOnlyRange(m: Maths, joints: seq<Joint>, states: seq<LinkState>, q: seq<real>, lo: nat, hi: int,
                            ignoreLocks: bool, setpoint: bool, k: nat)
    requires |joints| == |states| == |q| && k < |states|
    ensures !(lo <= k < hi) ==> FkineStates(m, joints, states, q, lo, hi, ignoreLocks, setpoint)[k] == states[k]
    ensures lo <= k < hi ==> FkineStates(m, joints, states, q, lo, hi, ignoreLocks, setpoint)[k]
                              == Moved(m, joints[k], states[k], q[k], ignoreLocks, setpoint)
  {
  }

  /** After a full-range `fkine(q)` in which no link is held by its lock, the configuration is `q`. */
  lemma {:induction false} FkineConfiguration(m: Maths, joints: seq<Joint>, states: seq<LinkState>, q: seq<real>,
                                              ignoreLocks: bool, setpoint: bool)
    requires |joints| == |states| == |q|
    requires forall i :: 0 <= i < |states| ==> !states[i].locked || ignoreLocks
    ensures Offsets(FkineStates(m, joints, states, q, 0, |states|, ignoreLocks, setpoint)) == q
  {
    var after := FkineStates(m, joints, states, q, 0, |states|, ignoreLocks, setpoint);
    forall i | 0 <= i < |states|
      ensures Offsets(after)[i] == q[i]
    {
      MoveUpdatesOffset(m, joints[i], states[i], q[i], ignoreLocks, setpoint);
    }
  }

  /** An `fkine` with `setpoint=False` leaves every set point as it was. */
  lemma {:induction false} FkineKeepsSetPoints(m: Maths, joints: seq<Joint>, states: seq<LinkState>, q: seq<real>,
                                               lo: nat, hi: int, ignoreLocks: bool)
    requires |joints| == |states| == |q|
    ensures SetPointsOf(FkineStates(m, joints, states, q, lo, hi, ignoreLocks, false)) == SetPointsOf(states)
  {
    var after := FkineStates(m, joints, states, q, lo, hi, ignoreLocks, false);
    forall i | 0 <= i < |states|
      ensures SetPointsOf(after)[i] == SetPointsOf(states)[i]
    {
      if lo <= i < hi && (!states[i].locked) {
        MoveUpdatesOffset(m, joints[i], states[i], q[i], ignoreLocks, false);
      }
    }
  }

  /** The link states after `resetOffsets`: every link reset, locks and limit flags kept. */
  function ResetOffsetsStates(m: Maths, joints: seq<Joint>, states: seq<LinkState>): (r: seq<LinkState>)
    requires |joints| == |states|
    ensures |r| == |states|
  {
    seq(|states|, i requires 0 <= i < |states| => ResetState(m, joints[i], states[i]))
  }

  /** The link states after `reset`: every link reset, then unlocked and held to its limits. */
  function ResetStates(m: Maths, joints: seq<Joint>, states: seq<LinkState>): (r: seq<LinkState>)
    requires |joints| == |states|
    ensures |r| == |states|
  {
    seq(|states|, i requires 0 <= i < |states| =>
      ResetState(m, joints[i], states[i]).(locked := false, ignoreLimits := false))
  }

  /**
   * Both resets bring every link to its default offset and set point; `reset`
   * also clears every lock and limit flag, while `resetOffsets` keeps them.
   */
  lemma {:induction false} ResetsRestoreDefaults(m: Maths, joints: seq<Joint>, states: seq<LinkState>, k: nat)
    requires |joints| == |states| && k < |states|
    ensures ResetStates(m, joints, states)[k].offset == joints[k].defaultOffset
    ensures ResetStates(m, joints, states)[k].setPoint == joints[k].defaultOffset
    ensures !ResetStates(m, joints, states)[k].locked && !ResetStates(m, joints, states)[k].ignoreLimits
    ensures ResetOffsetsStates(m, joints, states)[k].offset == joints[k].defaultOffset
    ensures ResetOffsetsStates(m, joints, states)[k].setPoint == joints[k].defaultOffset
    ensures ResetOffsetsStates(m, joints, states)[k].locked == states[k].locked
    ensures ResetOffsetsStates(m, joints, states)[k].ignoreLimits == states[k].ignoreLimits
  {
    ResetIgnoresLock(m, joints[k], states[k]);
  }

  /** The link states after the `set_points` setter: `zip` writes the first `min(len(q), n)` set points. */
  function WithSetPoints(states: seq<LinkState>, q: seq<real>): (r: seq<LinkState>)
    ensures |r| == |states|
  {
    seq(|states|, i requires 0 <= i < |states| => if i < |q| then states[i].(setPoint := q[i]) else states[i])
  }

  /**
   * The `set_points` setter changes only set points: the first `min(len(q), n)`
   * become the leading values of `q`, the rest are kept.
   */
  lemma {:induction false} WithSetPointsPrefix(states: seq<LinkState>, q: seq<real>)
    ensures |q| <= |states| ==> SetPointsOf(WithSetPoints(states, q)) == q + SetPointsOf(states)[|q|..]
    ensures |states| <= |q| ==> SetPointsOf(WithSetPoints(states, q)) == q[..|states|]
    ensures Offsets(WithSetPoints(states, q)) == Offsets(states)
  {
    var after := SetPointsOf(WithSetPoints(states, q));
    if |q| <= |states| {
      forall i | 0 <= i < |states|
        ensures after[i] == (q + SetPointsOf(states)[|q|..])[i]
      {
      }
    }
    assert Offsets(WithSetPoints(states, q)) == Offsets(states);
  }

  /** A link of a serial manipulator, in quaternion-vector notation. */
  class Link {
    const jointAxis: Vector3
    const home: Vector3
    const jointType: JointType
    const defaultOffset: real
    const lowerLimit: Option<real>
    const upperLimit: Option<real>
    const name: string
    var quaternion: Quaternion
    var vector: Vector3
    var offset: real
    var setPoint: real
    var locked: bool
    var ignoreLimits: bool

    /** The fixed description of this link. */
    function Description(): Joint { Joint(jointAxis, home, jointType, defaultOffset) }

    function State(): LinkState
      reads this
    {
      LinkState(offset, setPoint, locked, ignoreLimits, quaternion, vector)
    }

    /** The axis is long enough, and a prismatic link keeps the quaternion it was built with. */
    ghost predicate Valid(m: Maths)
      reads this
    {
      MinAxisLength <= Length(m, jointAxis)
      && (jointType == Prismatic ==> quaternion == FromAxisAngle(m, jointAxis, 0.0))
    }

    /** `Link(axis, point, joint_type, ...)` for an axis the source accepts; it ends with `reset()`. */
    constructor (m: Maths, axis: Vector3, point: Vector3, jointType: JointType, defaultOffset: real,
                 upperLimit: Option<real>, lowerLimit: Option<real>, name: string)
      requires MinAxisLength <= Length(m, axis)
      ensures Valid(m)
      ensures Description() == Joint(axis, point, jointType, defaultOffset)
      ensures this.upperLimit == upperLimit && this.lowerLimit == lowerLimit && this.name == name
      ensures State() == ResetState(m, Description(),
                                    LinkState(defaultOffset, defaultOffset, false, false, FromAxisAngle(m, axis, 0.0), point))
    {
      jointAxis := axis;
      quaternion := FromAxisAngle(m, axis, 0.0);
      vector := point;
      home := point;
      this.jointType := jointType;
      this.lowerLimit := lowerLimit;
      this.upperLimit := upperLimit;
      this.defaultOffset := defaultOffset;
      setPoint := defaultOffset;
      this.name := name;
      locked := false;
      ignoreLimits := false;
      new;
      Reset(m);
    }

    /** `link.move(offset, ignore_locks, setpoint)`. */
    method Move(m: Maths, newOffset: real, ignoreLocks: bool, setpoint: bool)
      requires Valid(m)
      modifies this`offset, this`setPoint, this`quaternion, this`vector
      ensures Valid(m)
      ensures State() == Moved(m, Description(), old(State()), newOffset, ignoreLocks, setpoint)
    {
      if locked && !ignoreLocks {
        return;
      }
      offset := newOffset;
      setPoint := if setpoint then newOffset else setPoint;
      if jointType == Revolute {
        quaternion := FromAxisAngle(m, jointAxis, newOffset);
        vector := Rotate(m, quaternion, home);
      } else {
        vector := Add(home, Scale(jointAxis, newOffset));
      }
    }

    /** `link.reset()`. */
    method Reset(m: Maths)
      requires Valid(m)
      modifies this`offset, this`setPoint, this`quaternion, this`vector
      ensures Valid(m)
      ensures State() == ResetState(m, Description(), old(State()))
    {
      Move(m, defaultOffset, true, true);
    }

    /** The pose this link contributes to the chain. */
    function Pair(): Pose
      reads this
    {
      PairOf(State())
    }

    /** `link.quaterionVectorPair`: a new pair object holding the link's pose. */
    method VectorPair() returns (p: QuaternionVectorPair)
      ensures fresh(p) && p.Value() == Pair()
    {
      p := new QuaternionVectorPair(quaternion, vector);
    }

    /** `link.transformationMatrix`. */
    function TransformationMatrix(): Matrix44
      reads this
    {
      PoseMatrix(Pair())
    }
  }

  /** `Link(...)`: raises for an axis shorter than `MinAxisLength`, otherwise a new link at its default offset. */
  method CreateLink(m: Maths, axis: Vector3, point: Vector3, jointType: JointType, defaultOffset: real,
                    upperLimit: Option<real>, lowerLimit: Option<real>, name: string)
    returns (r: Result<Link, LinkError>)
    ensures r.Err? <==> Length(m, axis) < MinAxisLength
    ensures r.Ok? ==> fresh(r.value) && r.value.Valid(m)
                      && r.value.Description() == Joint(axis, point, jointType, defaultOffset)
                      && r.value.offset == defaultOffset && r.value.setPoint == defaultOffset
                      && !r.value.locked && !r.value.ignoreLimits
  {
    if Length(m, axis) < MinAxisLength {
      return Err(ZeroJointAxis);
    }
    var link := new Link(m, axis, point, jointType, defaultOffset, upperLimit, lowerLimit, name);
    r := Ok(link);
  }

  /** No link object appears twice in the list. */
  predicate DistinctLinks(links: seq<Link>)
  {
    forall i, j :: 0 <= i < |links| && 0 <= j < |links| && i != j ==> links[i] != links[j]
  }

  /** An open kinematic chain of links between a base and a tool matrix. */
  class SerialManipulator {
    const name: string
    const links: seq<Link>
    const defaultBase: Matrix44
    var base: Matrix44
    var tool: Matrix44

    ghost predicate Valid(m: Maths)
      reads this, links
    {
      DistinctLinks(links) && forall i :: 0 <= i < |links| ==> links[i].Valid(m)
    }

    /** `SerialManipulator(links, base, tool)`: a missing base or tool is the identity. */
    constructor (m: Maths, links: seq<Link>, base: Option<Matrix44>, tool: Option<Matrix44>, name: string)
      requires DistinctLinks(links) && forall i :: 0 <= i < |links| ==> links[i].Valid(m)
      ensures Valid(m) && this.links == links && this.name == name
      ensures this.base == (if base.Some? then base.value else Identity44()) && defaultBase == this.base
      ensures this.tool == if tool.Some? then tool.value else Identity44()
    {
      this.name := name;
      this.links := links;
      this.base := if base.Some? then base.value else Identity44();
      defaultBase := if base.Some? then base.value else Identity44();
      this.tool := if tool.Some? then tool.value else Identity44();
    }

    function NumberOfLinks(): nat { |links| }

    function Joints(): (r: seq<Joint>)
      ensures |r| == |links|
    {
      seq(|links|, i requires 0 <= i < |links| => links[i].Description())
    }

    function States(): (r: seq<LinkState>)
      reads links
      ensures |r| == |links|
    {
      seq(|links|, i requires 0 <= i < |links| reads links => links[i].State())
    }

    /** `configuration`: the current offset of every link. */
    function Configuration(): seq<real>
      reads links
    {
      seq(|links|, i requires 0 <= i < |links| reads links => links[i].offset)
    }

    /** `set_points`: the set point of every link. */
    function SetPoints(): seq<real>
      reads links
    {
      seq(|links|, i requires 0 <= i < |links| reads links => links[i].setPoint)
    }

    /** The getters agree with the per-state views. */
    lemma GettersMatchStates()
      ensures Configuration() == Offsets(States())
      ensures SetPoints() == SetPointsOf(States())
    {
    }

    /**
     * `fkine(q, start_index, end_index, include_base, ignore_locks, setpoint)`:
     * moves the links of the clamped range and returns the composed matrix, with
     * the base only from the first link and the tool only up to the last.
     */
    method Fkine(m: Maths, q: seq<real>, startIndex: int, endIndex: Option<int>, includeBase: bool,
                 ignoreLocks: bool, setpoint: bool) returns (h: Matrix44)
      requires Valid(m) && |q| == |links|
      modifies links
      ensures Valid(m)
      ensures States() == FkineStates(m, Joints(), old(States()), q, FkineStart(startIndex),
                                      FkineEnd(|links|, endIndex), ignoreLocks, setpoint)
      ensures h == ChainMatrix(if includeBase && FkineStart(startIndex) == 0 then base else Identity44(),
                               ChainPose(m, Window(States(), FkineStart(startIndex), FkineEnd(|links|, endIndex))),
                               if FkineEnd(|links|, endIndex) == |links| then tool else Identity44())
      ensures startIndex <= 0 && endIndex.None? && includeBase ==> h == ChainMatrix(base, ChainPose(m, States()), tool)
    {
      var count := |links|;
      var start := FkineStart(startIndex);
      var end := FkineEnd(count, endIndex);
      var b := if includeBase && start == 0 then base else Identity44();
      var t := if end == count then tool else Identity44();
      var qs := MoveRange(m, q, start, end, ignoreLocks, setpoint);
      h := MatMul44(MatMul44(b, qs.HomogeneousMatrix()), t);
      if start == 0 && end == count {
        WindowWhole(States());
      }
    }

    /**
     * The loop of `fkine`: moves each link of `[start, end)` and composes its
     * pose onto `qs`, which starts as the identity pair.
     */
    method MoveRange(m: Maths, q: seq<real>, start: nat, end: int, ignoreLocks: bool, setpoint: bool)
      returns (qs: QuaternionVectorPair)
      requires Valid(m) && |q| == |links| && end <= |links|
      modifies links
      ensures Valid(m) && base == old(base) && tool == old(tool) && fresh(qs)
      ensures States() == FkineStates(m, Joints(), old(States()), q, start, end, ignoreLocks, setpoint)
      ensures qs.Value() == ChainPose(m, Window(States(), start, end))
    {
      hide Compose, Moved, PairOf, FromAxisAngle, Rotate, Length, ChainPose, Window, FkineStates;
      ghost var before := States();
      qs := new QuaternionVectorPair.Identity();
      FkineStatesEmptyRange(m, Joints(), before, q, start, start, ignoreLocks, setpoint);
      var i := start;
      while i < end
        invariant start <= i <= if start < end then end else start
        invariant Valid(m) && base == old(base) && tool == old(tool)
        invariant States() == FkineStates(m, Joints(), before, q, start, i, ignoreLocks, setpoint)
        invariant qs.Value() == MovedChain(m, Joints(), before, q, start, i, ignoreLocks, setpoint)
        invariant forall k :: 0 <= k < |links| ==> links[k] as object != qs
        invariant fresh(qs)
      {
        MoveRangeStep(m, q, start, i, ignoreLocks, setpoint, qs, before);
        i := i + 1;
      }
      if end <= start {
        FkineStatesEmptyRange(m, Joints(), before, q, start, end, ignoreLocks, setpoint);
      }
      MovedChainIsChainPose(m, Joints(), before, q, start, end, ignoreLocks, setpoint);
    }

    /** The loop of `fkine` advanced by one link: both of its invariants carry over from `i` to `i + 1`. */
    method MoveRangeStep(m: Maths, q: seq<real>, start: nat, i: nat, ignoreLocks: bool, setpoint: bool,
                         qs: QuaternionVectorPair, ghost before: seq<LinkState>)
      requires Valid(m) && |q| == |links| == |before| && start <= i < |links|
      requires forall k :: 0 <= k < |links| ==> links[k] as object != qs
      requires States() == FkineStates(m, Joints(), before, q, start, i, ignoreLocks, setpoint)
      requires qs.Value() == MovedChain(m, Joints(), before, q, start, i, ignoreLocks, setpoint)
      modifies links[i], qs`quaternion, qs`vector
      ensures Valid(m)
      ensures States() == FkineStates(m, Joints(), before, q, start, i + 1, ignoreLocks, setpoint)
      ensures qs.Value() == MovedChain(m, Joints(), before, q, start, i + 1, ignoreLocks, setpoint)
    {
      hide Compose, Moved, PairOf;
      FkineStatesStep(m, Joints(), before, q, start, i, ignoreLocks, setpoint);
      MoveAndCompose(m, i, q[i], ignoreLocks, setpoint, qs);
    }

    /** One step of the `fkine` loop: `link.move(q[i], ...)` and then `qs *= link.quaterionVectorPair`. */
    method MoveAndCompose(m: Maths, i: nat, offset: real, ignoreLocks: bool, setpoint: bool, qs: QuaternionVectorPair)
      requires Valid(m) && i < |links|
      requires forall k :: 0 <= k < |links| ==> links[k] as object != qs
      modifies links[i], qs`quaternion, qs`vector
      ensures Valid(m)
      ensures States() == old(States())[i := Moved(m, links[i].Description(), old(links[i].State()), offset, ignoreLocks, setpoint)]
      ensures qs.Value() == Compose(m, old(qs.Value()), PairOf(States()[i]))
    {
      links[i].Move(m, offset, ignoreLocks, setpoint);
      var p := links[i].VectorPair();
      qs.TimesAssign(m, p);
    }

    /** `pose`: the chain's matrix with the links where they are; nothing moves. */
    method Pose(m: Maths) returns (h: Matrix44)
      ensures h == ChainMatrix(base, ChainPose(m, States()), tool)
    {
      ghost var states := States();
      var qs := new QuaternionVectorPair.Identity();
      assert states[..0] == [] && ChainPose(m, states[..0]) == IdentityPose();
      hide FromAxisAngle, Rotate, Length, Moved, Compose, ChainPose, MatMul44, PoseMatrix;
      var i := 0;
      while i < |links|
        invariant 0 <= i <= |links|
        invariant States() == states
        invariant qs.Value() == ChainPose(m, states[..i])
        invariant forall k :: 0 <= k < |links| ==> links[k] as object != qs
      {
        var p := links[i].VectorPair();
        assert p.Value() == PairOf(states[i]);
        qs.TimesAssign(m, p);
        PrefixExtend(states, i);
        ChainPoseAppend(m, states[..i], states[i]);
        i := i + 1;
      }
      assert states[..|links|] == states;
      h := MatMul44(MatMul44(base, qs.HomogeneousMatrix()), tool);
    }

    /** `resetOffsets()`: every link back to its default offset; locks and limit flags are kept. */
    method ResetOffsets(m: Maths)
      requires Valid(m)
      modifies links
      ensures Valid(m)
      ensures States() == ResetOffsetsStates(m, Joints(), old(States()))
    {
      ghost var before := States();
      var i := 0;
      while i < |links|
        invariant 0 <= i <= |links|
        invariant Valid(m)
        invariant forall k :: 0 <= k < |links| ==>
                    links[k].State() == if k < i then ResetState(m, links[k].Description(), before[k]) else before[k]
      {
        links[i].Reset(m);
        i := i + 1;
      }
    }

    /** `reset()`: the default base, and every link reset, unlocked and held to its limits. */
    method Reset(m: Maths)
      requires Valid(m)
      modifies this, links
      ensures Valid(m) && base == defaultBase && tool == old(tool)
      ensures States() == ResetStates(m, Joints(), old(States()))
    {
      base := defaultBase;
      ghost var before := States();
      var i := 0;
      while i < |links|
        invariant 0 <= i <= |links|
        invariant Valid(m) && base == defaultBase && tool == old(tool)
        invariant forall k :: 0 <= k < |links| ==>
                    links[k].State() == if k < i then ResetState(m, links[k].Description(), before[k]).(locked := false, ignoreLimits := false)
                                        else before[k]
      {
        links[i].Reset(m);
        links[i].locked := false;
        links[i].ignoreLimits := false;
        i := i + 1;
      }
    }

    /** The `set_points` setter: `for offset, link in zip(q, links): link.set_point = offset`. */
    method SetSetPoints(m: Maths, q: seq<real>)
      requires Valid(m)
      modifies links
      ensures Valid(m)
      ensures States() == WithSetPoints(old(States()), q)
    {
      ghost var before := States();
      var i := 0;
      while i < |q| && i < |links|
        invariant 0 <= i <= |links|
        invariant Valid(m)
        invariant forall k :: 0 <= k < |links| ==>
                    links[k].State() == if k < i && k < |q| then before[k].(setPoint := q[k]) else before[k]
      {
        links[i].setPoint := q[i];
        i := i + 1;
      }
    }
  }
}
