/**
 * The deterministic shell of `numeric_inverse_kinematics` (robotics.py):
 * masking of the free joints, the pose-error cost, the objective closure with
 * its `best_result` and early stop, and the three ways the solver returns.
 * The global optimiser (`dual_annealing`) is an oracle: the sequence of trial
 * vectors it evaluates and the vector it finally reports.
 */
module InverseKinematics {
  import opened Results
  import opened MathFunctions
  import opened LinearAlgebra
  import opened Poses
  import opened Robotics

  /** The number of `true` entries of a mask. */
  function CountTrue(mask: seq<bool>): nat
  {
    if |mask| == 0 then 0 else (if mask[0] then 1 else 0) + CountTrue(mask[1..])
  }

  /** `xs[mask]`: the entries where the mask is `true`, in order. */
  function Select<T>(mask: seq<bool>, xs: seq<T>): (r: seq<T>)
    requires |mask| == |xs|
    ensures |r| == CountTrue(mask)
  {
    if |mask| == 0 then [] else (if mask[0] then [xs[0]] else []) + Select(mask[1..], xs[1..])
  }

  /** `xs[mask] = q`: the masked entries replaced by `q`, in order; the others kept. */
  function Scatter<T>(xs: seq<T>, mask: seq<bool>, q: seq<T>): (r: seq<T>)
    requires |mask| == |xs| && |q| == CountTrue(mask)
    ensures |r| == |xs|
  {
    if |mask| == 0 then []
    else if mask[0] then [q[0]] + Scatter(xs[1..], mask[1..], q[1..])
    else [xs[0]] + Scatter(xs[1..], mask[1..], q)
  }

  /** A trial writes only the free entries: every masked-out entry keeps its value. */
  lemma {:induction false} ScatterKeepsMaskedOut<T>(xs: seq<T>, mask: seq<bool>, q: seq<T>, i: nat)
    requires |mask| == |xs| && |q| == CountTrue(mask) && i < |xs| && !mask[i]
    ensures Scatter(xs, mask, q)[i] == xs[i]
  {
    if i > 0 {
      if mask[0] {
        ScatterKeepsMaskedOut(xs[1..], mask[1..], q[1..], i - 1);
      } else {
        ScatterKeepsMaskedOut(xs[1..], mask[1..], q, i - 1);
      }
    }
  }

  /** Reading the free entries back after writing `q` gives `q`. */
  lemma {:induction false} SelectScatter<T>(xs: seq<T>, mask: seq<bool>, q: seq<T>)
    requires |mask| == |xs| && |q| == CountTrue(mask)
    ensures Select(mask, Scatter(xs, mask, q)) == q
  {
    if |mask| > 0 {
      var r := Scatter(xs, mask, q);
      if mask[0] {
        SelectScatter(xs[1..], mask[1..], q[1..]);
        assert r[1..] == Scatter(xs[1..], mask[1..], q[1..]);
      } else {
        SelectScatter(xs[1..], mask[1..], q);
        assert r[1..] == Scatter(xs[1..], mask[1..], q);
      }
    }
  }

  /** Writing back the free entries a vector already has leaves it unchanged. */
  lemma {:induction false} ScatterSelect<T>(xs: seq<T>, mask: seq<bool>)
    requires |mask| == |xs|
    ensures Scatter(xs, mask, Select(mask, xs)) == xs
  {
    if |mask| > 0 {
      ScatterSelect(xs[1..], mask[1..]);
      var s := Select(mask, xs);
      if mask[0] {
        assert s[0] == xs[0] && s[1..] == Select(mask[1..], xs[1..]);
      } else {
        assert s == Select(mask[1..], xs[1..]);
      }
      assert xs == [xs[0]] + xs[1..];
    }
  }

  /** A trial's vector depends only on the masked-out entries of the vector it writes into. */
  lemma {:induction false} ScatterIgnoresFreeEntries<T>(xs: seq<T>, ys: seq<T>, mask: seq<bool>, q: seq<T>)
    requires |mask| == |xs| == |ys| && |q| == CountTrue(mask)
    requires forall i :: 0 <= i < |xs| && !mask[i] ==> xs[i] == ys[i]
    ensures Scatter(xs, mask, q) == Scatter(ys, mask, q)
  {
    if |mask| > 0 {
      forall i | 0 <= i < |xs| - 1 && !mask[1..][i]
        ensures xs[1..][i] == ys[1..][i]
      {
        assert !mask[i + 1];
      }
      if mask[0] {
        ScatterIgnoresFreeEntries(xs[1..], ys[1..], mask[1..], q[1..]);
      } else {
        assert !mask[0];
        ScatterIgnoresFreeEntries(xs[1..], ys[1..], mask[1..], q);
      }
    }
  }

  /** `target_pose` and `current_pose`: a position followed by an orientation vector. */
  datatype Pose6 = Pose6(position: Vector3, orientation: Vector3)

  /** `err1[0:3]`: the target position minus the current position carried by `h`. */
  function PositionError(h: Matrix44, target: Pose6, current: Pose6): Vector3
  {
    Sub(target.position, Add(Apply33(Rotation(h), current.position), Translation(h)))
  }

  /** `err1[3:6]`: the target orientation minus the current orientation turned by `h`. */
  function OrientationError(h: Matrix44, target: Pose6, current: Pose6): Vector3
  {
    Sub(target.orientation, Apply33(Rotation(h), current.orientation))
  }

  /** `np.dot(err1, err1)` for the error stacked from `e1` and `e2`. */
  function SquaredError(e1: Vector3, e2: Vector3): real
  {
    Dot(e1, e1) + Dot(e2, e2)
  }

  /** `np.dot(err1, err1)`. */
  function Cost(h: Matrix44, target: Pose6, current: Pose6): real
  {
    SquaredError(PositionError(h, target, current), OrientationError(h, target, current))
  }

  /** A vector's dot product with itself is non-negative, and zero only for the zero vector. */
  lemma SquaredNorm(v: Vector3)
    ensures Dot(v, v) >= 0.0
    ensures Dot(v, v) == 0.0 <==> v == Zero3()
  {
    if v != Zero3() {
      calc {
        Dot(v, v);
        == v.x * v.x + v.y * v.y + v.z * v.z;
        > { SumOfSquaresPositive(v.x, v.y, v.z); }
        0.0;
      }
    }
  }

  /** A sum of three squares, not all of zeros, is positive. */
  lemma SumOfSquaresPositive(x: real, y: real, z: real)
    requires x != 0.0 || y != 0.0 || z != 0.0
    ensures x * x + y * y + z * z > 0.0
  {
    SquareNonNegative(x);
    SquareNonNegative(y);
    SquareNonNegative(z);
    if x != 0.0 {
      SquareStrictlyPositive(x);
    }
    if y != 0.0 {
      SquareStrictlyPositive(y);
    }
    if z != 0.0 {
      SquareStrictlyPositive(z);
    }
  }

  /** The square of a non-zero number is positive. */
  lemma SquareStrictlyPositive(x: real)
    requires x != 0.0
    ensures x * x > 0.0
  {
    if x < 0.0 {
      SquareStrictlyMonotone(0.0, -x);
    } else {
      SquareStrictlyMonotone(0.0, x);
    }
  }

  /** The cost is never negative, and it is zero exactly when both errors vanish. */
  lemma CostZeroIff(h: Matrix44, target: Pose6, current: Pose6)
    ensures Cost(h, target, current) >= 0.0
    ensures Cost(h, target, current) == 0.0 <==>
              PositionError(h, target, current) == Zero3() && OrientationError(h, target, current) == Zero3()
  {
    hide PositionError, OrientationError;
    SquaredErrorZeroIff(PositionError(h, target, current), OrientationError(h, target, current));
  }

  /** A stacked squared error is never negative, and zero exactly when both parts vanish. */
  lemma SquaredErrorZeroIff(e1: Vector3, e2: Vector3)
    ensures SquaredError(e1, e2) >= 0.0
    ensures SquaredError(e1, e2) == 0.0 <==> e1 == Zero3() && e2 == Zero3()
  {
    SquaredNorm(e1);
    SquaredNorm(e2);
    hide Dot;
    assert SquaredError(e1, e2) == Dot(e1, e1) + Dot(e2, e2);
  }

  /** The orientation error does not see the translation column of `h`. */
  lemma OrientationIgnoresTranslation(h: Matrix44, v: Vector3, target: Pose6, current: Pose6)
    ensures OrientationError(Homogeneous(Rotation(h), v), target, current) == OrientationError(h, target, current)
    ensures PositionError(Homogeneous(Rotation(h), v), target, current) ==
              Sub(target.position, Add(Apply33(Rotation(h), current.position), v))
  {
    var r := Rotation(h);
    assert Rotation(Homogeneous(r, v)) == r;
    assert Translation(Homogeneous(r, v)) == v;
  }

  /** `best_result`: `np.inf` until a first cost is recorded. */
  datatype Best = Infinite | Finite(value: real)

  /** `if err < best_result: best_result = err`. */
  function Lower(best: Best, err: real): (r: Best)
    ensures r.Finite?
  {
    if best.Infinite? || err < best.value then Finite(err) else best
  }

  /** `best_result` never increases, and after a trial it is at most that trial's cost. */
  lemma LowerNeverIncreases(best: Best, err: real)
    ensures best.Finite? ==> Lower(best, err).value <= best.value
    ensures Lower(best, err).value <= err
    ensures Lower(best, err).value == err || Lower(best, err) == best
  {
  }

  /** What a call of `opt` can end in besides a cost. */
  datatype Stop = StopOptimizing

  /** The errors `numeric_inverse_kinematics` lets escape. */
  datatype IKError =
    | BoundsMismatch            // `np.array(bounds)[state]` with a non-empty mask of another length (IndexError)
    | StopOptimizingEscapes     // `opt(q0)` raised outside the `try`

  /**
   * The fixed data of one solve: the chain's joints, base and tool, the tool
   * link, the two poses, the free-joint mask, the configuration at entry and
   * `tolerance = tol * tol`.
   */
  datatype Problem = Problem(joints: seq<Joint>, base: Matrix44, tool: Matrix44, toolLink: Matrix44,
                             target: Pose6, current: Pose6, mask: seq<bool>, conf0: seq<real>, tolerance: real)

  predicate WellFormed(p: Problem)
  {
    |p.mask| == |p.joints| && |p.conf0| == |p.joints|
  }

  /** `[not l.locked for l in ri.links]`. */
  function FreeMask(states: seq<LinkState>): (r: seq<bool>)
    ensures |r| == |states|
    ensures forall i :: 0 <= i < |states| ==> r[i] == !states[i].locked
  {
    seq(|states|, i requires 0 <= i < |states| => !states[i].locked)
  }

  /** The problem `numeric_inverse_kinematics(ri, target, current, bounds, tol)` sets up. */
  function ProblemFor(joints: seq<Joint>, states: seq<LinkState>, base: Matrix44, tool: Matrix44, toolLink: Matrix44,
                      target: Pose6, current: Pose6, tol: real): (p: Problem)
    ensures |joints| == |states| ==> WellFormed(p)
  {
    Problem(joints, base, tool, toolLink, target, current, FreeMask(states), Offsets(states), tol * tol)
  }

  /** The link states after `opt(q)`: `ri.fkine(conf)` with `q` written into the free entries. */
  function TrialStates(m: Maths, p: Problem, states: seq<LinkState>, q: seq<real>): (r: seq<LinkState>)
    requires WellFormed(p) && |states| == |p.joints| && |q| == CountTrue(p.mask)
    ensures |r| == |states|
  {
    FkineStates(m, p.joints, states, Scatter(p.conf0, p.mask, q), 0, |states|, false, true)
  }

  /** The pose `fkine(conf) @ tool_link` of a chain in `states`. */
  function ToolPose(m: Maths, p: Problem, states: seq<LinkState>): Matrix44
  {
    MatMul44(ChainMatrix(p.base, ChainPose(m, states), p.tool), p.toolLink)
  }

  /** The cost `opt` computes for a chain in `states`: its tool pose against the target. */
  function StateCost(m: Maths, p: Problem, states: seq<LinkState>): real
  {
    Cost(ToolPose(m, p, states), p.target, p.current)
  }

  /** The link states after the first evaluation, `opt(q0)`, which leaves the configuration unchanged. */
  function EntryStates(m: Maths, p: Problem, states: seq<LinkState>): (r: seq<LinkState>)
    requires WellFormed(p) && |states| == |p.joints|
    ensures |r| == |states|
  {
    TrialStates(m, p, states, Select(p.mask, p.conf0))
  }

  /** How a call of `opt` ends: it raises below the tolerance, else returns the cost. */
  function Verdict(err: real, tolerance: real): (r: Result<real, Stop>)
    ensures r.Err? <==> err < tolerance
    ensures r.Ok? ==> r.value == err
  {
    if err < tolerance then Err(StopOptimizing) else Ok(err)
  }

  /** The vectors an optimiser run evaluates, in order, and the vector `r.x` it reports. */
  datatype Annealer = Annealer(trials: seq<seq<real>>, x: seq<real>)

  /** `lo <= v[i] <= hi` for the selected `(lo, hi)` bounds. */
  predicate InBounds(v: seq<real>, bounds: seq<(real, real)>)
  {
    |v| == |bounds| && forall i :: 0 <= i < |v| ==> bounds[i].0 <= v[i] <= bounds[i].1
  }

  /** What the optimiser promises: every vector it produces lies in the bounds it was given. */
  predicate OracleFits(oracle: Annealer, bounds: seq<(real, real)>)
  {
    InBounds(oracle.x, bounds) && forall j :: 0 <= j < |oracle.trials| ==> InBounds(oracle.trials[j], bounds)
  }

  /**
   * `np.array(bounds)[state]` does not raise: a boolean mask must have the
   * length of the array, but an empty `state` is read as an empty integer
   * index, which selects nothing from an array of any length.
   */
  predicate BoundsFit(mask: seq<bool>, bounds: seq<(real, real)>)
  {
    |mask| == 0 || |bounds| == |mask|
  }

  /** `_bounds = np.array(bounds)[state]`: one pair of bounds per free joint. */
  function FreeBounds(mask: seq<bool>, bounds: seq<(real, real)>): (r: seq<(real, real)>)
    requires BoundsFit(mask, bounds)
    ensures |r| == CountTrue(mask)
    ensures |bounds| == |mask| ==> r == Select(mask, bounds)
  {
    if |bounds| == |mask| then Select(mask, bounds) else []
  }

  /**
   * The index of the first trial from `i` on whose cost falls below the
   * tolerance (the one that raises and ends the run), the chain state
   * carried from trial to trial.
   */
  function AbortIndex(m: Maths, p: Problem, states: seq<LinkState>, trials: seq<seq<real>>, i: nat): Option<nat>
    requires WellFormed(p) && |states| == |p.joints|
    requires forall j :: 0 <= j < |trials| ==> |trials[j]| == CountTrue(p.mask)
    decreases |trials| - i
  {
    if i >= |trials| then None
    else
      var next := TrialStates(m, p, states, trials[i]);
      if StateCost(m, p, next) < p.tolerance then Some(i) else AbortIndex(m, p, next, trials, i + 1)
  }

  /** An abort index names a trial at or after `i` whose state costs less than the tolerance. */
  lemma {:induction false} AbortIndexInRange(m: Maths, p: Problem, states: seq<LinkState>, trials: seq<seq<real>>, i: nat)
    requires WellFormed(p) && |states| == |p.joints|
    requires forall j :: 0 <= j < |trials| ==> |trials[j]| == CountTrue(p.mask)
    ensures AbortIndex(m, p, states, trials, i).Some? ==> i <= AbortIndex(m, p, states, trials, i).value < |trials|
    decreases |trials| - i
  {
    hide StateCost, TrialStates;
    if i < |trials| {
      var next := TrialStates(m, p, states, trials[i]);
      if StateCost(m, p, next) >= p.tolerance {
        AbortIndexInRange(m, p, next, trials, i + 1);
      }
    }
  }

  /** The `try` block: `r.x` when no trial raises, else the full `conf` holding the trial that raised. */
  function AnnealResult(m: Maths, p: Problem, states: seq<LinkState>, oracle: Annealer): seq<real>
    requires WellFormed(p) && |states| == |p.joints|
    requires forall j :: 0 <= j < |oracle.trials| ==> |oracle.trials[j]| == CountTrue(p.mask)
  {
    var abort := AbortIndex(m, p, states, oracle.trials, 0);
    AbortIndexInRange(m, p, states, oracle.trials, 0);
    if abort.None? then oracle.x else Scatter(p.conf0, p.mask, oracle.trials[abort.value])
  }

  /**
   * The link states an optimiser run leaves behind, from trial `i` on: every
   * trial moves the chain, up to and including the one that raises.
   */
  function RunStates(m: Maths, p: Problem, states: seq<LinkState>, trials: seq<seq<real>>, i: nat): (r: seq<LinkState>)
    requires WellFormed(p) && |states| == |p.joints|
    requires forall j :: 0 <= j < |trials| ==> |trials[j]| == CountTrue(p.mask)
    ensures |r| == |states|
    decreases |trials| - i
  {
    if i >= |trials| then states
    else
      var next := TrialStates(m, p, states, trials[i]);
      if StateCost(m, p, next) < p.tolerance then next else RunStates(m, p, next, trials, i + 1)
  }

  /**
   * The chain agrees with the problem: a joint is free exactly when its link
   * is unlocked, and a locked link sits at its entry offset.
   */
  predicate Agrees(p: Problem, states: seq<LinkState>)
  {
    |states| == |p.mask| == |p.conf0| &&
    forall i :: 0 <= i < |states| ==>
      (p.mask[i] == !states[i].locked) && (!p.mask[i] ==> states[i].offset == p.conf0[i])
  }

  /** A chain at its entry state agrees with the problem set up from it. */
  lemma EntryAgrees(joints: seq<Joint>, states: seq<LinkState>, base: Matrix44, tool: Matrix44, toolLink: Matrix44,
                    target: Pose6, current: Pose6, tol: real)
    ensures Agrees(ProblemFor(joints, states, base, tool, toolLink, target, current, tol), states)
  {
  }

  /**
   * `opt(q)` leaves the chain at `conf`: the free links at `q`, the locked
   * ones where they were; the lock flags, and so the agreement, are kept.
   */
  lemma TrialConfiguration(m: Maths, p: Problem, states: seq<LinkState>, q: seq<real>)
    requires WellFormed(p) && |states| == |p.joints| && |q| == CountTrue(p.mask) && Agrees(p, states)
    ensures Agrees(p, TrialStates(m, p, states, q))
    ensures Offsets(TrialStates(m, p, states, q)) == Scatter(p.conf0, p.mask, q)
  {
    var conf := Scatter(p.conf0, p.mask, q);
    var next := TrialStates(m, p, states, q);
    forall i | 0 <= i < |states|
      ensures next[i].locked == states[i].locked && next[i].offset == conf[i]
    {
      assert next[i] == Moved(m, p.joints[i], states[i], conf[i], false, true);
      if states[i].locked {
        MoveLockedIsNoOp(m, p.joints[i], states[i], conf[i], true);
        ScatterKeepsMaskedOut(p.conf0, p.mask, q, i);
      } else {
        MoveUpdatesOffset(m, p.joints[i], states[i], conf[i], false, true);
      }
    }
  }

  /**
   * An optimiser run leaves the chain at the configuration of the trial that
   * raised; when none raised, at that of the last trial; with no trials, where
   * it was.
   */
  lemma {:induction false} RunConfiguration(m: Maths, p: Problem, states: seq<LinkState>, trials: seq<seq<real>>, i: nat)
    requires WellFormed(p) && |states| == |p.joints| && Agrees(p, states)
    requires forall j :: 0 <= j < |trials| ==> |trials[j]| == CountTrue(p.mask)
    ensures Agrees(p, RunStates(m, p, states, trials, i))
    ensures AbortIndex(m, p, states, trials, i).Some? ==>
              AbortIndex(m, p, states, trials, i).value < |trials| &&
              Offsets(RunStates(m, p, states, trials, i)) ==
              Scatter(p.conf0, p.mask, trials[AbortIndex(m, p, states, trials, i).value])
    ensures AbortIndex(m, p, states, trials, i).None? && i < |trials| ==>
              Offsets(RunStates(m, p, states, trials, i)) == Scatter(p.conf0, p.mask, trials[|trials| - 1])
    ensures i >= |trials| ==> RunStates(m, p, states, trials, i) == states
    decreases |trials| - i
  {
    hide StateCost, TrialStates, Scatter;
    if i < |trials| {
      var next := TrialStates(m, p, states, trials[i]);
      TrialConfiguration(m, p, states, trials[i]);
      if StateCost(m, p, next) >= p.tolerance {
        RunConfiguration(m, p, next, trials, i + 1);
      }
    }
  }

  /** The oracle's promise gives every trial the length of the free-joint vector. */
  lemma OracleLengths(oracle: Annealer, p: Problem, bounds: seq<(real, real)>)
    requires WellFormed(p) && BoundsFit(p.mask, bounds) && OracleFits(oracle, FreeBounds(p.mask, bounds))
    ensures |oracle.x| == CountTrue(p.mask)
    ensures forall j :: 0 <= j < |oracle.trials| ==> |oracle.trials[j]| == CountTrue(p.mask)
  {
  }

  /**
   * `numeric_inverse_kinematics` as written: `opt(q0)` runs before the `try`,
   * so an initial cost below the tolerance raises out of the solver.
   */
  function IKAsWritten(m: Maths, p: Problem, states: seq<LinkState>, bounds: seq<(real, real)>,
                       oracle: Annealer): Result<seq<real>, IKError>
    requires WellFormed(p) && |states| == |p.joints|
    requires BoundsFit(p.mask, bounds) ==> OracleFits(oracle, FreeBounds(p.mask, bounds))
  {
    if !BoundsFit(p.mask, bounds) then Err(BoundsMismatch)
    else
      var first := EntryStates(m, p, states);
      if StateCost(m, p, first) < p.tolerance then Err(StopOptimizingEscapes)
      else Ok(AnnealResult(m, p, first, oracle))
  }

  /** The solver with the first evaluation guarded: an initial cost below the tolerance returns `q0`. */
  function IKCorrected(m: Maths, p: Problem, states: seq<LinkState>, bounds: seq<(real, real)>,
                       oracle: Annealer): Result<seq<real>, IKError>
    requires WellFormed(p) && |states| == |p.joints|
    requires BoundsFit(p.mask, bounds) ==> OracleFits(oracle, FreeBounds(p.mask, bounds))
  {
    if !BoundsFit(p.mask, bounds) then Err(BoundsMismatch)
    else
      var first := EntryStates(m, p, states);
      if StateCost(m, p, first) < p.tolerance then Ok(Select(p.mask, p.conf0))
      else Ok(AnnealResult(m, p, first, oracle))
  }

  /**
   * The link states either solver leaves behind: unchanged when the bounds do
   * not fit, the state after `opt(q0)` when that already meets the
   * tolerance, else the state after the optimiser's run.
   */
  function SolveStates(m: Maths, p: Problem, states: seq<LinkState>, bounds: seq<(real, real)>,
                       oracle: Annealer): (r: seq<LinkState>)
    requires WellFormed(p) && |states| == |p.joints|
    requires BoundsFit(p.mask, bounds) ==> OracleFits(oracle, FreeBounds(p.mask, bounds))
    ensures |r| == |states|
  {
    if !BoundsFit(p.mask, bounds) then states
    else
      var first := EntryStates(m, p, states);
      if StateCost(m, p, first) < p.tolerance then first
      else RunStates(m, p, first, oracle.trials, 0)
  }

  /**
   * Where a solve leaves the robot: when the entry already meets the
   * tolerance, at its entry configuration; when a trial stops the run, at the
   * configuration the solver returns; when the optimiser finishes, at its last
   * trial rather than at the `r.x` it returns.
   */
  lemma SolveConfiguration(m: Maths, p: Problem, states: seq<LinkState>, bounds: seq<(real, real)>, oracle: Annealer)
    requires WellFormed(p) && |states| == |p.joints| && Agrees(p, states) && BoundsFit(p.mask, bounds)
    requires OracleFits(oracle, FreeBounds(p.mask, bounds))
    ensures var first := EntryStates(m, p, states);
            var abort := AbortIndex(m, p, first, oracle.trials, 0);
            var final := Offsets(SolveStates(m, p, states, bounds, oracle));
            && (StateCost(m, p, first) < p.tolerance ==> final == p.conf0)
            && (StateCost(m, p, first) >= p.tolerance && abort.Some? ==>
                  IKCorrected(m, p, states, bounds, oracle) == Ok(final))
            && (StateCost(m, p, first) >= p.tolerance && abort.None? && |oracle.trials| > 0 ==>
                  final == Scatter(p.conf0, p.mask, oracle.trials[|oracle.trials| - 1]))
  {
    hide StateCost, TrialStates, RunStates, AbortIndex, Scatter;
    var first := EntryStates(m, p, states);
    TrialConfiguration(m, p, states, Select(p.mask, p.conf0));
    ScatterSelect(p.conf0, p.mask);
    RunConfiguration(m, p, first, oracle.trials, 0);
  }

  /**
   * As written, the solver fails exactly when the bounds do not fit or the
   * initial cost is below the tolerance, and whenever it returns a vector the
   * optimiser has run: the early `return q0` is never taken.
   */
  lemma AsWrittenOutcomes(m: Maths, p: Problem, states: seq<LinkState>, bounds: seq<(real, real)>, oracle: Annealer)
    requires WellFormed(p) && |states| == |p.joints|
    requires BoundsFit(p.mask, bounds) ==> OracleFits(oracle, FreeBounds(p.mask, bounds))
    ensures var r := IKAsWritten(m, p, states, bounds, oracle);
            && (r == Err(BoundsMismatch) <==> !BoundsFit(p.mask, bounds))
            && (BoundsFit(p.mask, bounds) ==>
                  (r == Err(StopOptimizingEscapes) <==> StateCost(m, p, EntryStates(m, p, states)) < p.tolerance))
            && (r.Ok? ==> r == Ok(AnnealResult(m, p, EntryStates(m, p, states), oracle)))
  {
  }

  /**
   * The discrepancy: with `tol > 0` and a target the entry configuration
   * already reaches, the solver as written raises, while the guarded solver
   * returns the entry's free-joint vector unchanged.
   */
  lemma ReachedTargetRaises(m: Maths, p: Problem, states: seq<LinkState>, bounds: seq<(real, real)>,
                            oracle: Annealer, tol: real)
    requires WellFormed(p) && |states| == |p.joints| && BoundsFit(p.mask, bounds)
    requires OracleFits(oracle, FreeBounds(p.mask, bounds))
    requires tol > 0.0 && p.tolerance == tol * tol
    requires var h := ToolPose(m, p, EntryStates(m, p, states));
             PositionError(h, p.target, p.current) == Zero3() && OrientationError(h, p.target, p.current) == Zero3()
    ensures IKAsWritten(m, p, states, bounds, oracle) == Err(StopOptimizingEscapes)
    ensures IKCorrected(m, p, states, bounds, oracle) == Ok(Select(p.mask, p.conf0))
  {
    hide PositionError, OrientationError, ToolPose, EntryStates, AnnealResult, Cost, SquaredError, Dot;
    CostZeroIff(ToolPose(m, p, EntryStates(m, p, states)), p.target, p.current);
    calc {
      p.tolerance;
      == tol * tol;
      > { SquareStrictlyPositive(tol); }
      0.0;
    }
  }

  /**
   * The guarded solver returns `q0` when the initial cost is below the
   * tolerance, and otherwise agrees with the solver as written.
   */
  lemma CorrectedOutcomes(m: Maths, p: Problem, states: seq<LinkState>, bounds: seq<(real, real)>, oracle: Annealer)
    requires WellFormed(p) && |states| == |p.joints| && BoundsFit(p.mask, bounds)
    requires OracleFits(oracle, FreeBounds(p.mask, bounds))
    ensures StateCost(m, p, EntryStates(m, p, states)) < p.tolerance ==>
              IKCorrected(m, p, states, bounds, oracle) == Ok(Select(p.mask, p.conf0))
    ensures StateCost(m, p, EntryStates(m, p, states)) >= p.tolerance ==>
              IKCorrected(m, p, states, bounds, oracle) == IKAsWritten(m, p, states, bounds, oracle)
  {
  }

  /**
   * The shapes of the solver's results: when a trial aborts the run the result
   * is the full configuration, with the trial in the free entries and the
   * entry values in the locked ones; otherwise it is the optimiser's vector,
   * which lies in the selected bounds.
   */
  lemma AnnealResultShape(m: Maths, p: Problem, states: seq<LinkState>, bounds: seq<(real, real)>, oracle: Annealer)
    requires WellFormed(p) && |states| == |p.joints| && BoundsFit(p.mask, bounds)
    requires OracleFits(oracle, FreeBounds(p.mask, bounds))
    ensures var abort := AbortIndex(m, p, states, oracle.trials, 0);
            abort.None? ==> InBounds(AnnealResult(m, p, states, oracle), FreeBounds(p.mask, bounds))
    ensures var abort := AbortIndex(m, p, states, oracle.trials, 0);
            abort.Some? ==>
              abort.value < |oracle.trials| &&
              |AnnealResult(m, p, states, oracle)| == |p.conf0| &&
              Select(p.mask, AnnealResult(m, p, states, oracle)) == oracle.trials[abort.value] &&
              forall i :: 0 <= i < |p.conf0| && !p.mask[i] ==> AnnealResult(m, p, states, oracle)[i] == p.conf0[i]
  {
    var abort := AbortIndex(m, p, states, oracle.trials, 0);
    AbortIndexInRange(m, p, states, oracle.trials, 0);
    if abort.Some? {
      var q := oracle.trials[abort.value];
      SelectScatter(p.conf0, p.mask, q);
      forall i | 0 <= i < |p.conf0| && !p.mask[i]
        ensures Scatter(p.conf0, p.mask, q)[i] == p.conf0[i]
      {
        ScatterKeepsMaskedOut(p.conf0, p.mask, q, i);
      }
    }
  }

  /**
   * The closure `opt` with its `nonlocal` state: the working vector `conf` and
   * `best_result`, over a chain that every call moves.
   */
  class Objective {
    const robot: SerialManipulator
    const problem: Problem
    var conf: seq<real>
    var best: Best

    /** The chain matches the problem, and `conf` holds the entry values in its locked entries. */
    ghost predicate Valid(m: Maths)
      reads this, robot, robot.links
    {
      robot.Valid(m) && WellFormed(problem) && problem.joints == robot.Joints() &&
      problem.base == robot.base && problem.tool == robot.tool && |problem.mask| == |robot.links| &&
      |conf| == |problem.conf0| &&
      forall i :: 0 <= i < |conf| && !problem.mask[i] ==> conf[i] == problem.conf0[i]
    }

    constructor (m: Maths, robot: SerialManipulator, problem: Problem)
      requires robot.Valid(m) && WellFormed(problem) && problem.joints == robot.Joints()
      requires problem.base == robot.base && problem.tool == robot.tool && |problem.mask| == |robot.links|
      ensures Valid(m) && this.robot == robot && this.problem == problem
      ensures conf == problem.conf0 && best == Infinite
    {
      this.robot := robot;
      this.problem := problem;
      conf := problem.conf0;
      best := Infinite;
    }

    /**
     * `opt(q)`: writes `q` into the free entries, moves the chain by
     * `ri.fkine(conf)`, records the cost in `best_result`, and raises when it
     * is below the tolerance.
     */
    method Evaluate(m: Maths, q: seq<real>) returns (r: Result<real, Stop>)
      requires Valid(m) && |q| == CountTrue(problem.mask)
      modifies this`conf, this`best, robot.links
      ensures Valid(m)
      ensures conf == Scatter(old(conf), problem.mask, q) == Scatter(problem.conf0, problem.mask, q)
      ensures robot.States() == TrialStates(m, problem, old(robot.States()), q)
      ensures best == Lower(old(best), StateCost(m, problem, robot.States()))
      ensures r == Verdict(StateCost(m, problem, robot.States()), problem.tolerance)
    {
      hide Cost, ChainPose, ChainMatrix, MatMul44, FkineStates, Moved, Scatter;
      ScatterIgnoresFreeEntries(conf, problem.conf0, problem.mask, q);
      conf := Scatter(conf, problem.mask, q);
      forall i | 0 <= i < |conf| && !problem.mask[i]
        ensures conf[i] == problem.conf0[i]
      {
        ScatterKeepsMaskedOut(problem.conf0, problem.mask, q, i);
      }
      var h := robot.Fkine(m, conf, 0, None, true, false, true);
      var err := Cost(MatMul44(h, problem.toolLink), problem.target, problem.current);
      if best.Infinite? || err < best.value {
        best := Finite(err);
      }
      if err < problem.tolerance {
        return Err(StopOptimizing);
      }
      return Ok(err);
    }
  }

  /**
   * The `try` block around `dual_annealing`: evaluates the oracle's trials in
   * order; a trial that raises ends the run with `x = conf`, otherwise the
   * result is `r.x`.
   */
  method Anneal(m: Maths, obj: Objective, oracle: Annealer) returns (x: seq<real>)
    requires obj.Valid(m)
    requires forall j :: 0 <= j < |oracle.trials| ==> |oracle.trials[j]| == CountTrue(obj.problem.mask)
    modifies obj`conf, obj`best, obj.robot.links
    ensures obj.Valid(m)
    ensures x == AnnealResult(m, obj.problem, old(obj.robot.States()), oracle)
    ensures obj.robot.States() == RunStates(m, obj.problem, old(obj.robot.States()), oracle.trials, 0)
  {
    hide StateCost, TrialStates;
    ghost var states0 := obj.robot.States();
    var i := 0;
    while i < |oracle.trials|
      invariant 0 <= i <= |oracle.trials|
      invariant obj.Valid(m)
      invariant AbortIndex(m, obj.problem, states0, oracle.trials, 0) ==
                AbortIndex(m, obj.problem, obj.robot.States(), oracle.trials, i)
      invariant RunStates(m, obj.problem, states0, oracle.trials, 0) ==
                RunStates(m, obj.problem, obj.robot.States(), oracle.trials, i)
    {
      var e := obj.Evaluate(m, oracle.trials[i]);
      if e.Err? {
        return obj.conf;
      }
      i := i + 1;
    }
    return oracle.x;
  }

  /**
   * `numeric_inverse_kinematics(ri, target_pose, current_pose, bounds, tol)`
   * as written, with `ri.tool_link` as a parameter and the optimiser as an
   * oracle.
   */
  method NumericInverseKinematicsAsWritten(m: Maths, ri: SerialManipulator, target: Pose6, current: Pose6,
                                           bounds: seq<(real, real)>, tol: real, toolLink: Matrix44,
                                           oracle: Annealer)
    returns (r: Result<seq<real>, IKError>)
    requires ri.Valid(m)
    requires BoundsFit(FreeMask(ri.States()), bounds) ==> OracleFits(oracle, FreeBounds(FreeMask(ri.States()), bounds))
    modifies ri.links
    ensures r == IKAsWritten(m, ProblemFor(ri.Joints(), old(ri.States()), ri.base, ri.tool, toolLink,
                                           target, current, tol), old(ri.States()), bounds, oracle)
    ensures ri.States() == SolveStates(m, ProblemFor(ri.Joints(), old(ri.States()), ri.base, ri.tool, toolLink,
                                                     target, current, tol), old(ri.States()), bounds, oracle)
  {
    hide StateCost, TrialStates, AnnealResult, FkineStates, ChainPose, ChainMatrix, Cost;
    var conf := ri.Configuration();
    var mask := FreeMask(ri.States());
    ri.GettersMatchStates();
    var q0 := Select(mask, conf);
    if !BoundsFit(mask, bounds) {
      return Err(BoundsMismatch);
    }
    var p := Problem(ri.Joints(), ri.base, ri.tool, toolLink, target, current, mask, conf, tol * tol);
    OracleLengths(oracle, p, bounds);
    var obj := new Objective(m, ri, p);
    var first := obj.Evaluate(m, q0);
    if first.Err? {
      return Err(StopOptimizingEscapes);
    }
    var bestResult := first.value;
    // The early `return q0` sits here; a cost returned normally is never below the tolerance.
    assert !(bestResult < p.tolerance);
    var x := Anneal(m, obj, oracle);
    return Ok(x);
  }

  /** The solver with the first evaluation caught: an initial cost below the tolerance returns `q0`. */
  method NumericInverseKinematics(m: Maths, ri: SerialManipulator, target: Pose6, current: Pose6,
                                  bounds: seq<(real, real)>, tol: real, toolLink: Matrix44, oracle: Annealer)
    returns (r: Result<seq<real>, IKError>)
    requires ri.Valid(m)
    requires BoundsFit(FreeMask(ri.States()), bounds) ==> OracleFits(oracle, FreeBounds(FreeMask(ri.States()), bounds))
    modifies ri.links
    ensures r == IKCorrected(m, ProblemFor(ri.Joints(), old(ri.States()), ri.base, ri.tool, toolLink,
                                           target, current, tol), old(ri.States()), bounds, oracle)
    ensures ri.States() == SolveStates(m, ProblemFor(ri.Joints(), old(ri.States()), ri.base, ri.tool, toolLink,
                                                     target, current, tol), old(ri.States()), bounds, oracle)
  {
    hide StateCost, TrialStates, AnnealResult, FkineStates, ChainPose, ChainMatrix, Cost;
    var conf := ri.Configuration();
    var mask := FreeMask(ri.States());
    ri.GettersMatchStates();
    var q0 := Select(mask, conf);
    if !BoundsFit(mask, bounds) {
      return Err(BoundsMismatch);
    }
    var p := Problem(ri.Joints(), ri.base, ri.tool, toolLink, target, current, mask, conf, tol * tol);
    OracleLengths(oracle, p, bounds);
    var obj := new Objective(m, ri, p);
    var first := obj.Evaluate(m, q0);
    if first.Err? {
      return Ok(q0);
    }
    var x := Anneal(m, obj, oracle);
    return Ok(x);
  }
}
