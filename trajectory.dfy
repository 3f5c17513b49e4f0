/**
 * Trajectory generation and playback: `cubic_polynomial_trajectory`,
 * `joint_space_trajectory` and the `Sequence` state machine of robotics.py.
 *
 * The source solves the 4x4 boundary system with a matrix inverse; the model
 * uses the closed-form solution and proves that it is the one solution of the
 * system as written (and that the system is singular when `step` is zero,
 * where the inverse raises).
 */
module Trajectories {
  import opened Results

  /** The exceptions the trajectory code raises. */
  datatype TrajectoryError =
    | NegativeStep      // `np.linspace`/`np.zeros` with a negative count (ValueError)
    | SingularMatrix    // `np.linalg.inv` of the boundary matrix when `tf = 0` (LinAlgError)
    | IndexOutOfRange   // `stop_pose[i]` or `trajectory[index]` out of range (IndexError)

  /** The polynomial `a0 + a1 t + a2 t^2 + a3 t^3`; `np.polyval(a[::-1], t)` evaluates it. */
  datatype Cubic = Cubic(a0: real, a1: real, a2: real, a3: real)

  /** `np.polyval(a[::-1], t)`: Horner evaluation, highest coefficient first. */
  function Eval(c: Cubic, t: real): real
  {
    ((c.a3 * t + c.a2) * t + c.a1) * t + c.a0
  }

  /** The derivative of the polynomial at `t`. */
  function Slope(c: Cubic, t: real): real
  {
    (3.0 * c.a3 * t + 2.0 * c.a2) * t + c.a1
  }

  /** The matrix `m` of the source: position and velocity rows at `t0` and `tf`. */
  function BoundaryMatrix(t0: real, tf: real): seq<seq<real>>
  {
    [[1.0, t0, t0 * t0, t0 * t0 * t0],
     [0.0, 1.0, 2.0 * t0, 3.0 * t0 * t0],
     [1.0, tf, tf * tf, tf * tf * tf],
     [0.0, 1.0, 2.0 * tf, 3.0 * tf * tf]]
  }

  /** The right-hand side `b = [p0, 0, p1, 0]`. */
  function BoundaryValues(p0: real, p1: real): seq<real> { [p0, 0.0, p1, 0.0] }

  /** One row of `m`, applied to the coefficient vector `a`. */
  function RowTimes(row: seq<real>, c: Cubic): real
    requires |row| == 4
  {
    row[0] * c.a0 + row[1] * c.a1 + row[2] * c.a2 + row[3] * c.a3
  }

  /** `m a = b`. */
  predicate SolvesBoundarySystem(c: Cubic, t0: real, tf: real, p0: real, p1: real)
  {
    forall i :: 0 <= i < 4 ==> RowTimes(BoundaryMatrix(t0, tf)[i], c) == BoundaryValues(p0, p1)[i]
  }

  /** The solution `inv(m) b` with `t0 = 0`, in closed form. */
  function CubicCoefficients(p0: real, p1: real, tf: real): Cubic
    requires tf != 0.0
  {
    Cubic(p0, 0.0, 3.0 * (p1 - p0) / (tf * tf), -2.0 * (p1 - p0) / (tf * tf * tf))
  }

  /** The power form `a0 + a1 t + a2 t^2 + a3 t^3`. */
  function PowerForm(c: Cubic, t: real): real
  {
    c.a0 + t * c.a1 + (t * t) * c.a2 + (t * t * t) * c.a3
  }

  /** The expanded derivative `a1 + 2 a2 t + 3 a3 t^2`. */
  function SlopeForm(c: Cubic, t: real): real
  {
    c.a1 + (2.0 * t) * c.a2 + (3.0 * t * t) * c.a3
  }

  /** Horner evaluation equals the power form. */
  lemma EvalExpanded(c: Cubic, t: real)
    ensures Eval(c, t) == PowerForm(c, t)
  {
    var h1 := c.a3 * t + c.a2;
    assert h1 * t == (t * t) * c.a3 + t * c.a2;
    assert (h1 * t + c.a1) * t == (t * t * t) * c.a3 + (t * t) * c.a2 + t * c.a1;
  }

  /** The nested form of the derivative equals its expanded form. */
  lemma SlopeExpanded(c: Cubic, t: real)
    ensures Slope(c, t) == SlopeForm(c, t)
  {
    assert (3.0 * c.a3 * t + 2.0 * c.a2) * t == (3.0 * t * t) * c.a3 + (2.0 * t) * c.a2;
  }

  /** The rows of the boundary matrix are the power and slope forms at `t0` and `tf`. */
  lemma BoundaryRows(c: Cubic, t0: real, tf: real)
    ensures RowTimes(BoundaryMatrix(t0, tf)[0], c) == PowerForm(c, t0)
    ensures RowTimes(BoundaryMatrix(t0, tf)[1], c) == SlopeForm(c, t0)
    ensures RowTimes(BoundaryMatrix(t0, tf)[2], c) == PowerForm(c, tf)
    ensures RowTimes(BoundaryMatrix(t0, tf)[3], c) == SlopeForm(c, tf)
  {
  }

  /** Evaluating at `tf` is the third row of the system, the slope at `tf` its fourth. */
  lemma EvalIsBoundaryRow(c: Cubic, t0: real, tf: real)
    ensures Eval(c, tf) == RowTimes(BoundaryMatrix(t0, tf)[2], c)
    ensures Slope(c, tf) == RowTimes(BoundaryMatrix(t0, tf)[3], c)
    ensures Eval(c, t0) == RowTimes(BoundaryMatrix(t0, tf)[0], c)
    ensures Slope(c, t0) == RowTimes(BoundaryMatrix(t0, tf)[1], c)
  {
    BoundaryRows(c, t0, tf);
    hide RowTimes, BoundaryMatrix, PowerForm, SlopeForm;
    EvalExpanded(c, tf);
    EvalExpanded(c, t0);
    SlopeExpanded(c, tf);
    SlopeExpanded(c, t0);
  }

  /** `x * (y / x) == y` for non-zero `x`. */
  lemma TimesQuotient(x: real, y: real, q: real)
    requires x != 0.0 && q == y / x
    ensures x * q == y
  {
  }

  /** The closed-form coefficients satisfy the boundary system as written, with `t0 = 0`. */
  lemma CoefficientsSolveSystem(p0: real, p1: real, tf: real)
    requires tf != 0.0
    ensures SolvesBoundarySystem(CubicCoefficients(p0, p1, tf), 0.0, tf, p0, p1)
  {
    var c := CubicCoefficients(p0, p1, tf);
    BoundaryRows(c, 0.0, tf);
    ClosedFormAtEnd(p0, p1, tf);
    hide RowTimes, BoundaryMatrix;
    assert PowerForm(c, 0.0) == p0;
    assert SlopeForm(c, 0.0) == 0.0;
  }

  /** The closed form reaches `p1` at `tf` with zero slope. */
  lemma ClosedFormAtEnd(p0: real, p1: real, tf: real)
    requires tf != 0.0
    ensures PowerForm(CubicCoefficients(p0, p1, tf), tf) == p1
    ensures SlopeForm(CubicCoefficients(p0, p1, tf), tf) == 0.0
  {
    var c := CubicCoefficients(p0, p1, tf);
    var d := p1 - p0;
    var u := tf * tf;
    var w := tf * tf * tf;
    assert u != 0.0 && w != 0.0;
    TimesQuotient(u, 3.0 * d, c.a2);
    TimesQuotient(w, -2.0 * d, c.a3);
    assert PowerForm(c, tf) == p0 + u * c.a2 + w * c.a3;
    var slope := SlopeForm(c, tf);
    assert slope * tf == 2.0 * (u * c.a2) + 3.0 * (w * c.a3);
  }

  /** Any solution of the system with `t0 = 0` and `tf != 0` is the closed form: `inv(m) b` is unique. */
  lemma CoefficientsUnique(c: Cubic, p0: real, p1: real, tf: real)
    requires tf != 0.0
    requires SolvesBoundarySystem(c, 0.0, tf, p0, p1)
    ensures c == CubicCoefficients(p0, p1, tf)
  {
    BoundaryRows(c, 0.0, tf);
    assert PowerForm(c, 0.0) == p0 && SlopeForm(c, 0.0) == 0.0;
    assert PowerForm(c, tf) == p1 && SlopeForm(c, tf) == 0.0;
    hide RowTimes, BoundaryMatrix, SolvesBoundarySystem;
    EndConditionsDetermine(c, p0, p1, tf);
  }

  /** Position and slope at `0` and at `tf != 0` pin down the four coefficients. */
  lemma EndConditionsDetermine(c: Cubic, p0: real, p1: real, tf: real)
    requires tf != 0.0
    requires PowerForm(c, 0.0) == p0 && SlopeForm(c, 0.0) == 0.0
    requires PowerForm(c, tf) == p1 && SlopeForm(c, tf) == 0.0
    ensures c == CubicCoefficients(p0, p1, tf)
  {
    assert c.a0 == p0 && c.a1 == 0.0;
    var u := tf * tf;
    var w := tf * tf * tf;
    var x := u * c.a2;
    var y := w * c.a3;
    assert x + y == p1 - p0;
    assert SlopeForm(c, tf) * tf == 2.0 * x + 3.0 * y;
    assert y == -2.0 * (p1 - p0) && x == 3.0 * (p1 - p0);
    assert c.a2 == x / u;
    assert c.a3 == y / w;
  }

  /**
   * With `tf = 0` (a zero step count) the system has no unique solution: equal
   * end points admit two different solutions and different ones admit none,
   * which is why `np.linalg.inv` raises.
   */
  lemma SystemSingularAtZero(p0: real, p1: real)
    ensures p0 == p1 ==> (SolvesBoundarySystem(Cubic(p0, 0.0, 0.0, 0.0), 0.0, 0.0, p0, p1) &&
                          SolvesBoundarySystem(Cubic(p0, 0.0, 1.0, 0.0), 0.0, 0.0, p0, p1))
    ensures p0 != p1 ==> forall c: Cubic :: !SolvesBoundarySystem(c, 0.0, 0.0, p0, p1)
  {
    if p0 != p1 {
      forall c: Cubic
        ensures !SolvesBoundarySystem(c, 0.0, 0.0, p0, p1)
      {
        var row := BoundaryMatrix(0.0, 0.0);
        assert RowTimes(row[0], c) == RowTimes(row[2], c);
      }
    } else {
      var row := BoundaryMatrix(0.0, 0.0);
      assert RowTimes(row[2], Cubic(p0, 0.0, 1.0, 0.0)) == p0;
    }
  }

  /** The polynomial through the closed-form coefficients starts at `p0` and ends at `p1`, both at rest. */
  lemma CubicBoundaryConditions(p0: real, p1: real, tf: real)
    requires tf != 0.0
    ensures Eval(CubicCoefficients(p0, p1, tf), 0.0) == p0
    ensures Slope(CubicCoefficients(p0, p1, tf), 0.0) == 0.0
    ensures Eval(CubicCoefficients(p0, p1, tf), tf) == p1
    ensures Slope(CubicCoefficients(p0, p1, tf), tf) == 0.0
  {
    var c := CubicCoefficients(p0, p1, tf);
    CoefficientsSolveSystem(p0, p1, tf);
    EvalIsBoundaryRow(c, 0.0, tf);
    assert RowTimes(BoundaryMatrix(0.0, tf)[2], c) == p1;
    assert RowTimes(BoundaryMatrix(0.0, tf)[3], c) == 0.0;
  }

  /**
   * `np.linspace(0, stop, num)`: `num` evenly spaced samples, both ends
   * included; a single sample is `0`; a negative count raises.
   */
  function Linspace(stop: real, num: int): (r: Result<seq<real>, TrajectoryError>)
    ensures r.Ok? <==> num >= 0
    ensures r.Ok? ==> |r.value| == num
    ensures r.Ok? && num >= 1 ==> r.value[0] == 0.0
    ensures r.Ok? && num >= 2 ==> r.value[num - 1] == stop
  {
    if num < 0 then Err(NegativeStep)
    else if num == 1 then Ok([0.0])
    else
      var delta := stop / ((num - 1) as real);
      var samples := seq(num, k requires 0 <= k < num => (k as real) * delta);
      assert num >= 2 ==> samples[num - 1] == stop by {
        if num >= 2 { TimesQuotient((num - 1) as real, stop, delta); }
      }
      Ok(samples)
  }

  /**
   * `cubic_polynomial_trajectory(p0, p1, step)`: `step` samples of the cubic
   * with `t0 = 0` and `tf = step`, at `linspace(0, step, step)`.
   */
  function CubicTrajectory(p0: real, p1: real, step: int): (r: Result<seq<real>, TrajectoryError>)
    ensures r.Ok? ==> |r.value| == step
  {
    var times := Linspace(step as real, step);
    if times.Err? then Err(times.error)
    else if step == 0 then Err(SingularMatrix)
    else
      var c := CubicCoefficients(p0, p1, step as real);
      Ok(seq(step, k requires 0 <= k < step => Eval(c, times.value[k])))
  }

  /** The trajectory exists exactly for a positive step count; otherwise the two errors of the source. */
  lemma CubicTrajectoryErrors(p0: real, p1: real, step: int)
    ensures CubicTrajectory(p0, p1, step).Ok? <==> step >= 1
    ensures step < 0 ==> CubicTrajectory(p0, p1, step) == Err(NegativeStep)
    ensures step == 0 ==> CubicTrajectory(p0, p1, step) == Err(SingularMatrix)
  {
  }

  /** The first sample is the start point. */
  lemma CubicTrajectoryStarts(p0: real, p1: real, step: int)
    requires step >= 1
    ensures CubicTrajectory(p0, p1, step).Ok? && CubicTrajectory(p0, p1, step).value[0] == p0
  {
    CubicBoundaryConditions(p0, p1, step as real);
  }

  /** With two or more samples the last one is the end point, because the sample times reach `step`. */
  lemma CubicTrajectoryEnds(p0: real, p1: real, step: int)
    requires step >= 2
    ensures CubicTrajectory(p0, p1, step).Ok? && CubicTrajectory(p0, p1, step).value[step - 1] == p1
  {
    CubicBoundaryConditions(p0, p1, step as real);
  }

  /** Equal end points give a constant trajectory. */
  lemma CubicTrajectoryConstant(p: real, step: int)
    requires step >= 1
    ensures CubicTrajectory(p, p, step).Ok?
    ensures forall k :: 0 <= k < step ==> CubicTrajectory(p, p, step).value[k] == p
  {
    var c := CubicCoefficients(p, p, step as real);
    assert c == Cubic(p, 0.0, 0.0, 0.0);
  }

  /** Column `i` of the grid, or the error met while building it. */
  function Column(start: seq<real>, stop: seq<real>, step: int, i: nat): Result<seq<real>, TrajectoryError>
    requires i < |start|
  {
    if i >= |stop| then Err(IndexOutOfRange) else CubicTrajectory(start[i], stop[i], step)
  }

  /**
   * `joint_space_trajectory(start, stop, step)` as a grid of rows: row `k`
   * holds sample `k` of every joint. `np.zeros((step, dof))` rejects a
   * negative step first; then the columns are built in order, so the first
   * failing column decides the error.
   */
  function JointSpace(start: seq<real>, stop: seq<real>, step: int): (r: Result<seq<seq<real>>, TrajectoryError>)
    ensures r.Ok? ==> |r.value| == step && forall k :: 0 <= k < step ==> |r.value[k]| == |start|
  {
    if step < 0 then Err(NegativeStep)
    else if |start| > 0 && |stop| == 0 then Err(IndexOutOfRange)
    else if |start| > 0 && step == 0 then Err(SingularMatrix)
    else if |stop| < |start| then Err(IndexOutOfRange)
    else Ok(seq(step, k requires 0 <= k < step =>
              seq(|start|, i requires 0 <= i < |start| => CubicTrajectory(start[i], stop[i], step).value[k])))
  }

  /** The grid fails exactly when a column fails, with the first failing column's error. */
  lemma JointSpaceFirstFailure(start: seq<real>, stop: seq<real>, step: int)
    requires step >= 0
    ensures JointSpace(start, stop, step).Ok? <==> forall i :: 0 <= i < |start| ==> Column(start, stop, step, i).Ok?
    ensures forall j :: 0 <= j < |start| && Column(start, stop, step, j).Err? &&
                        (forall i :: 0 <= i < j ==> Column(start, stop, step, i).Ok?) ==>
                        JointSpace(start, stop, step) == Err(Column(start, stop, step, j).error)
  {
    if |start| > 0 {
      CubicTrajectoryErrors(start[0], if 0 < |stop| then stop[0] else 0.0, step);
      forall i | 0 <= i < |start| && i < |stop| {
        CubicTrajectoryErrors(start[i], stop[i], step);
      }
      if step == 0 {
        assert Column(start, stop, step, 0).Err?;
      } else if |stop| < |start| {
        assert Column(start, stop, step, |stop|).Err?;
      }
    }
  }

  /** Row 0 is the start configuration and, with two or more steps, the last row is the stop configuration. */
  lemma JointSpaceEndRows(start: seq<real>, stop: seq<real>, step: int)
    requires |stop| >= |start| && step >= 1
    ensures JointSpace(start, stop, step).Ok?
    ensures JointSpace(start, stop, step).value[0] == start
    ensures step >= 2 ==> JointSpace(start, stop, step).value[step - 1] == stop[..|start|]
  {
    var grid := JointSpace(start, stop, step).value;
    forall i | 0 <= i < |start|
      ensures grid[0][i] == start[i]
      ensures step >= 2 ==> grid[step - 1][i] == stop[i]
    {
      CubicTrajectoryStarts(start[i], stop[i], step);
      if step >= 2 {
        CubicTrajectoryEnds(start[i], stop[i], step);
      }
    }
  }

  /**
   * `joint_space_trajectory`: allocates the zero grid and fills it column by
   * column with the cubic of each joint.
   */
  method JointSpaceTrajectory(start: seq<real>, stop: seq<real>, step: int)
    returns (r: Result<array2<real>, TrajectoryError>)
    ensures r.Err? <==> JointSpace(start, stop, step).Err?
    ensures r.Err? ==> r.error == JointSpace(start, stop, step).error
    ensures r.Ok? ==> fresh(r.value) && r.value.Length0 == step && r.value.Length1 == |start|
    ensures r.Ok? ==> forall k, i :: 0 <= k < step && 0 <= i < |start| ==>
                        r.value[k, i] == JointSpace(start, stop, step).value[k][i]
  {
    var dof := |start|;
    if step < 0 {
      return Err(NegativeStep);
    }
    JointSpaceFirstFailure(start, stop, step);
    var trajectory := new real[step, dof]((_, _) => 0.0);
    for i := 0 to dof
      invariant forall j :: 0 <= j < i ==> Column(start, stop, step, j).Ok?
      invariant forall k, j :: 0 <= k < step && 0 <= j < i ==>
                  trajectory[k, j] == Column(start, stop, step, j).value[k]
    {
      var t := Column(start, stop, step, i);
      if t.Err? {
        return Err(t.error);
      }
      FillColumn(trajectory, i, t.value);
    }
    return Ok(trajectory);
  }

  /** `trajectory[:, i] = column`: writes column `i` and nothing else. */
  method FillColumn(a: array2<real>, i: nat, column: seq<real>)
    requires i < a.Length1 && |column| == a.Length0
    modifies a
    ensures forall k, j :: 0 <= k < a.Length0 && 0 <= j < a.Length1 ==>
              a[k, j] == if j == i then column[k] else old(a[k, j])
  {
    for k := 0 to a.Length0
      invariant forall k', j :: 0 <= k' < a.Length0 && 0 <= j < a.Length1 ==>
                  a[k', j] == if j == i && k' < k then column[k'] else old(a[k', j])
    {
      a[k, i] := column[k];
    }
  }

  /** The duration a `QTimeLine` keeps when it is given one that is not positive. */
  const DefaultTimelineDuration: int := 1000

  /**
   * The duration of `QtCore.QTimeLine(duration, self)`: the given one when it
   * is positive; otherwise the timeline refuses it and keeps its default.
   */
  function TimelineDuration(duration: int): (r: int)
    ensures r > 0
    ensures duration > 0 ==> r == duration
    ensures duration <= 0 ==> r == DefaultTimelineDuration
  {
    if duration > 0 then duration else DefaultTimelineDuration
  }

  /** What the frame callback and the `frame_changed` signal receive, in order. */
  datatype PlaybackEvent = Frame(configuration: seq<real>) | FrameChanged

  /** `trajectory[index, :]` with numpy indexing: negative indices count from the end. */
  function RowAt(rows: seq<seq<real>>, index: int): (r: Result<seq<real>, TrajectoryError>)
    ensures r.Ok? <==> -|rows| <= index < |rows|
    ensures r.Ok? && index >= 0 ==> r.value == rows[index]
    ensures r.Ok? && index < 0 ==> r.value == rows[|rows| + index]
  {
    if 0 <= index < |rows| then Ok(rows[index])
    else if -|rows| <= index < 0 then Ok(rows[|rows| + index])
    else Err(IndexOutOfRange)
  }

  /** Index `-1` is the final row of a trajectory, the stop configuration when it has two or more steps. */
  lemma LastRowIsStop(start: seq<real>, stop: seq<real>, step: int)
    requires |stop| >= |start| && step >= 2
    ensures JointSpace(start, stop, step).Ok?
    ensures RowAt(JointSpace(start, stop, step).value, -1) == Ok(stop[..|start|])
  {
    JointSpaceEndRows(start, stop, step);
  }

  /**
   * `Sequence`: plays a trajectory back over `duration` milliseconds. Only the
   * abstract state is kept: the current time, the running flag and the log of
   * callback invocations; the timeline's own scheduling is not modelled.
   */
  class Sequence {
    const duration: int
    const timelineDuration: int
    const step: int
    const trajectory: seq<seq<real>>
    var currentTime: int
    var running: bool
    var events: seq<PlaybackEvent>

    /**
     * The constructor with an already built trajectory: the time is set to
     * the timeline's duration before the callback is connected, so no frame
     * is produced.
     */
    constructor (trajectory: seq<seq<real>>, duration: int, step: int)
      ensures this.trajectory == trajectory && this.duration == duration && this.step == step
      ensures timelineDuration == TimelineDuration(duration)
      ensures currentTime == timelineDuration && !running && events == []
    {
      this.trajectory := trajectory;
      this.duration := duration;
      timelineDuration := TimelineDuration(duration);
      this.step := step;
      currentTime := timelineDuration;
      running := false;
      events := [];
    }

    /** `start()`: runs the timeline from time 0; a running timeline ignores the call. */
    method Start()
      modifies this
      ensures old(running) ==> currentTime == old(currentTime)
      ensures !old(running) ==> currentTime == 0
      ensures running && events == old(events)
    {
      if !running {
        currentTime := 0;
        running := true;
      }
    }

    /** `stop()`: snaps an unfinished playback to the timeline's end, then halts. */
    method Stop()
      modifies this
      ensures currentTime == if old(currentTime) < timelineDuration then timelineDuration else old(currentTime)
      ensures currentTime >= timelineDuration
      ensures !running && events == old(events)
    {
      if currentTime < timelineDuration {
        currentTime := timelineDuration;
      }
      running := false;
    }

    /** `isRunning()`. */
    method IsRunning() returns (b: bool)
      ensures b == running
    {
      b := running;
    }

    /** `animate(index)`: the frame callback gets trajectory row `index`, then `frame_changed` is emitted. */
    method Animate(index: int) returns (r: Outcome<TrajectoryError>)
      modifies this`events
      ensures r.Pass? <==> RowAt(trajectory, index).Ok?
      ensures r.Pass? ==> events == old(events) + [Frame(RowAt(trajectory, index).value), FrameChanged]
      ensures r.Fail? ==> r.error == IndexOutOfRange && events == old(events)
    {
      var row := RowAt(trajectory, index);
      if row.Err? {
        return Fail(row.error);
      }
      events := events + [Frame(row.value)];
      events := events + [FrameChanged];
      return Pass;
    }
  }

  /**
   * `Sequence(frames, start, stop, duration, step)`: builds the trajectory
   * first, so its errors surface before any sequence exists.
   */
  method CreateSequence(start: seq<real>, stop: seq<real>, duration: int, step: int)
    returns (r: Result<Sequence, TrajectoryError>)
    ensures r.Err? <==> JointSpace(start, stop, step).Err?
    ensures r.Err? ==> r.error == JointSpace(start, stop, step).error
    ensures r.Ok? ==> fresh(r.value) && r.value.trajectory == JointSpace(start, stop, step).value
    ensures r.Ok? ==> r.value.timelineDuration == TimelineDuration(duration)
    ensures r.Ok? ==> r.value.currentTime == TimelineDuration(duration) && !r.value.running && r.value.events == []
  {
    var grid := JointSpaceTrajectory(start, stop, step);
    if grid.Err? {
      return Err(grid.error);
    }
    var a := grid.value;
    var rows := seq(step, k requires 0 <= k < step reads a =>
                  seq(|start|, i requires 0 <= i < |start| reads a => a[k, i]));
    ghost var expected := JointSpace(start, stop, step).value;
    forall k | 0 <= k < step
      ensures rows[k] == expected[k]
    {
      assert forall i :: 0 <= i < |start| ==> rows[k][i] == a[k, i];
    }
    var s := new Sequence(rows, duration, step);
    return Ok(s);
  }
}
