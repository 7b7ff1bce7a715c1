/** The sensor-fusion front end of the extended Kalman filter
    (Term2-proj1-Extended-Kalman-Filter/src/fusion_ekf.cpp).

    FusionEkf owns a KalmanFilter and, for every measurement, either
    initialises the state from it (first call) or builds the transition and
    process-noise matrices from the elapsed time, predicts, and runs the one
    update routine that matches the sensor. The bodies of the filter's
    Predict / UpdateLidar / UpdateRadar and of Tools::CalculateJacobian live in
    files that are not part of this model: their effect is a parameter of the
    model (FilterLaws, and a Jacobian function), and the filter records each
    call it receives, so that the order of calls can be stated. */
module Fusion {
  import opened Matrices

  /** MeasurementPackage::SensorType; Other stands for any tag that is
      neither of the two the engine compares against. */
  datatype SensorType = Laser | Radar | Other

  /** MeasurementPackage: sensor tag, raw readings, timestamp in microseconds. */
  datatype Measurement = Measurement(sensor: SensorType, raw: Vector, timestamp: int)

  /** The readings the engine indexes are present: px, py for a laser
      reading; rho, theta, rho_dot for a radar reading. */
  predicate WellFormed(m: Measurement)
  {
    match m.sensor
    case Laser => |m.raw| >= 2
    case Radar => |m.raw| >= 3
    case Other => true
  }

  /** sin and cos of the C math library. */
  datatype Trig = Trig(sin: real -> real, cos: real -> real)

  /** State estimate of the filter: x = [px, py, vx, vy] and its covariance P. */
  datatype Estimate = Estimate(x: Vector, P: Matrix)

  /** What KalmanFilter's routines do with the estimate:
      predict(estimate, F, Q), updateLidar(estimate, H, R, z),
      updateRadar(estimate, H, R, z). */
  datatype FilterLaws = FilterLaws(
    predict: (Estimate, Matrix, Matrix) -> Estimate,
    updateLidar: (Estimate, Matrix, Matrix, Vector) -> Estimate,
    updateRadar: (Estimate, Matrix, Matrix, Vector) -> Estimate)

  /** One call received by the filter, with the matrices it was given. */
  datatype FilterCall =
    | Predicted(F: Matrix, Q: Matrix)
    | LidarUpdated(H: Matrix, R: Matrix, z: Vector)
    | RadarUpdated(H: Matrix, R: Matrix, z: Vector)

  /** Acceleration-noise variances noise_ax and noise_ay. */
  const NoiseAx: real := 9.0
  const NoiseAy: real := 9.0

  /** R_laser_: measurement noise of the laser, 2 x 2. */
  const LaserNoise: Matrix := [[0.0225, 0.0], [0.0, 0.0225]]

  /** R_radar_: measurement noise of the radar, 3 x 3. */
  const RadarNoise: Matrix := [[0.09, 0.0, 0.0], [0.0, 0.0009, 0.0], [0.0, 0.0, 0.09]]

  /** H_laser_: the laser observes position only. */
  const LaserMeasurementMatrix: Matrix := [[1.0, 0.0, 0.0, 0.0], [0.0, 1.0, 0.0, 0.0]]

  /** Seconds elapsed between two timestamps given in microseconds
      (dt = 1e-6 * (timestamp - previous_timestamp_)). */
  function ElapsedSeconds(previous: int, current: int): (dt: real)
    ensures dt * 1000000.0 == (current - previous) as real
    ensures dt >= 0.0 <==> current >= previous
    ensures dt == 0.0 <==> current == previous
  {
    (current - previous) as real / 1000000.0
  }

  /** F: constant-velocity state transition over dt seconds. */
  function TransitionMatrix(dt: real): (F: Matrix)
    ensures IsMatrix(F, 4, 4)
  {
    [[1.0, 0.0, dt, 0.0],
     [0.0, 1.0, 0.0, dt],
     [0.0, 0.0, 1.0, 0.0],
     [0.0, 0.0, 0.0, 1.0]]
  }

  /** Q: process noise over dt seconds, from dt^2, dt^3 and dt^4. */
  function ProcessNoise(dt: real): (Q: Matrix)
    ensures IsMatrix(Q, 4, 4)
    ensures forall i, j :: 0 <= i < 4 && 0 <= j < 4 ==> Q[i][j] == Q[j][i]
    ensures forall i, j :: 0 <= i < 4 && 0 <= j < 4 && i % 2 != j % 2 ==> Q[i][j] == 0.0
  {
    var dt2 := dt * dt;
    var dt3 := dt2 * dt;
    var dt4 := dt3 * dt;
    [[dt4 / 4.0 * NoiseAx, 0.0, dt3 / 2.0 * NoiseAx, 0.0],
     [0.0, dt4 / 4.0 * NoiseAy, 0.0, dt3 / 2.0 * NoiseAy],
     [dt3 / 2.0 * NoiseAx, 0.0, dt2 * NoiseAx, 0.0],
     [0.0, dt3 / 2.0 * NoiseAy, 0.0, dt2 * NoiseAy]]
  }

  /** Polar radar reading to Cartesian state, as the engine writes it. */
  function RadarToCartesian(rho: real, theta: real, rhoDot: real, trig: Trig): (x: Vector)
    ensures |x| == 4
  {
    var c, s := trig.cos(theta), trig.sin(theta);
    [rho * c, rho * s, rhoDot * c - rho * s, rhoDot * s + rho * c]
  }

  /** The state the first measurement yields. */
  function InitialState(m: Measurement, trig: Trig): (x: Vector)
    requires WellFormed(m)
    ensures |x| == 4
  {
    match m.sensor
    case Radar => RadarToCartesian(m.raw[0], m.raw[1], m.raw[2], trig)
    case Laser => [m.raw[0], m.raw[1], 0.0, 0.0]
    case Other => [1.0, 1.0, 1.0, 1.0]
  }

  /** The filter's calls alternate: a prediction, then exactly one update. */
  ghost predicate Alternating(calls: seq<FilterCall>)
  {
    forall k :: 0 <= k < |calls| ==> (calls[k].Predicted? <==> k % 2 == 0)
  }

  /** One prediction followed by one update keeps a log of whole steps
      alternating. */
  lemma AlternatingStep(calls: seq<FilterCall>, p: FilterCall, u: FilterCall)
    requires Alternating(calls) && |calls| % 2 == 0
    requires p.Predicted? && !u.Predicted?
    ensures Alternating(calls + [p] + [u])
  {
    var log := calls + [p] + [u];
    forall k | 0 <= k < |log|
      ensures log[k].Predicted? <==> k % 2 == 0
    {
      if k < |calls| {
        assert log[k] == calls[k];
      } else if k == |calls| {
        assert log[k] == p;
      } else {
        assert log[k] == u;
      }
    }
  }

  /** Constant-velocity motion of a state [px, py, vx, vy] over dt seconds. */
  function Advance(dt: real, s: Vector): (r: Vector)
    requires |s| == 4
    ensures |r| == 4 && r[2] == s[2] && r[3] == s[3]
  {
    [s[0] + dt * s[2], s[1] + dt * s[3], s[2], s[3]]
  }

  /** F applied to a state moves the position by velocity times dt and keeps
      the velocity. */
  lemma TransitionMovesAtConstantVelocity(dt: real, s: Vector)
    requires |s| == 4
    ensures MatVec(TransitionMatrix(dt), s) == Advance(dt, s)
  {
    var F := TransitionMatrix(dt);
    var r := MatVec(F, s);
    var t := Advance(dt, s);
    Dot4(F[0], s);
    Dot4(F[1], s);
    Dot4(F[2], s);
    Dot4(F[3], s);
    assert r[0] == t[0] && r[1] == t[1];
    assert r[2] == t[2] && r[3] == t[3];
  }

  /** Predicting over b and then over a moves the state as predicting over
      a + b does; over zero seconds it leaves the state as it is. */
  lemma TransitionComposes(a: real, b: real, s: Vector)
    requires |s| == 4
    ensures MatVec(TransitionMatrix(a), MatVec(TransitionMatrix(b), s)) == MatVec(TransitionMatrix(a + b), s)
    ensures MatVec(TransitionMatrix(0.0), s) == s
  {
    var c := a + b;
    TransitionMovesAtConstantVelocity(b, s);
    TransitionMovesAtConstantVelocity(a, Advance(b, s));
    TransitionMovesAtConstantVelocity(c, s);
    AdvanceComposes(a, b, c, s);
    TransitionMovesAtConstantVelocity(0.0, s);
    AdvanceByZero(s);
  }

  lemma AdvanceComposes(a: real, b: real, c: real, s: Vector)
    requires |s| == 4 && c == a + b
    ensures Advance(a, Advance(b, s)) == Advance(c, s)
  {
    var moved := Advance(b, s);
    var twice := Advance(a, moved);
    var once := Advance(c, s);
    AdvanceTwice(s[0], s[2], a, b, c, moved[0], moved[2], twice[0], once[0]);
    AdvanceTwice(s[1], s[3], a, b, c, moved[1], moved[3], twice[1], once[1]);
  }

  lemma AdvanceByZero(s: Vector)
    requires |s| == 4
    ensures Advance(0.0, s) == s
  {
    var still := Advance(0.0, s);
    assert still[0] == s[0] && still[1] == s[1];
  }

  /** One axis moved over b and then over a ends where moving it over c = a + b
      ends: q and w are the position and velocity after the first move, t the
      position after the second and o the position after the single one.
      Every product is a parameter, so the nonlinear real arithmetic is one
      step the solver takes without searching for the terms. */
  lemma AdvanceTwice(p: real, v: real, a: real, b: real, c: real, q: real, w: real, t: real, o: real)
    requires c == a + b && q == p + b * v && w == v
    requires t == q + a * w && o == p + c * v
    ensures t == o
  {
  }

  /** No time elapsed, no process noise. */
  lemma ProcessNoiseVanishesAtZero()
    ensures ProcessNoise(0.0) == Zero(4, 4)
  {
    var Q, Z := ProcessNoise(0.0), Zero(4, 4);
    forall i | 0 <= i < 4
      ensures Q[i] == Z[i]
    {
      assert |Q[i]| == |Z[i]| == 4;
    }
  }

  /** The gain with which a constant acceleration over dt enters each state
      component: dt^2 / 2 for the positions, dt for the velocities. */
  function NoiseGain(dt: real): (g: Vector)
    ensures |g| == 4
  {
    [dt * dt / 2.0, dt * dt / 2.0, dt, dt]
  }

  /** The discretised white-noise-acceleration covariance
      G diag(noise_ax, noise_ay) G' for the gains g: entry (i, j) is the axis
      variance times g_i g_j when i and j belong to the same axis (x:
      components 0 and 2, y: components 1 and 3), 0 otherwise. */
  function AxisNoise(g: Vector): (N: Matrix)
    requires |g| == 4
    ensures IsMatrix(N, 4, 4)
  {
    [[NoiseAx * g[0] * g[0], 0.0, NoiseAx * g[0] * g[2], 0.0],
     [0.0, NoiseAy * g[1] * g[1], 0.0, NoiseAy * g[1] * g[3]],
     [NoiseAx * g[2] * g[0], 0.0, NoiseAx * g[2] * g[2], 0.0],
     [0.0, NoiseAy * g[3] * g[1], 0.0, NoiseAy * g[3] * g[3]]]
  }

  /** Q, as the engine writes it entry by entry, is the white-noise-acceleration
      covariance for the gains dt^2 / 2 and dt. */
  lemma ProcessNoiseFactors(dt: real)
    ensures ProcessNoise(dt) == AxisNoise(NoiseGain(dt))
  {
    var Q, N, h := ProcessNoise(dt), AxisNoise(NoiseGain(dt)), dt * dt / 2.0;
    assert dt * dt * dt * dt / 4.0 * NoiseAx == NoiseAx * h * h;
    assert dt * dt * dt / 2.0 * NoiseAx == NoiseAx * h * dt;
    assert dt * dt * dt / 2.0 * NoiseAx == NoiseAx * dt * h;
    assert dt * dt * dt * dt / 4.0 * NoiseAy == NoiseAy * h * h;
    assert dt * dt * dt / 2.0 * NoiseAy == NoiseAy * h * dt;
    assert dt * dt * dt / 2.0 * NoiseAy == NoiseAy * dt * h;
    forall i, j | 0 <= i < 4 && 0 <= j < 4
      ensures Q[i][j] == N[i][j]
    {
    }
    forall i | 0 <= i < 4
      ensures Q[i] == N[i]
    {
      assert |Q[i]| == |N[i]| == 4;
    }
  }

  /** Q is positive semi-definite: v' Q v is a sum of two scaled squares. */
  lemma ProcessNoisePositiveSemidefinite(dt: real, v: Vector)
    requires |v| == 4
    ensures Dot(v, MatVec(ProcessNoise(dt), v)) >= 0.0
  {
    ProcessNoiseFactors(dt);
    AxisNoiseIsPositiveSemidefinite(NoiseGain(dt), v);
  }

  lemma AxisNoiseIsPositiveSemidefinite(g: Vector, v: Vector)
    requires |g| == 4 && |v| == 4
    ensures Dot(v, MatVec(AxisNoise(g), v)) >= 0.0
  {
    var Nv := MatVec(AxisNoise(g), v);
    AxisNoiseTimes(g, v);
    Dot4(v, Nv);
    SplitByAxis(g, v, Nv);
  }

  lemma AxisNoiseTimes(g: Vector, v: Vector)
    requires |g| == 4 && |v| == 4
    ensures var Nv := MatVec(AxisNoise(g), v);
      && Nv[0] == NoiseAx * g[0] * g[0] * v[0] + NoiseAx * g[0] * g[2] * v[2]
      && Nv[1] == NoiseAy * g[1] * g[1] * v[1] + NoiseAy * g[1] * g[3] * v[3]
      && Nv[2] == NoiseAx * g[2] * g[0] * v[0] + NoiseAx * g[2] * g[2] * v[2]
      && Nv[3] == NoiseAy * g[3] * g[1] * v[1] + NoiseAy * g[3] * g[3] * v[3]
  {
    var N := AxisNoise(g);
    Dot4(N[0], v);
    Dot4(N[1], v);
    Dot4(N[2], v);
    Dot4(N[3], v);
  }

  lemma SplitByAxis(g: Vector, v: Vector, w: Vector)
    requires |g| == 4 && |v| == 4 && |w| == 4
    requires w[0] == NoiseAx * g[0] * g[0] * v[0] + NoiseAx * g[0] * g[2] * v[2]
    requires w[1] == NoiseAy * g[1] * g[1] * v[1] + NoiseAy * g[1] * g[3] * v[3]
    requires w[2] == NoiseAx * g[2] * g[0] * v[0] + NoiseAx * g[2] * g[2] * v[2]
    requires w[3] == NoiseAy * g[3] * g[1] * v[1] + NoiseAy * g[3] * g[3] * v[3]
    ensures v[0] * w[0] + v[1] * w[1] + v[2] * w[2] + v[3] * w[3] >= 0.0
  {
    AxisSumOfSquares(NoiseAx, g[0], g[2], v[0], v[2], w[0], w[2]);
    AxisSumOfSquares(NoiseAy, g[1], g[3], v[1], v[3], w[1], w[3]);
  }

  /** Within one axis of variance n, with position gain p and velocity gain
      q, the quadratic form is n (p x + q y)^2. */
  lemma AxisSumOfSquares(n: real, p: real, q: real, x: real, y: real, nx: real, ny: real)
    requires n >= 0.0
    requires nx == n * p * p * x + n * p * q * y
    requires ny == n * q * p * x + n * q * q * y
    ensures x * nx + y * ny >= 0.0
  {
    var a := p * x + q * y;
    assert nx == n * p * a;
    assert ny == n * q * a;
    assert x * nx + y * ny == n * (a * a);
  }

  /** H_laser_ picks the position components out of a state. */
  lemma LaserMeasurementSelectsPosition(s: Vector)
    requires |s| == 4
    ensures MatVec(LaserMeasurementMatrix, s) == s[..2]
  {
    Dot4(LaserMeasurementMatrix[0], s);
    Dot4(LaserMeasurementMatrix[1], s);
  }

  /** A state initialised from a laser reading has zero velocity and is mapped
      by the laser measurement model back onto that reading. */
  lemma LaserInitialStateRoundTrip(m: Measurement, trig: Trig)
    requires m.sensor == Laser && |m.raw| >= 2
    ensures InitialState(m, trig)[2..] == [0.0, 0.0]
    ensures MatVec(LaserMeasurementMatrix, InitialState(m, trig)) == m.raw[..2]
  {
    LaserMeasurementSelectsPosition(InitialState(m, trig));
  }

  /** Where sin^2 + cos^2 = 1 at the bearing, a state initialised from a radar
      reading lies at the measured range, and its velocity projected on the
      line of sight is the measured range rate (px*vx + py*vy = rho*rho_dot).
      The velocity as written is rho_dot (cos, sin) plus rho (-sin, cos): a
      distance added to a speed. That extra term is perpendicular to the line
      of sight, so it leaves the projection unchanged, but the velocity is
      not the radial velocity the reading measures. */
  lemma RadarInitialStateMatchesReading(m: Measurement, trig: Trig)
    requires m.sensor == Radar && |m.raw| >= 3
    requires trig.sin(m.raw[1]) * trig.sin(m.raw[1]) + trig.cos(m.raw[1]) * trig.cos(m.raw[1]) == 1.0
    ensures var x := InitialState(m, trig);
      x[0] * x[0] + x[1] * x[1] == m.raw[0] * m.raw[0]
      && x[0] * x[2] + x[1] * x[3] == m.raw[0] * m.raw[2]
  {
    var rho, rhoDot := m.raw[0], m.raw[2];
    var c, s := trig.cos(m.raw[1]), trig.sin(m.raw[1]);
    var x := InitialState(m, trig);
    assert x[0] * x[0] + x[1] * x[1] == rho * rho * (c * c + s * s);
    assert x[0] * x[2] + x[1] * x[3] == rho * rhoDot * (c * c + s * s);
  }

  /** A target 5 m straight ahead with zero range rate starts with a
      velocity of 5 along y: the rho-proportional term of the conversion
      enters vy. */
  lemma RadarInitialStateAddsRangeToVelocity(trig: Trig)
    requires trig.cos(0.0) == 1.0 && trig.sin(0.0) == 0.0
    ensures InitialState(Measurement(Radar, [5.0, 0.0, 0.0], 0), trig) == [5.0, 0.0, 0.0, 5.0]
  {
  }

  /** The vectors and matrices KalmanFilter's own constructor leaves in
      x_, P_, F_, Q_, H_ and R_. */
  datatype FilterFields = FilterFields(x: Vector, P: Matrix, F: Matrix, Q: Matrix, H: Matrix, R: Matrix)

  /** The filter whose routines FusionEkf drives (KalmanFilter ekf_). */
  class KalmanFilter {
    const laws: FilterLaws
    var x: Vector
    var P: Matrix
    var F: Matrix
    var Q: Matrix
    var H: Matrix
    var R: Matrix
    /** Every routine called so far, oldest first. */
    ghost var Calls: seq<FilterCall>

    /** KalmanFilter's constructor is not part of this model: the fields it
        leaves are a parameter. */
    constructor (laws: FilterLaws, start: FilterFields)
      ensures this.laws == laws
      ensures x == start.x && P == start.P && F == start.F
      ensures Q == start.Q && H == start.H && R == start.R
      ensures Calls == []
    {
      this.laws := laws;
      x, P, F, Q, H, R := start.x, start.P, start.F, start.Q, start.H, start.R;
      Calls := [];
    }

    function Current(): Estimate
      reads this
    {
      Estimate(x, P)
    }

    method Predict()
      modifies this`x, this`P, this`Calls
      ensures Current() == laws.predict(old(Current()), F, Q)
      ensures Calls == old(Calls) + [Predicted(F, Q)]
    {
      var e := laws.predict(Current(), F, Q);
      x, P := e.x, e.P;
      Calls := Calls + [Predicted(F, Q)];
    }

    method UpdateLidar(z: Vector)
      modifies this`x, this`P, this`Calls
      ensures Current() == laws.updateLidar(old(Current()), H, R, z)
      ensures Calls == old(Calls) + [LidarUpdated(H, R, z)]
    {
      var e := laws.updateLidar(Current(), H, R, z);
      x, P := e.x, e.P;
      Calls := Calls + [LidarUpdated(H, R, z)];
    }

    method UpdateRadar(z: Vector)
      modifies this`x, this`P, this`Calls
      ensures Current() == laws.updateRadar(old(Current()), H, R, z)
      ensures Calls == old(Calls) + [RadarUpdated(H, R, z)]
    {
      var e := laws.updateRadar(Current(), H, R, z);
      x, P := e.x, e.P;
      Calls := Calls + [RadarUpdated(H, R, z)];
    }
  }

  class FusionEkf {
    var isInitialized: bool
    var previousTimestamp: int
    const rLaser: Matrix
    const rRadar: Matrix
    const hLaser: Matrix
    const hj: Matrix
    const ekf: KalmanFilter
    /** Tools::CalculateJacobian. */
    const calculateJacobian: Vector -> Matrix
    const trig: Trig
    /** Number of measurements processed so far. */
    ghost var Processed: nat

    /** Lifecycle invariant: uninitialised exactly until the first
        measurement, with nothing predicted or updated before it; afterwards
        one prediction and one update per later measurement, in that order. */
    ghost predicate Valid()
      reads this, ekf
    {
      && (isInitialized <==> Processed > 0)
      && (!isInitialized ==> previousTimestamp == 0 && ekf.Calls == [])
      && (isInitialized ==> |ekf.Calls| == 2 * (Processed - 1))
      && Alternating(ekf.Calls)
    }

    constructor (laws: FilterLaws, start: FilterFields, calculateJacobian: Vector -> Matrix, trig: Trig)
      ensures Valid() && fresh(ekf)
      ensures !isInitialized && previousTimestamp == 0 && Processed == 0
      ensures rLaser == Diagonal([0.0225, 0.0225])
      ensures rRadar == Diagonal([0.09, 0.0009, 0.09])
      ensures hLaser == LaserMeasurementMatrix && IsMatrix(hLaser, 2, 4)
      ensures hj == Zero(3, 4)
      ensures ekf.laws == laws && ekf.x == start.x && ekf.P == start.P
      ensures ekf.F == start.F && ekf.Q == start.Q && ekf.H == start.H && ekf.R == start.R
      ensures this.calculateJacobian == calculateJacobian && this.trig == trig
    {
      isInitialized := false;
      previousTimestamp := 0;
      rLaser := LaserNoise;
      rRadar := RadarNoise;
      hLaser := LaserMeasurementMatrix;
      hj := [[0.0, 0.0, 0.0, 0.0], [0.0, 0.0, 0.0, 0.0], [0.0, 0.0, 0.0, 0.0]];
      ekf := new KalmanFilter(laws, start);
      this.calculateJacobian := calculateJacobian;
      this.trig := trig;
      Processed := 0;
      new;
      assert rLaser == Diagonal([0.0225, 0.0225]) by {
        var D := Diagonal([0.0225, 0.0225]);
        assert D[0] == rLaser[0] && D[1] == rLaser[1];
      }
      assert rRadar == Diagonal([0.09, 0.0009, 0.09]) by {
        var D := Diagonal([0.09, 0.0009, 0.09]);
        assert D[0] == rRadar[0] && D[1] == rRadar[1] && D[2] == rRadar[2];
      }
      assert hj == Zero(3, 4) by {
        var Z := Zero(3, 4);
        assert Z[0] == hj[0] && Z[1] == hj[1] && Z[2] == hj[2];
      }
    }

    /** Ingests one measurement: initialises on the first, otherwise
        predicts over the elapsed time and runs the update of its sensor. */
    method ProcessMeasurement(m: Measurement)
      requires Valid() && (!isInitialized ==> WellFormed(m))
      modifies this, ekf
      ensures Valid()
      ensures isInitialized && previousTimestamp == m.timestamp
      ensures Processed == old(Processed) + 1
      ensures !old(isInitialized) ==>
        && ekf.x == InitialState(m, trig)
        && ekf.P == old(ekf.P) && ekf.F == old(ekf.F) && ekf.Q == old(ekf.Q)
        && ekf.H == old(ekf.H) && ekf.R == old(ekf.R)
        && ekf.Calls == old(ekf.Calls)
      ensures old(isInitialized) ==>
        var dt := ElapsedSeconds(old(previousTimestamp), m.timestamp);
        var F, Q := TransitionMatrix(dt), ProcessNoise(dt);
        var predicted := ekf.laws.predict(old(ekf.Current()), F, Q);
        && ekf.F == F && ekf.Q == Q
        && (m.sensor == Radar ==>
              && ekf.H == calculateJacobian(predicted.x) && ekf.R == rRadar
              && ekf.Current() == ekf.laws.updateRadar(predicted, ekf.H, ekf.R, m.raw)
              && ekf.Calls == old(ekf.Calls) + [Predicted(F, Q)] + [RadarUpdated(ekf.H, ekf.R, m.raw)])
        && (m.sensor != Radar ==>
              && ekf.H == hLaser && ekf.R == rLaser
              && ekf.Current() == ekf.laws.updateLidar(predicted, ekf.H, ekf.R, m.raw)
              && ekf.Calls == old(ekf.Calls) + [Predicted(F, Q)] + [LidarUpdated(ekf.H, ekf.R, m.raw)])
    {
      if !isInitialized {
        Initialize(m);
        return;
      }
      ghost var before := ekf.Calls;
      Predict(m.timestamp);
      ghost var F, Q := ekf.F, ekf.Q;
      Update(m);
      if m.sensor == Radar {
        AlternatingStep(before, Predicted(F, Q), RadarUpdated(ekf.H, ekf.R, m.raw));
      } else {
        AlternatingStep(before, Predicted(F, Q), LidarUpdated(ekf.H, ekf.R, m.raw));
      }
      assert |ekf.Calls| == |before| + 2;
      previousTimestamp := m.timestamp;
      Processed := Processed + 1;
    }

    /** The first measurement: the state is taken from it, nothing is
        predicted or updated. */
    method Initialize(m: Measurement)
      requires Valid() && !isInitialized && WellFormed(m)
      modifies this`isInitialized, this`previousTimestamp, this`Processed, ekf`x
      ensures Valid() && isInitialized
      ensures previousTimestamp == m.timestamp && Processed == old(Processed) + 1
      ensures ekf.x == InitialState(m, trig)
    {
      ekf.x := [1.0, 1.0, 1.0, 1.0];
      if m.sensor == Radar {
        var rho, theta, rhoDot := m.raw[0], m.raw[1], m.raw[2];
        ekf.x := RadarToCartesian(rho, theta, rhoDot, trig);
      } else if m.sensor == Laser {
        ekf.x := [m.raw[0], m.raw[1], 0.0, 0.0];
      }
      previousTimestamp := m.timestamp;
      isInitialized := true;
      Processed := Processed + 1;
    }

    /** Prediction: F and Q for the time elapsed since the previous
        measurement, then the filter's prediction step. */
    method Predict(timestamp: int)
      modifies ekf`x, ekf`P, ekf`F, ekf`Q, ekf`Calls
      ensures
        var dt := ElapsedSeconds(previousTimestamp, timestamp);
        && ekf.F == TransitionMatrix(dt) && ekf.Q == ProcessNoise(dt)
        && ekf.Current() == ekf.laws.predict(old(ekf.Current()), ekf.F, ekf.Q)
        && ekf.Calls == old(ekf.Calls) + [Predicted(ekf.F, ekf.Q)]
    {
      var dt := ElapsedSeconds(previousTimestamp, timestamp);
      ekf.F := TransitionMatrix(dt);
      ekf.Q := ProcessNoise(dt);
      ekf.Predict();
    }

    /** Update: the measurement model of the measurement's sensor, then the
        filter's update step for that sensor. */
    method Update(m: Measurement)
      modifies ekf`x, ekf`P, ekf`H, ekf`R, ekf`Calls
      ensures m.sensor == Radar ==>
        && ekf.H == calculateJacobian(old(ekf.x)) && ekf.R == rRadar
        && ekf.Current() == ekf.laws.updateRadar(old(ekf.Current()), ekf.H, ekf.R, m.raw)
        && ekf.Calls == old(ekf.Calls) + [RadarUpdated(ekf.H, ekf.R, m.raw)]
      ensures m.sensor != Radar ==>
        && ekf.H == hLaser && ekf.R == rLaser
        && ekf.Current() == ekf.laws.updateLidar(old(ekf.Current()), ekf.H, ekf.R, m.raw)
        && ekf.Calls == old(ekf.Calls) + [LidarUpdated(ekf.H, ekf.R, m.raw)]
    {
      if m.sensor == Radar {
        ekf.H := calculateJacobian(ekf.x);
        ekf.R := rRadar;
        ekf.UpdateRadar(m.raw);
      } else {
        ekf.H := hLaser;
        ekf.R := rLaser;
        ekf.UpdateLidar(m.raw);
      }
    }
  }
}
