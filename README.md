# Sensor fusion front end and MPC driver helpers

This project models two pieces of a self-driving-car course repository in Dafny.

**The extended Kalman filter's fusion engine** (`FusionEKF`, module `Fusion` in `fusion_ekf.dfy`):
- `FusionEkf` is a class with a lifecycle invariant `Valid()`.
- Its constructor fixes the laser and radar noise matrices and the laser measurement matrix.
- `ProcessMeasurement` initialises the state from the first measurement.
- For every later measurement it:
  - builds the transition matrix `F` and the process noise `Q` from the elapsed time;
  - calls the filter's prediction;
  - runs exactly one update, picking the Jacobian and radar noise or the laser matrices by sensor.
- The filter it drives, `KalmanFilter`, has the fields the engine writes. Its numeric routines, and `Tools::CalculateJacobian`, are defined outside this model, so they are parameters:
  - a `FilterLaws` value;
  - a Jacobian function;
  - `sin`/`cos` in a `Trig` value.
- The filter keeps a ghost log of the calls it receives, so the order of predict and update is stated and proved.

**Helpers of the model-predictive-control driver** (module `MpcDriver` in `mpc_main.dfy`):
- `hasData`, with the `std::string` searches it uses and its `size_t` length arithmetic.
- The degree/radian conversions.
- `polyeval`.
- The Vandermonde design-matrix fill of `polyfit`, kept on an `array2`.
- The unpacking of the optimiser's flat solution into x and y lists for the predicted trajectory.

Both modules share the vector and matrix helpers of module `Matrices` in `matrices.dfy`: vectors as sequences of reals, the dot product and matrix-vector products. Floating-point values are modelled as exact reals.

The model states what the code does, including where a filter would be expected to behave otherwise:
- `ProcessMeasurement` never initialises the covariance `P`. The model leaves `P` as the filter routines make it.
- It never checks that timestamps increase. A negative `dt` is accepted.
- It raises no error for a degenerate radar reading. That handling, if any, lives in the filter routines.
- The radar initialisation adds rho (-sin theta, cos theta) to the velocity, a distance added to a speed. For rho = 5, theta = 0 and rho_dot = 0 the initial state is [5, 0, 0, 5], not [5, 0, 0, 0]. `RadarInitialStateAddsRangeToVelocity` states this example. The range and the range rate are still recovered from the state (`RadarInitialStateMatchesReading`), because the extra term is perpendicular to the line of sight.
- Only the first measurement's readings are indexed by the engine. `WellFormed` is required of that one alone; later readings pass through to the filter routines untouched.

## Model

| member | source | states |
|---|---|---|
| Fusion.FusionEkf.constructor | Term2-proj1-Extended-Kalman-Filter/src/fusion_ekf.cpp:14-35 | The engine starts uninitialised with previous timestamp 0 and nothing predicted or updated. R_laser is diag(0.0225, 0.0225) and R_radar is diag(0.09, 0.0009, 0.09). H_laser is the 2x4 position selector and Hj is the 3x4 zero matrix. The owned filter starts with the x, P, F, Q, H and R its own constructor leaves, given as a parameter. |
| Fusion.FusionEkf.ProcessMeasurement | Term2-proj1-Extended-Kalman-Filter/src/fusion_ekf.cpp:49-148 | Keeps the lifecycle invariant. Afterwards the engine is initialised, the previous timestamp is the measurement's and one more measurement is counted. First call: x is the initial state and F, Q, H, R, P and the call log are untouched. Later call: F and Q are built from dt and one prediction is logged; then comes one radar update with H = Jacobian of the predicted x and R = R_radar, or one laser update with H_laser and R_laser for every other sensor; the resulting estimate is each routine applied in turn. |
| Fusion.FusionEkf.Initialize | Term2-proj1-Extended-Kalman-Filter/src/fusion_ekf.cpp:55-94 | The first measurement sets x to its initial state and the timestamp to its own, and sets the flag. It calls no filter routine. |
| Fusion.FusionEkf.Predict | Term2-proj1-Extended-Kalman-Filter/src/fusion_ekf.cpp:107-124 | F = TransitionMatrix(dt) and Q = ProcessNoise(dt) for dt since the previous timestamp. The estimate becomes the prediction applied with them, and exactly that call is appended to the log. |
| Fusion.FusionEkf.Update | Term2-proj1-Extended-Kalman-Filter/src/fusion_ekf.cpp:136-146 | Radar: H is the Jacobian of the current x, R is R_radar and UpdateRadar runs. Any other sensor: H_laser, R_laser and UpdateLidar. Only that one call is appended. |
| Fusion.KalmanFilter.Predict | Term2-proj1-Extended-Kalman-Filter/src/fusion_ekf.cpp:124 | The estimate becomes predict(old estimate, F, Q) and the call is logged with the F and Q it used. |
| Fusion.KalmanFilter.UpdateRadar | Term2-proj1-Extended-Kalman-Filter/src/fusion_ekf.cpp:140 | The estimate becomes updateRadar(old estimate, H, R, z) and the call is logged with its H, R and z. |
| Fusion.KalmanFilter.UpdateLidar | Term2-proj1-Extended-Kalman-Filter/src/fusion_ekf.cpp:145 | The estimate becomes updateLidar(old estimate, H, R, z) and the call is logged with its H, R and z. |
| Fusion.AlternatingStep | Term2-proj1-Extended-Kalman-Filter/src/fusion_ekf.cpp:124-146 | A log of whole predict-then-update steps, extended by one prediction and one update, still alternates: predictions exactly at even positions. |
| Fusion.ElapsedSeconds | Term2-proj1-Extended-Kalman-Filter/src/fusion_ekf.cpp:107 | dt times 10^6 is the timestamp difference. dt >= 0 exactly when the timestamps do not decrease, and dt = 0 exactly when they are equal. |
| Fusion.TransitionMatrix | Term2-proj1-Extended-Kalman-Filter/src/fusion_ekf.cpp:108-111 | F is 4x4. Its action is stated by TransitionMovesAtConstantVelocity. |
| Fusion.TransitionMovesAtConstantVelocity | Term2-proj1-Extended-Kalman-Filter/src/fusion_ekf.cpp:108-111 | F(dt) times [px, py, vx, vy] is [px + dt vx, py + dt vy, vx, vy]: constant-velocity motion. |
| Fusion.TransitionComposes | Term2-proj1-Extended-Kalman-Filter/src/fusion_ekf.cpp:108-111 | Applying F(b) and then F(a) to a state equals applying F(a + b). F(0) leaves every state unchanged. |
| Fusion.ProcessNoise | Term2-proj1-Extended-Kalman-Filter/src/fusion_ekf.cpp:114-122 | Q is 4x4 and symmetric. It is zero between the x-axis components (px, vx) and the y-axis components (py, vy). |
| Fusion.ProcessNoiseVanishesAtZero | Term2-proj1-Extended-Kalman-Filter/src/fusion_ekf.cpp:114-122 | Q(0) is the 4x4 zero matrix. |
| Fusion.ProcessNoiseFactors | Term2-proj1-Extended-Kalman-Filter/src/fusion_ekf.cpp:114-122 | Q(dt), entry by entry as written, equals the white-noise-acceleration covariance on each axis, noise_ax g_i g_j or noise_ay g_i g_j (both variances 9), with gains g = (dt^2/2, dt^2/2, dt, dt). |
| Fusion.ProcessNoisePositiveSemidefinite | Term2-proj1-Extended-Kalman-Filter/src/fusion_ekf.cpp:114-122 | v' Q(dt) v >= 0 for every dt and every 4-vector v. |
| Fusion.RadarToCartesian | Term2-proj1-Extended-Kalman-Filter/src/fusion_ekf.cpp:71-78 | The radar reading becomes a 4-component state. Its meaning is stated by RadarInitialStateMatchesReading. |
| Fusion.InitialState | Term2-proj1-Extended-Kalman-Filter/src/fusion_ekf.cpp:64-88 | The first measurement yields a 4-component state. Radar: the polar conversion as written. Laser: [z0, z1, 0, 0]. Any other sensor: [1, 1, 1, 1]. |
| Fusion.LaserInitialStateRoundTrip | Term2-proj1-Extended-Kalman-Filter/src/fusion_ekf.cpp:80-88 | A state initialised from a laser reading has zero velocity. H_laser maps it back onto that reading. |
| Fusion.RadarInitialStateMatchesReading | Term2-proj1-Extended-Kalman-Filter/src/fusion_ekf.cpp:67-79 | Where sin^2 + cos^2 = 1 at the bearing, the state from a radar reading lies at the measured range (px^2 + py^2 = rho^2). Its velocity projected on the line of sight gives the measured range rate (px vx + py vy = rho rho_dot). |
| Fusion.RadarInitialStateAddsRangeToVelocity | Term2-proj1-Extended-Kalman-Filter/src/fusion_ekf.cpp:75-78 | With cos 0 = 1 and sin 0 = 0, a first radar reading [5, 0, 0] gives the state [5, 0, 0, 5]: the range enters vy. |
| Fusion.LaserMeasurementSelectsPosition | Term2-proj1-Extended-Kalman-Filter/src/fusion_ekf.cpp:31-33 | H_laser times a state is its position [px, py]. |
| MpcDriver.Find | Term2-proj5-MPC-Control/src/main.cpp:24 | The first index at which the pattern occurs, or None (npos) exactly when it occurs nowhere. |
| MpcDriver.FindFirstOf | Term2-proj5-MPC-Control/src/main.cpp:25 | The first index holding one of the characters, or None exactly when no index does. |
| MpcDriver.RFind | Term2-proj5-MPC-Control/src/main.cpp:26 | The last index at which the pattern occurs, or None exactly when it occurs nowhere. |
| MpcDriver.Substr | Term2-proj5-MPC-Control/src/main.cpp:30 | Characters from pos on, clipped to what is left of the string. |
| MpcDriver.HasData | Term2-proj5-MPC-Control/src/main.cpp:23-33 | A non-empty result means the message has no "null" and does hold "}]", and the result starts with '['. |
| MpcDriver.HasDataEmptyCases | Term2-proj5-MPC-Control/src/main.cpp:23-32 | The result is "" whenever the message holds "null", wherever the brackets are. It is also "" when the message has no '[' or no "}]". |
| MpcDriver.HasDataTakesSubstr | Term2-proj5-MPC-Control/src/main.cpp:27-30 | Without "null", with b1 the first '[' and b2 the last "}]", the result is substr(b1, b2 - b1 + 2) with the length computed in size_t. |
| MpcDriver.PayloadLengthCases | Term2-proj5-MPC-Control/src/main.cpp:30 | The size_t length b2 - b1 + 2 is exact when b1 <= b2 and zero when b2 + 2 = b1. Otherwise it wraps to 2^64 + b2 - b1 + 2. |
| MpcDriver.HasDataSlice | Term2-proj5-MPC-Control/src/main.cpp:29-30 | When the last "}]" starts at or after the first '[', the result is the slice from that '[' through that "}]". It starts with '[' and ends with "}]". |
| MpcDriver.HasDataWrapped | Term2-proj5-MPC-Control/src/main.cpp:30 | When the last "}]" starts before the first '[', the result is "" if the "}]" ends right at the '['. Otherwise it is the whole tail of the message from the '['. |
| MpcDriver.Deg2Rad | Term2-proj5-MPC-Control/src/main.cpp:16-17 | r * 180 = x * pi. |
| MpcDriver.Rad2Deg | Term2-proj5-MPC-Control/src/main.cpp:16-18 | r * pi = x * 180. |
| MpcDriver.AngleConversionsRoundTrip | Term2-proj5-MPC-Control/src/main.cpp:16-18 | rad2deg(deg2rad(x)) = x and deg2rad(rad2deg(x)) = x. deg2rad(180) = pi and rad2deg(pi) = 180. |
| MpcDriver.PolyEval | Term2-proj5-MPC-Control/src/main.cpp:36-42 | The result is the polynomial value: the sum of coeffs[i] * x^i. |
| MpcDriver.PolyAtZero | Term2-proj5-MPC-Control/src/main.cpp:36-42 | At x = 0 a non-empty polynomial evaluates to its constant coefficient, which is how the cross-track error is computed. The empty polynomial is 0. |
| MpcDriver.DesignMatrix | Term2-proj5-MPC-Control/src/main.cpp:50-60 | An |xs| x (order + 1) matrix with entry (j, i) = xs[j]^i. |
| MpcDriver.PowersDot | Term2-proj5-MPC-Control/src/main.cpp:56-60 | A row 1, x, ..., x^n of the design matrix, dotted with coefficients c, is the polynomial c at x. |
| MpcDriver.DesignMatrixEvaluates | Term2-proj5-MPC-Control/src/main.cpp:50-60 | The design matrix times a coefficient vector lists the polynomial's values at the samples, so solving A c = y fits the polynomial to the points. |
| MpcDriver.PolyfitDesignMatrix | Term2-proj5-MPC-Control/src/main.cpp:46-60 | Under polyfit's two asserts (equal lengths, 1 <= order <= n - 1), the array filled by the loops is n x (order + 1) with A(j, i) = x_j^i. |
| MpcDriver.TrajectoryPoints | Term2-proj5-MPC-Control/src/main.cpp:143-151 | The lists start with state[0] and state[1] and have equal length 1 + (n - 2)/2 (1 for an empty solution). Entry k >= 1 of x and y is solution[2k] and solution[2k + 1]. Interleaving them back gives the solution past its first two entries. |

## Left out

- Floating point: `dt`, `Q` and the radar initialisation are computed in `float`, the rest in `double`. All are exact reals here, so rounding is not modelled.
- KalmanFilter's Predict, UpdateLidar and UpdateRadar (kalman_filter.cpp) and Tools::CalculateJacobian (tools.cpp) are not part of this model. Their effect on the estimate is a parameter. Anything they do is not modelled: covariance initialisation, bearing normalisation, handling of a singular Jacobian or innovation covariance, keeping `P` symmetric.
- Fusion.FusionEkf.ProcessMeasurement: on the first call `WellFormed` requires the readings the engine indexes to exist. In the source, a short first reading is an out-of-range Eigen access, not a handled case. On later calls, whatever length the filter routines need is their own requirement, which is not modelled.
- fusion_ekf.cpp never sizes `F_` or `Q_` and never sets `P_`. The model assumes the unseen KalmanFilter code has made `F_` and `Q_` 4x4 by the second measurement, as the comma initialisers at lines 108 and 119 need. If it has not, the source fails there, and this model does not capture that: it assigns the 4x4 matrices and carries on.
- Fusion.KalmanFilter.constructor: kalman_filter.cpp is not part of this model, so the x, P, F, Q, H and R its constructor leaves are a parameter (`FilterFields`), passed on by the FusionEkf constructor. No contract of ProcessMeasurement depends on them.
- The `MeasurementPackage` header is not part of this model. `SensorType.Other` stands for any tag other than LASER and RADAR, which the engine's branches treat as described.
- The 64-bit `long long` timestamp difference is an unbounded integer here, so its overflow is not modelled.
- The console output of the engine and of the driver is not modelled.
- MpcDriver.HasData: requires the message to be shorter than 2^64 characters, which any `std::string` is.
- MpcDriver.Substr: requires `pos` within the string. The `std::out_of_range` throw for a larger `pos` cannot happen here, because `pos` is always a found index.
- MpcDriver.TrajectoryPoints: requires an even solution length. For an odd length the source reads one element past the end.
- MpcDriver.PolyEval: `pow(x, i)` is modelled at whole exponents by `Pow`.
- The Householder QR solve of `polyfit`, `mpc.Solve`, the waypoint transformation to the car frame, the latency-compensated state and the steering normalisation are not modelled: they are library calls or float formulas with nothing to state beyond themselves.
- The websocket server, JSON parsing and serialisation, and the 100 ms sleep are I/O.
- The Keras model-building script of the behavioural-cloning project only calls a deep-learning library. It has no logic of its own to model.
