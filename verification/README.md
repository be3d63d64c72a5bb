# Roller-coaster geometry and viewer state, in Dafny

This project models the geometric core of a small OpenGL roller-coaster
viewer written in Python:

- **the track** (`curve.py`): a closed Catmull-Rom spline through a list of
  control points, evaluated at a parameter `t` that wraps modulo 1, with a
  finite-difference tangent and curvature and a sampled length;
- **the cart** (`cart.py`): vector normalisation with its `(0, 0, 1)`
  fallback, the orientation matrix built from a forward and an up direction,
  and the cart's bounding box;
- **the camera** (`camera.py`): the third-person chase view and the
  first-person cockpit view handed to a look-at transform, the debugging
  record, and the mode helpers;
- **the basic viewer** (`main.py`): its animation state, keyboard handler,
  per-frame update, cart direction and headless demo run;
- **the enhanced viewer** (`main_ultra.py`): five camera modes whose targets
  the camera approaches by blending, its keyboard handler (which also tunes
  the blending constant) and per-frame update.

Numbers are Dafny `real`s. Vectors are the immutable `Vectors.Vec3`.
A few things the program gets from its platform are parameters:

- The square root behind `np.linalg.norm` is a parameter `sqrt`, required to
  be a square root on the non-negative reals (`Vectors.IsSqrt`).
- `math.cos`, `math.sin` and `math.pi` form the `UltraLoop.Trig` record. The
  only fact assumed about them is cos² + sin² = 1.
- The wall clock (`time.time()`) is the `now` argument of a frame.

Python's `t % 1.0` is `Vectors.Frac`, `int(x)` is `Vectors.Trunc` (truncation
toward zero), and `min`/`max` are `Vectors.MinReal`/`Vectors.MaxReal`.
The module-level globals of the two viewers become `State` records. A
handler or frame returns the next state. Quitting (`sys.exit`) is the `Quit`
case of `Wrappers.Step`.

Modules follow the source files:

- `Vectors` (vectors.dfy): the shared vector algebra;
- `Curve` (curve.dfy);
- `Cart` (cart.dfy);
- `Camera` (camera.dfy);
- `Clock` (clock.dfy): frame time and the advance of `t`, shared by both
  viewers;
- `Keys` (keys.dfy): decoding and lower-casing a key;
- `BasicLoop` (basic_loop.dfy): `main.py`;
- `UltraLoop` (ultra_loop.dfy): `main_ultra.py`;
- `Wrappers` (wrappers.dfy): `Option` and `Step`.

## Model

| member | source | states |
|---|---|---|
| Vectors.Norm | Downloads/P1_Python/Project-2/cart.py:21-22 | the length is non-negative, its square is v·v, and it is zero exactly for the zero vector |
| Vectors.Frac | Downloads/P1_Python/Project-2/curve.py:97 | `t % 1.0` lies in [0, 1) and differs from t by a whole number |
| Vectors.FracAdd | Downloads/P1_Python/Project-2/main.py:245 | wrapping before adding the next step gives the same parameter as wrapping after |
| Vectors.Trunc | Downloads/P1_Python/Project-2/curve.py:98 | `int(x)` truncates toward zero: within one below x for x ≥ 0, within one above for x < 0 |
| Vectors.MinReal | Downloads/P1_Python/Project-2/main.py:288 | `min` is a lower bound of both arguments and is one of them |
| Vectors.MaxReal | Downloads/P1_Python/Project-2/main.py:291 | `max` is an upper bound of both arguments and is one of them |
| Vectors.CrossPerpendicular | Downloads/P1_Python/Project-2/cart.py:25-37 | the cross product is perpendicular to both factors |
| Vectors.Lagrange | Downloads/P1_Python/Project-2/cart.py:54 | Lagrange's identity \|a×b\|² = \|a\|²\|b\|² − (a·b)², which makes the cross of perpendicular unit vectors a unit vector |
| Vectors.TripleProduct | Downloads/P1_Python/Project-2/cart.py:56 | (a×b)×c = b(a·c) − a(b·c), the identity behind the re-orthogonalised up |
| Vectors.UnitDirection | Downloads/P1_Python/Project-2/cart.py:23 | v / \|v\| is a unit vector parallel to v with positive projection on it |
| Cart.Normalize | Downloads/P1_Python/Project-2/cart.py:11-23 | the result is a unit vector, and the zero vector gives the fallback (0, 0, 1) |
| Cart.NormalizeDirection | Downloads/P1_Python/Project-2/cart.py:22-23 | a non-zero vector is sent to a unit vector parallel to it whose projection on it is its length |
| Cart.NormalizeUnit | Downloads/P1_Python/Project-2/cart.py:11-23 | a unit vector is left unchanged |
| Cart.NormalizeIdempotent | Downloads/P1_Python/Project-2/cart.py:11-23 | normalising twice equals normalising once |
| Cart.NormalizeScaleInvariant | Downloads/P1_Python/Project-2/cart.py:11-23 | a positive scale factor does not change the normalised vector |
| Cart.NormalizeKeepsOrthogonal | Downloads/P1_Python/Project-2/cart.py:11-23 | normalising a non-zero vector keeps it perpendicular to what it was perpendicular to |
| Cart.NormalizeNeg | Downloads/P1_Python/Project-2/cart.py:11-23 | normalising a non-zero vector commutes with negation |
| Cart.PerpendicularUnitsCross | Downloads/P1_Python/Project-2/cart.py:54-56 | the cross product of two perpendicular unit vectors is a unit vector |
| Cart.Reorthogonalized | Downloads/P1_Python/Project-2/cart.py:53-56 | for a unit forward not parallel to the up hint, right, rebuilt up and forward are pairwise perpendicular, and the rebuilt up is right × forward without further scaling |
| Cart.ReorthogonalizeKeepsPerpendicular | Downloads/P1_Python/Project-2/camera.py:67-69 | a unit up already perpendicular to the unit forward is rebuilt as itself |
| Cart.CrossBack | Downloads/P1_Python/Project-2/camera.py:68-69 | (f × u) × f = u for a unit f perpendicular to u |
| Cart.ReorthogonalizedProper | Downloads/P1_Python/Project-2/cart.py:53-56 | the construction with the cross products in the other order also gives pairwise perpendicular vectors, with up = forward × right |
| Cart.OrientationFrame | Downloads/P1_Python/Project-2/cart.py:50-56 | forward is the normalised forward; parallel forward and up give the fallback right vector; otherwise the triad is orthonormal |
| Cart.FrameMatrix | Downloads/P1_Python/Project-2/cart.py:59-62 | a 4x4 matrix whose first three rows carry the triad and whose last row and column are those of the identity |
| Cart.RotationMatrixFromVectors | Downloads/P1_Python/Project-2/cart.py:39-64 | rows right, rebuilt up and normalised forward in a 4x4 homogeneous matrix |
| Cart.LeftHandedDeterminant | Downloads/P1_Python/Project-2/cart.py:54-56 | the rows right, right × forward, forward of perpendicular unit vectors have determinant −1 |
| Cart.RightHandedDeterminant | Downloads/P1_Python/Project-2/cart.py:54-56 | the rows right, forward × right, forward of perpendicular unit vectors have determinant +1 |
| Cart.RotationMatrixIsReflection | Downloads/P1_Python/Project-2/cart.py:53-62 | for non-parallel forward and up, the matrix as written has orthonormal rows and determinant −1: a reflection, not a rotation |
| Cart.ReflectionExample | Downloads/P1_Python/Project-2/cart.py:39-64 | forward (1,0,0) and up (0,1,0) give the permutation matrix with rows (0,0,1), (0,1,0), (1,0,0), of determinant −1 |
| Cart.ProperFrame | Downloads/P1_Python/Project-2/cart.py:50-56 | the corrected triad: forward is the normalised forward, parallel inputs give the fallback right, otherwise it is orthonormal with up = forward × right |
| Cart.ProperRotationMatrix | Downloads/P1_Python/Project-2/cart.py:39-64 | the corrected matrix keeps the forward row and the homogeneous row and column, and has determinant +1 for non-parallel inputs |
| Cart.ProperFrameFlipsRight | Downloads/P1_Python/Project-2/cart.py:54-56 | the correction only reverses the right vector; up and forward are as written |
| Cart.SwappedCrossDirection | Downloads/P1_Python/Project-2/cart.py:54 | swapping the factors of a non-zero cross product reverses its normalised direction |
| Cart.GetCartBounds | Downloads/P1_Python/Project-2/cart.py:223-241 | the box is centred on the cart with side `size` on every axis; a non-negative size gives min ≤ center ≤ max, a negative one an inverted box |
| Curve.CatmullRomPoint | Downloads/P1_Python/Project-2/curve.py:31-60 | the cubic passes through p1 at t = 0 and through p2 at t = 1 |
| Curve.SegmentOf | Downloads/P1_Python/Project-2/curve.py:94-102 | the index lies in range and the local parameter in [0, 1), and together they give back the wrapped, scaled parameter, so the clamp never changes anything |
| Curve.SegmentOfInverse | Downloads/P1_Python/Project-2/curve.py:94-102 | a parameter built from a segment index and a local parameter in [0, 1) is split back into exactly those two |
| Curve.SegmentOfFrac | Downloads/P1_Python/Project-2/curve.py:97-99 | parameters with the same fractional part fall in the same segment at the same local parameter |
| Curve.Extended | Downloads/P1_Python/Project-2/curve.py:84-90 | the extended list has three more points and point j is control point j mod n |
| Curve.GetPoint | Downloads/P1_Python/Project-2/curve.py:62-112 | with fewer than four control points every parameter gives the first point |
| Curve.GetPointInSegment | Downloads/P1_Python/Project-2/curve.py:96-112 | the parameter (k + u) / n is evaluated on segment k's cubic at local parameter u |
| Curve.GetPointAtKnot | Downloads/P1_Python/Project-2/curve.py:62-112 | the track passes through the control points: parameter k / n gives control point k + 1 |
| Curve.SegmentsJoin | Downloads/P1_Python/Project-2/curve.py:84-112 | the end of each segment is the start of the next, and the end of the last is the point at t = 0, so the loop is closed |
| Curve.GetPointFrac | Downloads/P1_Python/Project-2/curve.py:97 | parameters with the same fractional part give the same point |
| Curve.GetPointPeriodic | Downloads/P1_Python/Project-2/curve.py:62-112 | the track has period 1 in t, and wrapping t first changes nothing |
| Curve.GetTangent | Downloads/P1_Python/Project-2/curve.py:114-136 | the tangent is a unit vector, and the x axis when the two samples coincide |
| Curve.TangentDirection | Downloads/P1_Python/Project-2/curve.py:126-136 | when the samples differ, the tangent is parallel to their difference and points from the first to the second |
| Curve.DifferencesVanish | Downloads/P1_Python/Project-2/curve.py:155-159 | the first difference is zero exactly when the first two samples coincide, and the cross of the two differences is zero exactly when the three samples are collinear |
| Curve.CurvatureOf | Downloads/P1_Python/Project-2/curve.py:161-168 | the curvature is non-negative, and zero exactly for a zero first derivative or parallel derivatives |
| Curve.GetCurvature | Downloads/P1_Python/Project-2/curve.py:138-168 | the curvature is non-negative, and zero exactly when the first two samples coincide or the three samples lie on a line |
| Curve.Chord | Downloads/P1_Python/Project-2/curve.py:187 | a chord length is non-negative |
| Curve.ChordSum | Downloads/P1_Python/Project-2/curve.py:184-188 | the sum of the first k chords is non-negative and at least as long as its last chord |
| Curve.SamplesClose | Downloads/P1_Python/Project-2/curve.py:184-186 | the last sample is the first one again, so the chords go once round the closed track |
| Curve.ChordStep | Downloads/P1_Python/Project-2/curve.py:185-188 | one pass of the loop adds exactly the next chord and moves to the next sample |
| Curve.GetTotalLength | Downloads/P1_Python/Project-2/curve.py:170-190 | no samples give length 0; otherwise the result is the sum of all chords between consecutive samples |
| Camera.UpHint | Downloads/P1_Python/Project-2/camera.py:61-65 | no cart up gives the world up; a given one is normalised to a unit vector |
| Camera.CameraBasis | Downloads/P1_Python/Project-2/camera.py:58-69 | forward is the normalised cart direction, and forward and the rebuilt up are unit vectors |
| Camera.BasisPerpendicular | Downloads/P1_Python/Project-2/camera.py:67-69 | when the cart direction and the up hint are not parallel, the rebuilt up is perpendicular to forward |
| Camera.ChaseGeometry | Downloads/P1_Python/Project-2/camera.py:76-79 | the chase eye is `follow` behind, `height` above and not to the side of the cart (its components along forward, up and forward × up), and the look-at point is `lookahead` ahead on the forward line |
| Camera.CockpitGeometry | Downloads/P1_Python/Project-2/camera.py:83-86 | the cockpit eye is `driver` above the cart and level with it along forward and sideways; the look-at point is `lookahead` ahead on the forward line |
| Camera.ApplyCamera | Downloads/P1_Python/Project-2/camera.py:38-98 | the up vector handed to the look-at transform is always a unit vector |
| Camera.UnknownModeIsThirdPerson | Downloads/P1_Python/Project-2/camera.py:88-91 | every mode other than 0 and 1 gives exactly the third-person view |
| Camera.DampingIgnored | Downloads/P1_Python/Project-2/camera.py:38-53 | the damping argument has no effect on the view |
| Camera.ChaseCameraGeometry | Downloads/P1_Python/Project-2/camera.py:67-91 | for non-parallel direction and hint, every mode but 1 places the eye `follow` behind, `height` above and not to the side of the cart with up perpendicular to forward, looking `lookahead` ahead |
| Camera.CockpitCameraGeometry | Downloads/P1_Python/Project-2/camera.py:67-86 | for non-parallel direction and hint, mode 1 places the eye `driver` above the cart, level with it along forward and sideways, with up perpendicular to forward, looking `lookahead` ahead |
| Camera.ApplyCameraSmooth | Downloads/P1_Python/Project-2/camera.py:100-114 | the smooth camera hands on a unit up vector |
| Camera.SmoothIsPlain | Downloads/P1_Python/Project-2/camera.py:100-114 | the smooth camera is the plain camera whatever the smoothness and damping |
| Camera.GetCameraInfo | Downloads/P1_Python/Project-2/camera.py:116-150 | the record carries the given mode, the normalised forward and the un-rebuilt up hint, with unit forward and right |
| Camera.PerpendicularUpKept | Downloads/P1_Python/Project-2/camera.py:61-69 | an up hint already perpendicular to the cart direction survives the re-orthogonalisation unchanged |
| Camera.InfoMatchesCamera | Downloads/P1_Python/Project-2/camera.py:116-150 | with a perpendicular up hint, the debugging record in modes 0 and 1 is the view `apply_camera` produces with its default offsets |
| Camera.ToggleCameraMode | Downloads/P1_Python/Project-2/camera.py:152-162 | toggling swaps modes 0 and 1 |
| Camera.GetCameraDescription | Downloads/P1_Python/Project-2/camera.py:164-177 | the third-person text exactly for mode 0, the first-person text for every other mode |
| Clock.FrameDelta | Downloads/P1_Python/Project-2/main.py:235-241 | the first frame counts as 1/60; afterwards the delta added to the previous time gives the current time |
| Clock.Deltas | Downloads/P1_Python/Project-2/main.py:235-241 | a run of frames yields one delta per frame: the nominal 1/60 or the time since the previous frame for the first, and the time between consecutive frames for every later one |
| Clock.DeltasTelescope | Downloads/P1_Python/Project-2/main.py:235-241 | the deltas of consecutive frames add up to the time from the previous frame to the last: no time is lost or counted twice |
| Clock.DeltasFromStart | Downloads/P1_Python/Project-2/main_ultra.py:621-627 | from start-up, the deltas add up to one nominal frame plus the time between the first and last frames |
| Clock.TravelSum | Downloads/P1_Python/Project-2/main.py:243-245 | over a run of frames a paused cart stays put, and an unpaused one ends where a single frame as long as all the deltas together would put it |
| Clock.Advance | Downloads/P1_Python/Project-2/main.py:243-245 | paused, t does not move; otherwise the new t lies in [0, 1) and differs from t + speed·dt by a whole number |
| Clock.AdvanceComposes | Downloads/P1_Python/Project-2/main_ultra.py:630-631 | two unpaused frames move the cart as far as one frame of their total length |
| Keys.Lower | Downloads/P1_Python/Project-2/main.py:285 | the result is never an upper-case letter, and it is the key itself or the matching lower-case letter |
| BasicLoop.InitialValid | Downloads/P1_Python/Project-2/main.py:26-37 | the start-up state has t on the track, the speed within its limits and a known camera mode |
| BasicLoop.KeyboardHandler | Downloads/P1_Python/Project-2/main.py:281-307 | exactly escape and q quit; a key press never moves the cart, keeps the state valid, and unhandled keys change nothing |
| BasicLoop.ToggleKeyTwice | Downloads/P1_Python/Project-2/main.py:293-304 | space, c, i and t each flip exactly one field, and pressing the same key twice restores the state |
| BasicLoop.SpeedKeys | Downloads/P1_Python/Project-2/main.py:287-292 | w never lowers and s never raises the speed, only the speed changes, each undoes the other away from the limits, and at the limits the speed saturates |
| BasicLoop.GetCartForward | Downloads/P1_Python/Project-2/main.py:75-96 | the cart direction is a unit vector and equals the track tangent with the same step |
| BasicLoop.Display | Downloads/P1_Python/Project-2/main.py:228-260 | a frame records its time, advances t by speed × frame delta modulo 1 unless paused, changes nothing else, keeps the state valid, places the cart at the new t with the direction of `get_cart_forward`, and applies `apply_camera` with follow 4, height 2, lookahead 1.5 and driver 0.3; cart direction and camera up are unit vectors |
| BasicLoop.FramesTravel | Downloads/P1_Python/Project-2/main.py:235-245 | over a run of frames t follows the clock's frame-by-frame travel |
| BasicLoop.FramesKeep | Downloads/P1_Python/Project-2/main.py:235-245 | a run of frames changes neither speed, pause, camera mode nor the display switches, and leaves the last frame's time recorded |
| BasicLoop.FramesTotal | Downloads/P1_Python/Project-2/main.py:235-245 | after a run of frames a paused cart has not moved and an unpaused one is where one frame as long as all the deltas together puts it |
| BasicLoop.DisplayChaseView | Downloads/P1_Python/Project-2/main.py:248-260 | on level track the third-person frame has the world up, the eye 4 behind, 2 above and not to the side of the cart, and looks 1.5 ahead along the track |
| BasicLoop.DemoMode | Downloads/P1_Python/Project-2/main.py:313-347 | the demo loop computes the frame-by-frame reference run `DemoRun(50)`: t ends at 0.0872 and the speed at 0.13, raised five times by 0.01 and within the maximum |
| BasicLoop.DemoRunClosed | Downloads/P1_Python/Project-2/main.py:334-342 | within the 50 demo frames the speed never reaches the maximum and t never wraps, so the speed of frame i is 0.08 + 0.01·⌈i/10⌉ and t is 0.016 × the distance travelled |
| BasicLoop.DemoDistance | Downloads/P1_Python/Project-2/main.py:334-342 | the demo travels 0.08, then 10 frames each at 0.09 to 0.12 and 9 at 0.13: 5.45 speed units in all |
| UltraLoop.InitialValid | Downloads/P1_Python/Project-2/main_ultra.py:34-54 | the start-up state is valid and its camera has the world up |
| UltraLoop.BlendGap | Downloads/P1_Python/Project-2/main_ultra.py:162-164 | one blend step scales the remaining gap to the target by (1 − f) |
| UltraLoop.BlendEnds | Downloads/P1_Python/Project-2/main_ultra.py:162-164 | factor 1 lands on the target, and a point already at its target stays there |
| UltraLoop.BlendNeverFarther | Downloads/P1_Python/Project-2/main_ultra.py:162-164 | with a factor in [0, 1] a step never moves away from the target |
| UltraLoop.BlendStepsGap | Downloads/P1_Python/Project-2/main_ultra.py:162-164 | after n steps towards a fixed target the gap is the initial gap scaled by (1 − f)^n |
| UltraLoop.BlendStepsApproach | Downloads/P1_Python/Project-2/main_ultra.py:162-164 | repeated steps with a factor in [0, 1] never increase the distance to a fixed target |
| UltraLoop.Interpolate | Downloads/P1_Python/Project-2/main_ultra.py:161-167 | the interpolated up is a unit vector, and the fallback (0, 0, 1) when the blended up cancels out |
| UltraLoop.InterpolateEnds | Downloads/P1_Python/Project-2/main_ultra.py:161-167 | factor 1 puts the camera on its goal, and a camera at its goal with a unit up stays there |
| UltraLoop.InterpolateKeepsWorldUp | Downloads/P1_Python/Project-2/main_ultra.py:164-167 | a camera with the world up steered towards targets with the world up keeps the world up |
| UltraLoop.SmoothFactor | Downloads/P1_Python/Project-2/main_ultra.py:159 | as written, the factor lies in (0, 1] for positive k, is exactly 1 for a non-positive frame time or one no longer than k, and is k / dt, below 1, for a longer frame |
| UltraLoop.SmoothFactorFallsWithFrameTime | Downloads/P1_Python/Project-2/main_ultra.py:159 | as written, a longer frame gives a smaller factor |
| UltraLoop.SmoothingDisabledAsWritten | Downloads/P1_Python/Project-2/main_ultra.py:54 | at 60 frames per second the start-up constant, or any constant of at least one frame time, gives factor 1 and the camera jumps onto its goal |
| UltraLoop.FrameScaledFactor | Downloads/P1_Python/Project-2/main_ultra.py:159 | the corrected factor lies in (0, 1] for positive k and frame time, and is 1 for a non-positive frame time |
| UltraLoop.FrameScaledAtReference | Downloads/P1_Python/Project-2/main_ultra.py:54 | the corrected factor equals k at 60 frames per second |
| UltraLoop.FrameScaledGrowsWithFrameTime | Downloads/P1_Python/Project-2/main_ultra.py:159 | the corrected factor grows with the frame time |
| UltraLoop.CorrectedSmoothingLags | Downloads/P1_Python/Project-2/main_ultra.py:54 | with the corrected factor at 60 frames per second, a step leaves (1 − k) of the gap |
| UltraLoop.SmoothCameraInterpolation | Downloads/P1_Python/Project-2/main_ultra.py:154-167 | the camera up stays a unit vector; a non-positive frame time or one no longer than k puts the camera on a goal with a unit up; a longer frame leaves 1 − k/dt of the position and look-at gaps |
| UltraLoop.SmoothCameraInterpolationCorrected | Downloads/P1_Python/Project-2/main_ultra.py:154-167 | with the corrected factor the camera up stays a unit vector, a non-positive frame time lands on the goal, and at 60 frames per second a step leaves 1 − k of the position and look-at gaps |
| UltraLoop.UltraTarget | Downloads/P1_Python/Project-2/main_ultra.py:178-244 | every mode's target keeps the world up, and unknown modes sit at (0, 5, 10) from the cart looking at it |
| UltraLoop.ApplyUltraCamera | Downloads/P1_Python/Project-2/main_ultra.py:169-247 | the target handed to the interpolation always has the world up |
| UltraLoop.FollowTargetIsChase | Downloads/P1_Python/Project-2/main_ultra.py:178-186 | on level track the follow target is the basic chase view with follow 6, height 3 and lookahead 2.5 |
| UltraLoop.CockpitTargetIsCockpit | Downloads/P1_Python/Project-2/main_ultra.py:188-191 | on level track the first-person target is the basic cockpit view with driver height 0.5 and lookahead 3 |
| UltraLoop.LevelBasis | Downloads/P1_Python/Project-2/main_ultra.py:173-176 | on level track the camera basis is the cart direction and the world up |
| UltraLoop.CinematicTarget | Downloads/P1_Python/Project-2/main_ultra.py:193-207 | the cinematic camera circles the cart at horizontal radius 8, between 2 and 6 above it, looking one unit ahead |
| UltraLoop.OrbitTarget | Downloads/P1_Python/Project-2/main_ultra.py:209-223 | the orbit camera circles the cart at horizontal radius 12, 6 above it, looking at the cart |
| UltraLoop.FlybyTarget | Downloads/P1_Python/Project-2/main_ultra.py:225-239 | the flyby camera circles the cart at horizontal radius 15, between 5 and 11 above it, looking two units ahead |
| UltraLoop.SineBounds | Downloads/P1_Python/Project-2/main_ultra.py:203 | from cos² + sin² = 1, the sine lies in [−1, 1] |
| UltraLoop.CameraName | Downloads/P1_Python/Project-2/main_ultra.py:680-681 | every mode from −5 to 4 has one of the five names; the name is "Follow" exactly for modes 0 and −5, and mode −1 is "Flyby" |
| UltraLoop.CameraNameWraps | Downloads/P1_Python/Project-2/main_ultra.py:680-681 | a negative mode names the same camera as the mode five above it |
| UltraLoop.KeyboardUltra | Downloads/P1_Python/Project-2/main_ultra.py:700-760 | exactly escape and q quit; a key press never moves the cart or the camera, keeps the state valid, and unhandled keys change nothing |
| UltraLoop.NextMode | Downloads/P1_Python/Project-2/main_ultra.py:716-717 | c always gives a known mode: the next one, or 0 after the last |
| UltraLoop.SelectedMode | Downloads/P1_Python/Project-2/main_ultra.py:719-733 | digit d selects the known mode d − 1 |
| UltraLoop.SettingsKey | Downloads/P1_Python/Project-2/main_ultra.py:734-760 | the settings keys leave t, speed, pause, mode and camera alone, keep the blending constant within its limits, and exactly escape and q quit |
| UltraLoop.DigitKeysSelectMode | Downloads/P1_Python/Project-2/main_ultra.py:719-733 | keys 1 to 5 select modes 0 to 4 whatever the current mode, and change nothing else |
| UltraLoop.PressKeysValid | Downloads/P1_Python/Project-2/main_ultra.py:700-760 | any run of key presses from a valid state quits or leaves a valid state with the cart and camera where they were |
| UltraLoop.CycleKey | Downloads/P1_Python/Project-2/main_ultra.py:716-717 | c moves to the next mode and changes nothing else |
| UltraLoop.CycleReturns | Downloads/P1_Python/Project-2/main_ultra.py:716-717 | pressing c five times returns to the starting state |
| UltraLoop.ToggleTwice | Downloads/P1_Python/Project-2/main_ultra.py:713-751 | pressing space or a display switch twice restores the state |
| UltraLoop.StepKeysUndo | Downloads/P1_Python/Project-2/main_ultra.py:752-757 | away from the upper limit, - undoes + and = |
| UltraLoop.SpeedKeysUndo | Downloads/P1_Python/Project-2/main_ultra.py:707-712 | away from the maximum, s undoes w |
| UltraLoop.GetCartForwardUltra | Downloads/P1_Python/Project-2/main_ultra.py:588-599 | the cart direction is a unit vector and equals the track tangent with step 0.0005 |
| UltraLoop.DisplayUltra | Downloads/P1_Python/Project-2/main_ultra.py:614-638 | a frame records its time, advances t by speed × frame delta modulo 1 unless paused, changes nothing but t, the time and the camera, keeps the state valid, places the cart at the new t with the direction of `get_cart_forward_ultra`, and moves the camera by one as-written smoothing step towards the current mode's target; the camera up stays a unit vector |
| UltraLoop.FrameLandsOnTarget | Downloads/P1_Python/Project-2/main_ultra.py:614-638 | as written, every frame no longer than the blending constant, the first one included, puts the camera exactly on the current mode's target |
| UltraLoop.FramesUltraTravel | Downloads/P1_Python/Project-2/main_ultra.py:621-631 | over a run of frames t follows the clock's frame-by-frame travel, whatever the camera does |
| UltraLoop.DisplayKeepsWorldUp | Downloads/P1_Python/Project-2/main_ultra.py:614-638 | the camera never rolls: a camera with the world up keeps it through every frame |

## Left out

- Drawing is not modelled: every OpenGL, GLU and GLUT call, `gluLookAt` itself, the `draw_*` functions, lighting, fog, `reshape_window` and the window set-up. The model stops at the vectors and matrices handed to these calls.
- The on-screen text and `print`/`debug_print` output are not modelled. `camera_names` is kept as `UltraLoop.CameraName`.
- `sys.exit` is the `Quit` step. `time.time()` is the `now` argument of a frame.
- The cart is drawn by `draw_premium_cart` in `main_ultra.py`, which builds its own matrix. That function is drawing code and is not part of this model.
- IEEE floating point is not modelled. Arithmetic is exact on reals, so rounding, overflow and the float test `length == 0` for tiny lengths are out of scope.
- `np.linalg.norm` is modelled through the `sqrt` parameter, and `math.cos`, `math.sin` and `math.pi` through the `Trig` parameter.
- Key decoding: a key is one character. `bytes.decode('utf-8')` and lower-casing beyond ASCII are not modelled.
- The control-point table in `curve.py` is data, not logic. Every track operation takes the control list as an argument.
- Curve.GetPoint: an empty control list makes the source raise `IndexError`; the model requires a non-empty list. The same precondition is on every member that samples the track.
- Curve.GetCurvature: a step `delta_t` of 0 makes the source divide by zero; the model requires a non-zero step.
- Curve.GetPoint: the ensures speaks only of short lists. The spline case is stated by `GetPointInSegment`, `GetPointAtKnot`, `SegmentsJoin` and `GetPointPeriodic`.
- Cart.OrientationFrame: when forward and up are parallel, only the fallback right vector is stated. The rebuilt up of that case is not characterised.
- Camera.ChaseCameraGeometry and Camera.CockpitCameraGeometry: stated only when the cart direction is not parallel to the up hint. In the parallel case the basis rests on the fallback vector and is not characterised.
- Camera.GetCameraInfo: modes other than 0 and 1 get different eyes from `get_camera_info` (first-person) and `apply_camera` (third-person). The record is related to the camera only in modes 0 and 1.
- UltraLoop.ApplyUltraCamera: `cart_right` is computed but never used, so it is not modelled.
- UltraLoop.CameraName: a mode of 5 or more, or below −5, makes the source raise `IndexError`; the model requires a mode from −5 to 4. Modes −5 to −1 index from the end of the list, as Python does. The keyboard only ever produces modes 0 to 4, by `UltraLoop.KeyboardUltra`.
- BasicLoop.DemoMode: the demo also computes the cart position, its direction and the camera record each frame, but only prints them. The model returns the final t and speed.
- BasicLoop.KeyboardHandler: 'c' computes `1 - camera_mode` inline, which is `Camera.ToggleCameraMode`.

## Findings

| source | as written | input that shows it | evidently intended | confidence | as-written member | corrected member |
|---|---|---|---|---|---|---|
| Downloads/P1_Python/Project-2/cart.py:54-62 | right = forward × up, up = right × forward, rows (right, up, forward): the rows have determinant −1, a reflection. `main.py` enables back-face culling at line 48, so the mirrored cart shows its inside | forward (1, 0, 0), up (0, 1, 0) give rows (0,0,1), (0,1,0), (1,0,0), determinant −1 | a rotation, determinant +1: right = up × forward, up = forward × right | high; not executed | Cart.RotationMatrixIsReflection | Cart.ProperRotationMatrix |
| Downloads/P1_Python/Project-2/main_ultra.py:159 | `min(camera_smooth_factor / dt, 1.0)`: the factor is 1 for every frame no longer than the constant, and it falls as frames get longer | dt = 1/60 with the start-up constant 0.15 gives 0.15 · 60 = 9, so the factor is 1 and the camera jumps onto its target every frame | a per-frame fraction that is the constant at 60 frames per second and grows with the frame time: `min(k · dt · 60, 1.0)` | medium; not executed | UltraLoop.SmoothingDisabledAsWritten | UltraLoop.SmoothCameraInterpolationCorrected |

The frame model follows the code as written: `UltraLoop.DisplayUltra` steps
the camera with `UltraLoop.SmoothCameraInterpolation` and the as-written
factor, and `UltraLoop.FrameLandsOnTarget` shows the consequence frame by
frame. The corrected step, `UltraLoop.SmoothCameraInterpolationCorrected`,
is stated beside it and is not used by the frame model.
