/** The enhanced viewer's state machine: five camera modes whose targets
    the camera approaches by blending, a keyboard handler that also tunes
    the blending, and the per-frame update. */
module UltraLoop {
  import opened Wrappers
  import opened Vectors
  import opened Cart
  import opened Curve
  import opened Camera
  import opened Clock
  import opened Keys

  const DefaultSpeed: real := 0.05
  const MaxSpeed: real := 0.3
  const MinSpeed: real := 0.0
  const SpeedStep: real := 0.015

  /** The blending constant k and the limits the '+'/'-' keys keep it in. */
  const DefaultSmoothFactor: real := 0.15
  const MinSmoothFactor: real := 0.01
  const MaxSmoothFactor: real := 1.0
  const SmoothStep: real := 0.05

  const ModeCount: int := 5
  const CameraNames: seq<string> := ["Follow", "First-Person", "Cinematic", "Orbit", "Flyby"]

  /** The step used for the cart's finite-difference direction. */
  const ForwardDelta: real := 0.0005

  /** A camera placement: where it is, what it looks at, which way is up.
      The same record holds the per-mode targets. */
  datatype CameraState = CameraState(position: Vec3, target: Vec3, up: Vec3)

  datatype State = State(t: real, speed: real, paused: bool, lastTime: Option<real>, cameraMode: int,
                         showTrack: bool, showCartInfo: bool, showEnvironment: bool,
                         fogEnabled: bool, lightingEnhanced: bool,
                         camera: CameraState, smoothFactor: real)

  const Initial: State := State(0.0, DefaultSpeed, false, None, 0, true, true, true, true, true,
                                CameraState(Vec3(0.0, 5.0, 10.0), Zero, WorldUp), DefaultSmoothFactor)

  /** What the program keeps true: t on the track, speed and blending
      constant within their limits and a known camera mode. */
  predicate Valid(s: State) {
    0.0 <= s.t < 1.0 && MinSpeed <= s.speed <= MaxSpeed
    && 0 <= s.cameraMode < ModeCount
    && MinSmoothFactor <= s.smoothFactor <= MaxSmoothFactor
  }

  lemma InitialValid()
    ensures Valid(Initial) && Initial.camera.up == WorldUp
  {
  }

  // ---------------------------------------------------------------------
  // Blending

  /** `start + (target - start) * factor`. */
  function Blend(start: Vec3, target: Vec3, f: real): Vec3 {
    Add(start, Scale(f, Sub(target, start)))
  }

  /** One blend step scales the remaining gap to the target by (1 - f). */
  lemma BlendGap(start: Vec3, target: Vec3, f: real)
    ensures Sub(Blend(start, target, f), target) == Scale(1.0 - f, Sub(start, target))
  {
    var lhs := Sub(Blend(start, target, f), target);
    var rhs := Scale(1.0 - f, Sub(start, target));
    BlendGapScalar(start.x, target.x, f, lhs.x, rhs.x);
    BlendGapScalar(start.y, target.y, f, lhs.y, rhs.y);
    BlendGapScalar(start.z, target.z, f, lhs.z, rhs.z);
  }

  lemma BlendGapScalar(o: real, g: real, f: real, lhs: real, rhs: real)
    requires lhs == o + f * (g - o) - g && rhs == (1.0 - f) * (o - g)
    ensures lhs == rhs
  {
  }

  /** A factor of 1 lands exactly on the target; a point already at its
      target stays there whatever the factor. */
  lemma BlendEnds(start: Vec3, target: Vec3, f: real)
    ensures Blend(start, target, 1.0) == target
    ensures Blend(target, target, f) == target
  {
    BlendGap(start, target, 1.0);
    assert Scale(0.0, Sub(start, target)) == Zero;
  }

  /** With a factor in [0, 1] a step never moves away from the target. */
  lemma BlendNeverFarther(start: Vec3, target: Vec3, f: real)
    requires 0.0 <= f <= 1.0
    ensures var g := Sub(Blend(start, target, f), target);
      Dot(g, g) <= Dot(Sub(start, target), Sub(start, target))
  {
    var g0 := Sub(start, target);
    var c := 1.0 - f;
    BlendGap(start, target, f);
    DotScaledSelf(c, g0);
    DotSelf(g0);
    ShrinkBy(c, Dot(g0, g0));
  }

  lemma DotScaledSelf(c: real, v: Vec3)
    ensures Dot(Scale(c, v), Scale(c, v)) == c * (c * Dot(v, v))
  {
    DotScale(c, v, Scale(c, v));
    DotSymmetric(v, Scale(c, v));
    DotScale(c, v, v);
  }

  lemma ShrinkBy(c: real, d: real)
    requires 0.0 <= c <= 1.0 && 0.0 <= d
    ensures c * (c * d) <= d
  {
    assert c * d <= d;
    assert c * (c * d) <= c * d;
  }

  /** `n` blend steps towards a fixed target with a fixed factor. */
  function BlendSteps(start: Vec3, target: Vec3, f: real, n: nat): Vec3 {
    if n == 0 then start else Blend(BlendSteps(start, target, f, n - 1), target, f)
  }

  function Pow(x: real, n: nat): real {
    if n == 0 then 1.0 else x * Pow(x, n - 1)
  }

  /** After n steps the gap is the initial gap scaled by (1 - f)^n. */
  lemma {:induction false} BlendStepsGap(start: Vec3, target: Vec3, f: real, n: nat)
    ensures Sub(BlendSteps(start, target, f, n), target) == Scale(Pow(1.0 - f, n), Sub(start, target))
  {
    var g0 := Sub(start, target);
    if n == 0 {
      assert Scale(1.0, g0) == g0;
    } else {
      var a := 1.0 - f;
      var prev := BlendSteps(start, target, f, n - 1);
      var p, pn := Pow(a, n - 1), Pow(a, n);
      BlendStepsGap(start, target, f, n - 1);
      assert Sub(prev, target) == Scale(p, g0);
      BlendGap(prev, target, f);
      assert pn == a * p;
      ScaleScale(a, p, pn, g0);
    }
  }

  lemma ScaleScale(a: real, b: real, ab: real, v: Vec3)
    requires ab == a * b
    ensures Scale(a, Scale(b, v)) == Scale(ab, v)
  {
    MulAssoc(a, b, ab, v.x);
    MulAssoc(a, b, ab, v.y);
    MulAssoc(a, b, ab, v.z);
  }

  lemma MulAssoc(a: real, b: real, ab: real, x: real)
    requires ab == a * b
    ensures a * (b * x) == ab * x
  {
  }

  /** Repeated steps towards a fixed target with a factor in [0, 1] never
      increase the distance to it. */
  lemma {:induction false} BlendStepsApproach(start: Vec3, target: Vec3, f: real, n: nat)
    requires 0.0 <= f <= 1.0
    ensures var g := Sub(BlendSteps(start, target, f, n), target);
      Dot(g, g) <= Dot(Sub(start, target), Sub(start, target))
  {
    if n > 0 {
      BlendStepsApproach(start, target, f, n - 1);
      BlendNeverFarther(BlendSteps(start, target, f, n - 1), target, f);
    }
  }

  /** `smooth_camera_interpolation` with a given factor: blend position,
      look-at point and up towards their targets, then normalise the up
      vector (falling back to (0, 0, 1) when the blend cancels out). */
  function Interpolate(sqrt: real -> real, cam: CameraState, goal: CameraState, f: real): (c: CameraState)
    requires IsSqrt(sqrt)
    ensures Dot(c.up, c.up) == 1.0
    ensures Blend(cam.up, goal.up, f) == Zero ==> c.up == FallbackDirection
  {
    CameraState(Blend(cam.position, goal.position, f), Blend(cam.target, goal.target, f),
                Normalize(sqrt, Blend(cam.up, goal.up, f)))
  }

  /** A factor of 1 puts the camera exactly on its goal; a camera already
      at a goal with a unit up is left where it is. */
  lemma InterpolateEnds(sqrt: real -> real, cam: CameraState, goal: CameraState, f: real)
    requires IsSqrt(sqrt) && Dot(goal.up, goal.up) == 1.0
    ensures Interpolate(sqrt, cam, goal, 1.0) == goal
    ensures Interpolate(sqrt, goal, goal, f) == goal
  {
    BlendEnds(cam.position, goal.position, f);
    BlendEnds(cam.target, goal.target, f);
    BlendEnds(cam.up, goal.up, f);
    NormalizeUnit(sqrt, goal.up);
  }

  /** A camera whose up is the world up, steered towards targets whose up
      is the world up, keeps the world up: the camera never rolls. */
  lemma InterpolateKeepsWorldUp(sqrt: real -> real, cam: CameraState, goal: CameraState, f: real)
    requires IsSqrt(sqrt) && cam.up == WorldUp && goal.up == WorldUp
    ensures Interpolate(sqrt, cam, goal, f).up == WorldUp
  {
    BlendEnds(cam.up, goal.up, f);
    WorldUpUnit();
    NormalizeUnit(sqrt, WorldUp);
  }

  // ---------------------------------------------------------------------
  // The blending factor

  /** The factor as written, `min(k / dt, 1.0) if dt > 0 else 1.0`. It lies
      in (0, 1] for a positive k, it is exactly 1 (no blending at all)
      whenever the frame is no longer than k, and k / dt for a longer one. */
  function SmoothFactor(k: real, dt: real): (f: real)
    ensures 0.0 < k ==> 0.0 < f <= 1.0
    ensures dt <= 0.0 ==> f == 1.0
    ensures 0.0 < dt <= k ==> f == 1.0
    ensures 0.0 < dt && k < dt ==> f == k / dt && f < 1.0
  {
    if dt > 0.0 then
      QuotientAtLeastOne(k, dt);
      if 0.0 <= k then
        QuotientSign(k, dt);
        MinReal(k / dt, 1.0)
      else
        MinReal(k / dt, 1.0)
    else 1.0
  }

  lemma QuotientAtLeastOne(k: real, dt: real)
    requires 0.0 < dt
    ensures dt <= k ==> 1.0 <= k / dt
    ensures k < dt ==> k / dt < 1.0
  {
    var q := k / dt;
    assert q * dt == k;
    if k < dt {
      assert (1.0 - q) * dt == dt - k;
      PositiveFactor(1.0 - q, dt);
    }
  }

  lemma PositiveFactor(a: real, b: real)
    requires 0.0 < b && 0.0 < a * b
    ensures 0.0 < a
  {
  }

  /** As written, a longer frame gives a smaller step: the factor falls as
      the frame time grows, the opposite of compensating for frame rate. */
  lemma SmoothFactorFallsWithFrameTime(k: real, dt1: real, dt2: real)
    requires 0.0 <= k && 0.0 < dt1 <= dt2
    ensures SmoothFactor(k, dt2) <= SmoothFactor(k, dt1)
  {
    assert k / dt2 <= k / dt1 by { QuotientAntitone(k, dt1, dt2); }
  }

  lemma QuotientAntitone(k: real, a: real, b: real)
    requires 0.0 <= k && 0.0 < a <= b
    ensures k / b <= k / a
  {
    assert k / a * a == k && k / b * b == k;
    QuotientSign(k, a);
    QuotientSign(k, b);
    assert k / b * (b - a) >= 0.0 by {
      if b > a && k / b > 0.0 { MulPos(k / b, b - a); }
    }
  }

  /** At 60 frames per second, with the start-up constant or any constant of
      at least one frame time, the camera jumps straight to its target: the
      intended lag never happens. */
  lemma SmoothingDisabledAsWritten(sqrt: real -> real, cam: CameraState, goal: CameraState, k: real)
    requires IsSqrt(sqrt) && Dot(goal.up, goal.up) == 1.0
    requires FirstFrameDelta <= k
    ensures SmoothFactor(DefaultSmoothFactor, FirstFrameDelta) == 1.0
    ensures Interpolate(sqrt, cam, goal, SmoothFactor(k, FirstFrameDelta)) == goal
  {
    InterpolateEnds(sqrt, cam, goal, 1.0);
  }

  /** The nominal frame time the corrected factor is calibrated to. */
  const ReferenceFrame: real := 1.0 / 60.0

  /** The corrected factor, `min(k * dt / (1/60), 1.0) if dt > 0 else 1.0`:
      k itself at 60 frames per second, and larger for longer frames. */
  function FrameScaledFactor(k: real, dt: real): (f: real)
    ensures 0.0 < k && 0.0 < dt ==> 0.0 < f <= 1.0
    ensures dt <= 0.0 ==> f == 1.0
  {
    if dt > 0.0 then
      if 0.0 < k then
        MulPos(k, dt);
        MinReal(k * dt * 60.0, 1.0)
      else
        MinReal(k * dt * 60.0, 1.0)
    else 1.0
  }

  /** The corrected factor equals k at the reference frame time, so the
      start-up constant moves the camera 15% of the way per frame. */
  lemma FrameScaledAtReference(k: real)
    requires 0.0 <= k <= 1.0
    ensures FrameScaledFactor(k, ReferenceFrame) == k
    ensures FrameScaledFactor(DefaultSmoothFactor, ReferenceFrame) == DefaultSmoothFactor
  {
  }

  /** The corrected factor grows with the frame time: a slow frame catches
      up further. */
  lemma FrameScaledGrowsWithFrameTime(k: real, dt1: real, dt2: real)
    requires 0.0 <= k && 0.0 < dt1 <= dt2
    ensures FrameScaledFactor(k, dt1) <= FrameScaledFactor(k, dt2)
  {
    assert k * dt1 <= k * dt2 by {
      if 0.0 < k && dt1 < dt2 { MulPos(k, dt2 - dt1); }
    }
  }

  /** With the corrected factor the camera does lag: at 60 frames per
      second with k below 1, a step leaves (1 - k) of the gap to the target. */
  lemma CorrectedSmoothingLags(start: Vec3, target: Vec3, k: real)
    requires 0.0 <= k <= 1.0
    ensures Sub(Blend(start, target, FrameScaledFactor(k, ReferenceFrame)), target)
         == Scale(1.0 - k, Sub(start, target))
  {
    FrameScaledAtReference(k);
    BlendGap(start, target, k);
  }

  /** `smooth_camera_interpolation`: move the camera position, look-at
      point and up the fraction `SmoothFactor(k, dt)` of the way to the goal
      and normalise the up. A frame no longer than k, or a non-positive
      frame time, lands on a goal with a unit up; a longer frame leaves
      1 - k / dt of the gap. */
  function SmoothCameraInterpolation(sqrt: real -> real, cam: CameraState, goal: CameraState, k: real, dt: real): (c: CameraState)
    requires IsSqrt(sqrt)
    ensures Dot(c.up, c.up) == 1.0
    ensures (dt <= 0.0 || dt <= k) && Dot(goal.up, goal.up) == 1.0 ==> c == goal
    ensures 0.0 < dt && k < dt ==>
      Sub(c.position, goal.position) == Scale(1.0 - k / dt, Sub(cam.position, goal.position))
      && Sub(c.target, goal.target) == Scale(1.0 - k / dt, Sub(cam.target, goal.target))
  {
    var f := SmoothFactor(k, dt);
    BlendGap(cam.position, goal.position, f);
    BlendGap(cam.target, goal.target, f);
    if Dot(goal.up, goal.up) == 1.0 then
      InterpolateEnds(sqrt, cam, goal, 1.0);
      Interpolate(sqrt, cam, goal, f)
    else
      Interpolate(sqrt, cam, goal, f)
  }

  /** The same step with the corrected factor: a non-positive frame time
      lands on a goal with a unit up, and at the reference frame time a step
      leaves 1 - k of the gap. */
  function SmoothCameraInterpolationCorrected(sqrt: real -> real, cam: CameraState, goal: CameraState, k: real, dt: real): (c: CameraState)
    requires IsSqrt(sqrt)
    ensures Dot(c.up, c.up) == 1.0
    ensures dt <= 0.0 && Dot(goal.up, goal.up) == 1.0 ==> c == goal
    ensures 0.0 <= k <= 1.0 && dt == ReferenceFrame ==>
      Sub(c.position, goal.position) == Scale(1.0 - k, Sub(cam.position, goal.position))
      && Sub(c.target, goal.target) == Scale(1.0 - k, Sub(cam.target, goal.target))
  {
    var f := FrameScaledFactor(k, dt);
    BlendGap(cam.position, goal.position, f);
    BlendGap(cam.target, goal.target, f);
    if 0.0 <= k <= 1.0 && dt == ReferenceFrame then
      FrameScaledAtReference(k);
      Interpolate(sqrt, cam, goal, f)
    else if Dot(goal.up, goal.up) == 1.0 then
      InterpolateEnds(sqrt, cam, goal, 1.0);
      Interpolate(sqrt, cam, goal, f)
    else
      Interpolate(sqrt, cam, goal, f)
  }

  // ---------------------------------------------------------------------
  // Camera targets

  /** `math.cos`, `math.sin` and `math.pi`, supplied by the platform. */
  datatype Trig = Trig(cos: real -> real, sin: real -> real, pi: real)

  /** The one fact about cosine and sine the camera geometry relies on. */
  ghost predicate Pythagorean(tr: Trig) {
    forall a :: Sq(tr.cos(a)) + Sq(tr.sin(a)) == 1.0
  }

  /** The target of `apply_ultra_camera` for each mode, from the cart's
      position, its normalised direction f, the wall-clock time and t.
      Every mode keeps the world up; unknown modes sit at a fixed offset
      (0, 5, 10) from the cart, looking at it. */
  function UltraTarget(tr: Trig, mode: int, cartPos: Vec3, f: Vec3, time: real, t: real): (r: CameraState)
    ensures r.up == WorldUp
    ensures !(0 <= mode < ModeCount) ==> r.position == Add(cartPos, Vec3(0.0, 5.0, 10.0)) && r.target == cartPos
  {
    if mode == 0 then FollowGoal(cartPos, f)
    else if mode == 1 then CockpitGoal(cartPos, f)
    else if mode == 2 then CinematicGoal(tr, cartPos, f, time * 0.4 + t * 2.0)
    else if mode == 3 then OrbitGoal(tr, cartPos, time * 0.2)
    else if mode == 4 then FlybyGoal(tr, cartPos, f, time * 0.3 + t * 3.0)
    else CameraState(Add(cartPos, Vec3(0.0, 5.0, 10.0)), cartPos, WorldUp)
  }

  /** Mode 0: 6 behind and 3 above the cart, looking 2.5 ahead. */
  function FollowGoal(pos: Vec3, f: Vec3): CameraState {
    CameraState(Add(Sub(pos, Scale(6.0, f)), Scale(3.0, WorldUp)), Add(pos, Scale(2.5, f)), WorldUp)
  }

  /** Mode 1: 0.5 above the cart, looking 3 ahead. */
  function CockpitGoal(pos: Vec3, f: Vec3): CameraState {
    CameraState(Add(pos, Scale(0.5, WorldUp)), Add(pos, Scale(3.0, f)), WorldUp)
  }

  /** Mode 2: circling at radius 8, bobbing around height 4, looking 1 ahead. */
  function CinematicGoal(tr: Trig, pos: Vec3, f: Vec3, angle: real): CameraState {
    CameraState(Add(pos, Vec3(8.0 * tr.cos(angle), 4.0 + 2.0 * tr.sin(angle * 0.7), 8.0 * tr.sin(angle))),
                Add(pos, Scale(1.0, f)), WorldUp)
  }

  /** Mode 3: circling at radius 12 and height 6, looking at the cart. */
  function OrbitGoal(tr: Trig, pos: Vec3, angle: real): CameraState {
    CameraState(Add(pos, Vec3(12.0 * tr.cos(angle), 6.0, 12.0 * tr.sin(angle))), pos, WorldUp)
  }

  /** Mode 4: circling at radius 15 a quarter turn ahead, bobbing around
      height 8, looking 2 ahead. */
  function FlybyGoal(tr: Trig, pos: Vec3, f: Vec3, angle: real): CameraState {
    CameraState(Add(pos, Vec3(15.0 * tr.cos(angle + tr.pi * 0.25), 8.0 + 3.0 * tr.sin(angle * 0.5),
                              15.0 * tr.sin(angle + tr.pi * 0.25))),
                Add(pos, Scale(2.0, f)), WorldUp)
  }

  /** The target part of `apply_ultra_camera`: normalise the cart
      direction, then pick the current mode's target. */
  function ApplyUltraCamera(sqrt: real -> real, tr: Trig, mode: int, cartPos: Vec3, cartForward: Vec3,
                            time: real, t: real): (r: CameraState)
    requires IsSqrt(sqrt)
    ensures r.up == WorldUp
  {
    UltraTarget(tr, mode, cartPos, Normalize(sqrt, cartForward), time, t)
  }

  lemma GoalByMode(tr: Trig, pos: Vec3, f: Vec3, time: real, t: real)
    ensures UltraTarget(tr, 0, pos, f, time, t) == FollowGoal(pos, f)
    ensures UltraTarget(tr, 1, pos, f, time, t) == CockpitGoal(pos, f)
  {
  }

  /** On level track (cart direction perpendicular to the world up) the
      follow target is the basic chase camera with follow 6, height 3 and
      lookahead 2.5. */
  lemma FollowTargetIsChase(sqrt: real -> real, tr: Trig, pos: Vec3, cartForward: Vec3, time: real, t: real)
    requires IsSqrt(sqrt) && Dot(WorldUp, Normalize(sqrt, cartForward)) == 0.0
    ensures var v := ApplyCamera(sqrt, ThirdPerson, pos, cartForward, None, 6.0, 3.0, 2.5, 0.5, 1.0);
      ApplyUltraCamera(sqrt, tr, 0, pos, cartForward, time, t) == CameraState(v.eye, v.center, v.up)
  {
    var f := Normalize(sqrt, cartForward);
    LevelBasis(sqrt, cartForward);
    GoalByMode(tr, pos, f, time, t);
    assert ApplyUltraCamera(sqrt, tr, 0, pos, cartForward, time, t) == UltraTarget(tr, 0, pos, f, time, t);
    assert ApplyCamera(sqrt, ThirdPerson, pos, cartForward, None, 6.0, 3.0, 2.5, 0.5, 1.0)
        == ChaseView(pos, Basis(f, WorldUp), 6.0, 3.0, 2.5);
  }

  /** On level track the first-person target is the basic cockpit camera
      with driver height 0.5 and lookahead 3. */
  lemma CockpitTargetIsCockpit(sqrt: real -> real, tr: Trig, pos: Vec3, cartForward: Vec3, time: real, t: real)
    requires IsSqrt(sqrt) && Dot(WorldUp, Normalize(sqrt, cartForward)) == 0.0
    ensures var v := ApplyCamera(sqrt, FirstPerson, pos, cartForward, None, 6.0, 3.0, 3.0, 0.5, 1.0);
      ApplyUltraCamera(sqrt, tr, 1, pos, cartForward, time, t) == CameraState(v.eye, v.center, v.up)
  {
    var f := Normalize(sqrt, cartForward);
    LevelBasis(sqrt, cartForward);
    GoalByMode(tr, pos, f, time, t);
    assert ApplyUltraCamera(sqrt, tr, 1, pos, cartForward, time, t) == UltraTarget(tr, 1, pos, f, time, t);
    assert ApplyCamera(sqrt, FirstPerson, pos, cartForward, None, 6.0, 3.0, 3.0, 0.5, 1.0)
        == CockpitView(pos, Basis(f, WorldUp), 0.5, 3.0);
  }

  /** On level track the basic camera's basis is the cart direction and the world up. */
  lemma LevelBasis(sqrt: real -> real, cartForward: Vec3)
    requires IsSqrt(sqrt) && Dot(WorldUp, Normalize(sqrt, cartForward)) == 0.0
    ensures CameraBasis(sqrt, cartForward, None) == Basis(Normalize(sqrt, cartForward), WorldUp)
  {
    PerpendicularUpKept(sqrt, cartForward, None);
  }

  /** The cinematic target circles the cart at horizontal radius 8, between
      2 and 6 above it, looking one unit ahead of the cart. */
  lemma CinematicTarget(tr: Trig, pos: Vec3, f: Vec3, time: real, t: real)
    requires Pythagorean(tr)
    ensures var r := UltraTarget(tr, 2, pos, f, time, t);
      var d := Sub(r.position, pos);
      Sq(d.x) + Sq(d.z) == 64.0 && 2.0 <= d.y <= 6.0 && r.target == Add(pos, f)
  {
    var angle := time * 0.4 + t * 2.0;
    var r := UltraTarget(tr, 2, pos, f, time, t);
    var d := Sub(r.position, pos);
    assert d == Vec3(8.0 * tr.cos(angle), 4.0 + 2.0 * tr.sin(angle * 0.7), 8.0 * tr.sin(angle));
    OnCircle(tr, angle, 8.0, d.x, d.z);
    SineBounds(tr, angle * 0.7);
    assert Scale(1.0, f) == f;
  }

  /** The orbit target circles the cart at horizontal radius 12, 6 above
      it, looking at the cart. */
  lemma OrbitTarget(tr: Trig, pos: Vec3, f: Vec3, time: real, t: real)
    requires Pythagorean(tr)
    ensures var r := UltraTarget(tr, 3, pos, f, time, t);
      var d := Sub(r.position, pos);
      Sq(d.x) + Sq(d.z) == 144.0 && d.y == 6.0 && r.target == pos
  {
    var angle := time * 0.2;
    var r := UltraTarget(tr, 3, pos, f, time, t);
    var d := Sub(r.position, pos);
    assert d == Vec3(12.0 * tr.cos(angle), 6.0, 12.0 * tr.sin(angle));
    OnCircle(tr, angle, 12.0, d.x, d.z);
  }

  /** The flyby target circles the cart at horizontal radius 15, between 5
      and 11 above it, looking two units ahead of the cart. */
  lemma FlybyTarget(tr: Trig, pos: Vec3, f: Vec3, time: real, t: real)
    requires Pythagorean(tr)
    ensures var r := UltraTarget(tr, 4, pos, f, time, t);
      var d := Sub(r.position, pos);
      Sq(d.x) + Sq(d.z) == 225.0 && 5.0 <= d.y <= 11.0 && r.target == Add(pos, Scale(2.0, f))
  {
    var angle := time * 0.3 + t * 3.0;
    var a := angle + tr.pi * 0.25;
    var r := UltraTarget(tr, 4, pos, f, time, t);
    var d := Sub(r.position, pos);
    assert d == Vec3(15.0 * tr.cos(a), 8.0 + 3.0 * tr.sin(angle * 0.5), 15.0 * tr.sin(a));
    OnCircle(tr, a, 15.0, d.x, d.z);
    SineBounds(tr, angle * 0.5);
  }

  /** (radius cos a, radius sin a) lies on the circle of that radius. */
  lemma OnCircle(tr: Trig, a: real, radius: real, x: real, z: real)
    requires Pythagorean(tr) && x == radius * tr.cos(a) && z == radius * tr.sin(a)
    ensures Sq(x) + Sq(z) == radius * radius
  {
    assert Sq(tr.cos(a)) + Sq(tr.sin(a)) == 1.0;
    CircleScalar(radius, tr.cos(a), tr.sin(a), x, z);
  }

  lemma CircleScalar(radius: real, c: real, s: real, x: real, z: real)
    requires Sq(c) + Sq(s) == 1.0 && x == radius * c && z == radius * s
    ensures Sq(x) + Sq(z) == radius * radius
  {
    assert Sq(x) == radius * radius * Sq(c);
    assert Sq(z) == radius * radius * Sq(s);
  }

  /** Sine stays within [-1, 1]. */
  lemma SineBounds(tr: Trig, a: real)
    requires Pythagorean(tr)
    ensures -1.0 <= tr.sin(a) <= 1.0
  {
    assert Sq(tr.cos(a)) + Sq(tr.sin(a)) == 1.0;
    SqNonneg(tr.cos(a));
    UnitBound(tr.sin(a));
  }

  lemma UnitBound(s: real)
    requires Sq(s) <= 1.0
    ensures -1.0 <= s <= 1.0
  {
    DiffOfSquares(s, 1.0);
    if 1.0 < s {
      MulPos(s - 1.0, s + 1.0);
      assert false;
    } else if s < -1.0 {
      MulPos(1.0 - s, -1.0 - s);
      assert false;
    }
  }

  // ---------------------------------------------------------------------
  // Keyboard

  /** `camera_names[camera_mode]` with Python's list indexing: modes 0 to 4
      name the five cameras and modes -5 to -1 count back from the end. */
  function CameraName(mode: int): (r: string)
    requires -ModeCount <= mode < ModeCount
    ensures r in CameraNames
    ensures r == "Follow" <==> mode == 0 || mode == -ModeCount
    ensures mode == -1 ==> r == "Flyby"
  {
    CameraNames[if mode < 0 then mode + ModeCount else mode]
  }

  /** A negative mode names the same camera as the mode five above it. */
  lemma CameraNameWraps(mode: int)
    requires -ModeCount <= mode < 0
    ensures CameraName(mode) == CameraName(mode + ModeCount)
  {
  }

  /** The keys the handler acts on, after lower-casing. */
  predicate IsHandled(k: char) {
    k == 'w' || k == 's' || k == ' ' || k == 'c' || ('1' <= k <= '5')
    || k == 'i' || k == 't' || k == 'e' || k == 'f' || k == 'l' || k == '+' || k == '=' || k == '-'
    || IsQuitKey(k)
  }

  /** `keyboard_ultra`: speed, pause, camera cycling and direct selection,
      the display switches, the blending constant, and quitting. A key
      press never moves the cart or the camera. */
  function KeyboardUltra(s: State, key: char): (r: Step<State>)
    ensures r.Quit? <==> IsQuitKey(Lower(key))
    ensures r.Continue? ==> r.state.t == s.t && r.state.lastTime == s.lastTime && r.state.camera == s.camera
    ensures r.Continue? && Valid(s) ==> Valid(r.state)
    ensures !IsHandled(Lower(key)) ==> r == Continue(s)
  {
    var k := Lower(key);
    if IsMotionKey(k) then Continue(MotionKey(s, k)) else SettingsKey(s, k)
  }

  /** The speed, pause and camera keys, after lower-casing. */
  predicate IsMotionKey(k: char) {
    k == 'w' || k == 's' || k == ' ' || k == 'c' || ('1' <= k <= '5')
  }

  /** The part of `keyboard_ultra` for the speed, pause and camera keys. */
  function MotionKey(s: State, k: char): (r: State)
    requires IsMotionKey(k)
    ensures r.t == s.t && r.lastTime == s.lastTime && r.camera == s.camera && r.smoothFactor == s.smoothFactor
    ensures Valid(s) ==> Valid(r)
  {
    if k == 'w' then s.(speed := MinReal(MaxSpeed, s.speed + SpeedStep))
    else if k == 's' then s.(speed := MaxReal(MinSpeed, s.speed - SpeedStep))
    else if k == ' ' then s.(paused := !s.paused)
    else if k == 'c' then s.(cameraMode := NextMode(s.cameraMode))
    else s.(cameraMode := SelectedMode(k))
  }

  /** The mode after 'c': `(camera_mode + 1) % 5`, always a known mode. */
  function NextMode(mode: int): (r: int)
    ensures 0 <= r < ModeCount
    ensures 0 <= mode < ModeCount - 1 ==> r == mode + 1
    ensures mode == ModeCount - 1 ==> r == 0
  {
    (mode + 1) % ModeCount
  }

  /** The mode a digit key selects: '1' to '5' give modes 0 to 4. */
  function SelectedMode(k: char): (r: int)
    requires '1' <= k <= '5'
    ensures 0 <= r < ModeCount
    ensures r + 1 == k as int - '0' as int
  {
    k as int - '1' as int
  }

  /** The rest of `keyboard_ultra`, for a lower-cased key other than the
      speed and camera keys: the display switches, the blending constant
      and quitting. */
  function SettingsKey(s: State, k: char): (r: Step<State>)
    ensures r.Quit? <==> IsQuitKey(k)
    ensures r.Continue? ==> r.state.t == s.t && r.state.speed == s.speed && r.state.paused == s.paused
                            && r.state.cameraMode == s.cameraMode && r.state.lastTime == s.lastTime
                            && r.state.camera == s.camera
    ensures r.Continue? && MinSmoothFactor <= s.smoothFactor <= MaxSmoothFactor
            ==> MinSmoothFactor <= r.state.smoothFactor <= MaxSmoothFactor
    ensures !IsHandled(k) ==> r == Continue(s)
  {
    if k == 'i' then Continue(s.(showCartInfo := !s.showCartInfo))
    else if k == 't' then Continue(s.(showTrack := !s.showTrack))
    else if k == 'e' then Continue(s.(showEnvironment := !s.showEnvironment))
    else if k == 'f' then Continue(s.(fogEnabled := !s.fogEnabled))
    else if k == 'l' then Continue(s.(lightingEnhanced := !s.lightingEnhanced))
    else if k == '+' || k == '=' then Continue(s.(smoothFactor := MinReal(MaxSmoothFactor, s.smoothFactor + SmoothStep)))
    else if k == '-' then Continue(s.(smoothFactor := MaxReal(MinSmoothFactor, s.smoothFactor - SmoothStep)))
    else if IsQuitKey(k) then Quit
    else Continue(s)
  }

  /** Keys '1' to '5' select modes 0 to 4 whatever the current mode. */
  lemma DigitKeysSelectMode(s: State, key: char)
    requires '1' <= key <= '5'
    ensures var r := KeyboardUltra(s, key);
      r.Continue? && r.state == s.(cameraMode := key as int - '1' as int)
      && 0 <= r.state.cameraMode < ModeCount
  {
  }

  /** A run of key presses, stopping at a quit key. */
  function PressKeys(s: State, keys: seq<char>): Step<State>
    decreases |keys|
  {
    if |keys| == 0 then Continue(s)
    else
      match KeyboardUltra(s, keys[0])
      case Quit => Quit
      case Continue(s1) => PressKeys(s1, keys[1..])
  }

  /** Any run of key presses from a valid state either quits or leaves a
      valid state, with the cart and camera where they were. */
  lemma {:induction false} PressKeysValid(s: State, keys: seq<char>)
    requires Valid(s)
    ensures var r := PressKeys(s, keys);
      r.Continue? ==> Valid(r.state) && r.state.t == s.t && r.state.camera == s.camera
    decreases |keys|
  {
    if |keys| > 0 {
      match KeyboardUltra(s, keys[0])
      case Quit =>
      case Continue(s1) => PressKeysValid(s1, keys[1..]);
    }
  }

  /** 'c' moves to the next mode and changes nothing else. */
  lemma CycleKey(s: State)
    ensures KeyboardUltra(s, 'c') == Continue(s.(cameraMode := NextMode(s.cameraMode)))
  {
  }

  /** Pressing 'c' five times comes back to the same mode, through all five. */
  lemma {:induction false} CycleReturns(s: State)
    requires 0 <= s.cameraMode < ModeCount
    ensures PressKeys(s, "ccccc") == Continue(s)
  {
    var s1 := s.(cameraMode := NextMode(s.cameraMode));
    var s2 := s1.(cameraMode := NextMode(s1.cameraMode));
    var s3 := s2.(cameraMode := NextMode(s2.cameraMode));
    var s4 := s3.(cameraMode := NextMode(s3.cameraMode));
    CycleKey(s);
    CycleKey(s1);
    CycleKey(s2);
    CycleKey(s3);
    CycleKey(s4);
    assert NextMode(s4.cameraMode) == s.cameraMode;
    assert PressKeys(s4, "c") == Continue(s) by {
      assert "c"[1..] == [];
    }
    assert PressKeys(s3, "cc") == PressKeys(s4, "c") by {
      assert "cc"[1..] == "c";
    }
    assert PressKeys(s2, "ccc") == PressKeys(s3, "cc") by {
      assert "ccc"[1..] == "cc";
    }
    assert PressKeys(s1, "cccc") == PressKeys(s2, "ccc") by {
      assert "cccc"[1..] == "ccc";
    }
    assert PressKeys(s, "ccccc") == PressKeys(s1, "cccc") by {
      assert "ccccc"[1..] == "cccc";
    }
  }

  /** A display switch or the pause key pressed twice restores the state. */
  lemma ToggleTwice(s: State, key: char)
    requires key in {' ', 'i', 't', 'e', 'f', 'l'}
    ensures PressKeys(s, [key, key]) == Continue(s)
  {
    var s1 := KeyboardUltra(s, key).state;
    assert KeyboardUltra(s1, key) == Continue(s);
    PressPair(s, key, key);
  }

  /** Two presses that both continue end where the second one leaves. */
  lemma PressPair(s: State, k1: char, k2: char)
    requires KeyboardUltra(s, k1).Continue? && KeyboardUltra(KeyboardUltra(s, k1).state, k2).Continue?
    ensures PressKeys(s, [k1, k2]) == KeyboardUltra(KeyboardUltra(s, k1).state, k2)
  {
    var s1 := KeyboardUltra(s, k1).state;
    assert [k1, k2][1..] == [k2];
    assert PressKeys(s1, [k2]) == PressKeys(KeyboardUltra(s1, k2).state, []);
  }

  /** Away from the limits, '-' undoes '+' (or '='), and 's' undoes 'w'. */
  lemma StepKeysUndo(s: State, key: char)
    requires Valid(s)
    requires (key == '+' || key == '=') && s.smoothFactor + SmoothStep <= MaxSmoothFactor
    ensures PressKeys(s, [key, '-']) == Continue(s)
  {
    var s1 := KeyboardUltra(s, key).state;
    assert KeyboardUltra(s1, '-') == Continue(s);
    PressPair(s, key, '-');
  }

  lemma SpeedKeysUndo(s: State)
    requires Valid(s) && s.speed + SpeedStep <= MaxSpeed
    ensures PressKeys(s, "ws") == Continue(s)
  {
    var s1 := KeyboardUltra(s, 'w').state;
    assert KeyboardUltra(s1, 's') == Continue(s);
    PressPair(s, 'w', 's');
  }

  // ---------------------------------------------------------------------
  // Frames

  /** `get_cart_forward_ultra`: the unit direction from the point at t to
      the point at (t + 0.0005) mod 1, or the x axis when they coincide. It
      is the track tangent with the same step. */
  function GetCartForwardUltra(sqrt: real -> real, pts: seq<Vec3>, t: real): (r: Vec3)
    requires IsSqrt(sqrt) && |pts| > 0
    ensures Dot(r, r) == 1.0
    ensures r == GetTangent(sqrt, pts, t, ForwardDelta)
  {
    var p1 := GetPoint(pts, t);
    var p2 := GetPoint(pts, Frac(t + ForwardDelta));
    var forward := Sub(p2, p1);
    var length := Norm(sqrt, forward);
    if length == 0.0 then
      FallbackTangentUnit();
      Vec3(1.0, 0.0, 0.0)
    else
      UnitDirection(sqrt, forward);
      Div(forward, length)
  }

  /** What one frame produces: the new state and the cart's placement. */
  datatype UltraTick = UltraTick(state: State, cartPosition: Vec3, cartForward: Vec3)

  /** The state update of `display_ultra` for a frame drawn at time `now`:
      advance t unless paused, place the cart, and move the camera towards
      the current mode's target. */
  function DisplayUltra(sqrt: real -> real, tr: Trig, pts: seq<Vec3>, s: State, now: real): (f: UltraTick)
    requires IsSqrt(sqrt) && |pts| > 0
    ensures f.state.lastTime == Some(now)
    ensures f.state.(t := s.t, lastTime := s.lastTime, camera := s.camera) == s
    ensures f.state.t == Advance(s.t, s.speed, s.paused, FrameDelta(s.lastTime, now))
    ensures s.paused ==> f.state.t == s.t
    ensures Valid(s) ==> Valid(f.state)
    ensures f.cartPosition == GetPoint(pts, f.state.t) && Dot(f.cartForward, f.cartForward) == 1.0
    ensures f.cartForward == GetCartForwardUltra(sqrt, pts, f.state.t)
    ensures f.state.camera == SmoothCameraInterpolation(sqrt, s.camera,
      ApplyUltraCamera(sqrt, tr, s.cameraMode, f.cartPosition, f.cartForward, now, f.state.t),
      s.smoothFactor, FrameDelta(s.lastTime, now))
    ensures Dot(f.state.camera.up, f.state.camera.up) == 1.0
  {
    var dt := FrameDelta(s.lastTime, now);
    var t := Advance(s.t, s.speed, s.paused, dt);
    var position := GetPoint(pts, t);
    var forward := GetCartForwardUltra(sqrt, pts, t);
    var goal := ApplyUltraCamera(sqrt, tr, s.cameraMode, position, forward, now, t);
    var cam := SmoothCameraInterpolation(sqrt, s.camera, goal, s.smoothFactor, dt);
    UltraTick(s.(t := t, lastTime := Some(now), camera := cam), position, forward)
  }

  /** The camera never rolls: starting with the world up, every frame keeps it. */
  lemma DisplayKeepsWorldUp(sqrt: real -> real, tr: Trig, pts: seq<Vec3>, s: State, now: real)
    requires IsSqrt(sqrt) && |pts| > 0 && s.camera.up == WorldUp
    ensures DisplayUltra(sqrt, tr, pts, s, now).state.camera.up == WorldUp
  {
    var f := DisplayUltra(sqrt, tr, pts, s, now);
    var goal := ApplyUltraCamera(sqrt, tr, s.cameraMode, f.cartPosition, f.cartForward, now, f.state.t);
    SmoothKeepsWorldUp(sqrt, s.camera, goal, s.smoothFactor, FrameDelta(s.lastTime, now));
  }

  lemma SmoothKeepsWorldUp(sqrt: real -> real, cam: CameraState, goal: CameraState, k: real, dt: real)
    requires IsSqrt(sqrt) && cam.up == WorldUp && goal.up == WorldUp
    ensures SmoothCameraInterpolation(sqrt, cam, goal, k, dt).up == WorldUp
  {
    InterpolateKeepsWorldUp(sqrt, cam, goal, SmoothFactor(k, dt));
  }

  /** As written, every frame no longer than the blending constant puts
      the camera exactly on the current mode's target: the first frame, at
      the nominal 1/60, does so with the start-up constant 0.15, and so does
      every later frame at 60 frames per second. */
  lemma FrameLandsOnTarget(sqrt: real -> real, tr: Trig, pts: seq<Vec3>, s: State, now: real)
    requires IsSqrt(sqrt) && |pts| > 0
    requires FrameDelta(s.lastTime, now) <= s.smoothFactor
    ensures var f := DisplayUltra(sqrt, tr, pts, s, now);
      f.state.camera == ApplyUltraCamera(sqrt, tr, s.cameraMode, f.cartPosition, f.cartForward, now, f.state.t)
  {
    WorldUpUnit();
  }

  /** The state after frames drawn at each of `times` in turn, with no key
      pressed in between. */
  function FramesUltra(sqrt: real -> real, tr: Trig, pts: seq<Vec3>, s: State, times: seq<real>): State
    requires IsSqrt(sqrt) && |pts| > 0
    decreases |times|
  {
    if |times| == 0 then s
    else FramesUltra(sqrt, tr, pts, DisplayUltra(sqrt, tr, pts, s, times[0]).state, times[1..])
  }

  /** Over a run of frames t moves as the clock's frame-by-frame travel, as
      in the basic viewer, whatever the camera does. */
  lemma {:induction false} FramesUltraTravel(sqrt: real -> real, tr: Trig, pts: seq<Vec3>, s: State, times: seq<real>)
    requires IsSqrt(sqrt) && |pts| > 0
    ensures FramesUltra(sqrt, tr, pts, s, times).t == Travel(s.t, s.speed, s.paused, s.lastTime, times)
    decreases |times|
  {
    if |times| > 0 {
      var f := DisplayUltra(sqrt, tr, pts, s, times[0]).state;
      assert f.t == Advance(s.t, s.speed, s.paused, FrameDelta(s.lastTime, times[0]));
      assert f.speed == s.speed && f.paused == s.paused && f.lastTime == Some(times[0]);
      FramesUltraTravel(sqrt, tr, pts, f, times[1..]);
    }
  }
}
