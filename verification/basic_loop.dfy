/** The basic viewer's state machine: the animation state, the keyboard
    handler, the per-frame update with its camera, the cart direction, and
    the headless demo run. */
module BasicLoop {
  import opened Wrappers
  import opened Vectors
  import opened Cart
  import opened Curve
  import opened Camera
  import opened Clock
  import opened Keys

  const DefaultSpeed: real := 0.08
  const MaxSpeed: real := 0.5
  const MinSpeed: real := 0.0

  /** How much one press of 'w' or 's' changes the speed. */
  const SpeedStep: real := 0.02

  /** The step used for the cart's finite-difference direction. */
  const ForwardDelta: real := 0.001

  /** The module-level animation state. `lastTime` is `None` until the
      first frame. */
  datatype State = State(t: real, speed: real, paused: bool, lastTime: Option<real>,
                         cameraMode: int, showTrack: bool, showCartInfo: bool)

  /** The state at start-up. */
  const Initial: State := State(0.0, DefaultSpeed, false, None, ThirdPerson, true, false)

  /** What the program keeps true: t on the track, the speed within its
      limits and one of the two camera modes. */
  predicate Valid(s: State) {
    0.0 <= s.t < 1.0 && MinSpeed <= s.speed <= MaxSpeed
    && (s.cameraMode == ThirdPerson || s.cameraMode == FirstPerson)
  }

  lemma InitialValid()
    ensures Valid(Initial)
  {
  }

  /** The keys the handler acts on, after lower-casing. */
  predicate IsHandled(k: char) {
    k == 'w' || k == 's' || k == ' ' || k == 'c' || k == 'i' || k == 't' || IsQuitKey(k)
  }

  /** `keyboard_handler`: 'w'/'s' change the speed within its limits, space
      pauses, 'c' switches camera, 'i' and 't' switch the overlays, escape
      and 'q' quit, and every other key is ignored. A key press never moves
      the cart. */
  function KeyboardHandler(s: State, key: char): (r: Step<State>)
    ensures r.Quit? <==> IsQuitKey(Lower(key))
    ensures r.Continue? ==> r.state.t == s.t && r.state.lastTime == s.lastTime
    ensures r.Continue? && Valid(s) ==> Valid(r.state)
    ensures !IsHandled(Lower(key)) ==> r == Continue(s)
  {
    var k := Lower(key);
    if k == 'w' then Continue(s.(speed := MinReal(MaxSpeed, s.speed + SpeedStep)))
    else if k == 's' then Continue(s.(speed := MaxReal(MinSpeed, s.speed - SpeedStep)))
    else if k == ' ' then Continue(s.(paused := !s.paused))
    else if k == 'c' then Continue(s.(cameraMode := 1 - s.cameraMode))
    else if k == 'i' then Continue(s.(showCartInfo := !s.showCartInfo))
    else if k == 't' then Continue(s.(showTrack := !s.showTrack))
    else if k == Escape || k == 'q' then Quit
    else Continue(s)
  }

  /** Space, 'c', 'i' and 't' each change exactly one field, and pressing
      the same key twice restores the state. */
  lemma ToggleKeyTwice(s: State, key: char)
    requires Lower(key) in {' ', 'c', 'i', 't'}
    ensures var r1 := KeyboardHandler(s, key);
      r1.Continue? && KeyboardHandler(r1.state, key) == Continue(s)
    ensures var r1 := KeyboardHandler(s, key);
      r1.Continue?
      && (Lower(key) == ' ' ==> r1.state.paused != s.paused && r1.state.(paused := s.paused) == s)
      && (Lower(key) == 'c' ==> r1.state.cameraMode != s.cameraMode && r1.state.(cameraMode := s.cameraMode) == s)
      && (Lower(key) == 'i' ==> r1.state.showCartInfo != s.showCartInfo && r1.state.(showCartInfo := s.showCartInfo) == s)
      && (Lower(key) == 't' ==> r1.state.showTrack != s.showTrack && r1.state.(showTrack := s.showTrack) == s)
  {
  }

  /** Away from the limits, 's' undoes 'w' and 'w' undoes 's'; at the limits
      the speed saturates. Either way only the speed changes. */
  lemma SpeedKeys(s: State)
    requires Valid(s)
    ensures var up := KeyboardHandler(s, 'w').state;
      s.speed <= up.speed && up.(speed := s.speed) == s
      && (s.speed + SpeedStep <= MaxSpeed ==> KeyboardHandler(up, 's') == Continue(s))
      && (MaxSpeed < s.speed + SpeedStep ==> up.speed == MaxSpeed)
    ensures var down := KeyboardHandler(s, 's').state;
      down.speed <= s.speed && down.(speed := s.speed) == s
      && (MinSpeed <= s.speed - SpeedStep ==> KeyboardHandler(down, 'w') == Continue(s))
      && (s.speed - SpeedStep < MinSpeed ==> down.speed == MinSpeed)
  {
  }

  /** `get_cart_forward`: the unit direction from the point at t to the
      point at (t + 0.001) mod 1, or the x axis when they coincide. It is
      the track tangent with the same step. */
  function GetCartForward(sqrt: real -> real, pts: seq<Vec3>, t: real): (r: Vec3)
    requires IsSqrt(sqrt) && |pts| > 0
    ensures Dot(r, r) == 1.0
    ensures r == GetTangent(sqrt, pts, t, ForwardDelta)
  {
    var p1 := GetPoint(pts, t);
    var p2 := GetPoint(pts, Frac(t + ForwardDelta));
    var forward := Sub(p2, p1);
    var length := Norm(sqrt, forward);
    if length == 0.0 then
      FallbackTangentUnit();
      Vec3(1.0, 0.0, 0.0)
    else
      UnitDirection(sqrt, forward);
      Div(forward, length)
  }

  /** What one frame produces: the new state, the cart's placement and the
      camera view. */
  datatype Tick = Tick(state: State, cartPosition: Vec3, cartForward: Vec3, view: View)

  /** The state update and camera of `display`, for a frame drawn at time
      `now`: advance t unless paused, place the cart on the track and apply
      the camera with follow 4.0, height 2.0, lookahead 1.5, driver 0.3 and
      no cart up vector. */
  function Display(sqrt: real -> real, pts: seq<Vec3>, s: State, now: real): (f: Tick)
    requires IsSqrt(sqrt) && |pts| > 0
    ensures f.state == FrameState(s, now)
    ensures f.state.lastTime == Some(now)
    ensures f.state.(t := s.t, lastTime := s.lastTime) == s
    ensures f.state.t == Advance(s.t, s.speed, s.paused, FrameDelta(s.lastTime, now))
    ensures s.paused ==> f.state.t == s.t
    ensures Valid(s) ==> Valid(f.state)
    ensures f.cartPosition == GetPoint(pts, f.state.t)
    ensures f.cartForward == GetCartForward(sqrt, pts, f.state.t)
    ensures f.view == ApplyCamera(sqrt, s.cameraMode, f.cartPosition, f.cartForward, None, 4.0, 2.0, 1.5, 0.3, 1.0)
    ensures Dot(f.cartForward, f.cartForward) == 1.0 && Dot(f.view.up, f.view.up) == 1.0
  {
    var next := FrameState(s, now);
    var position := GetPoint(pts, next.t);
    var forward := GetCartForward(sqrt, pts, next.t);
    var view := ApplyCamera(sqrt, s.cameraMode, position, forward, None, 4.0, 2.0, 1.5, 0.3, 1.0);
    Tick(next, position, forward, view)
  }

  /** The state part of a frame: t advances by the frame delta unless
      paused, and the frame time is recorded. */
  function FrameState(s: State, now: real): State {
    s.(t := Advance(s.t, s.speed, s.paused, FrameDelta(s.lastTime, now)), lastTime := Some(now))
  }

  /** The state after frames drawn at each of `times` in turn, with no key
      pressed in between: the state part of `Display`, repeated. */
  function Frames(s: State, times: seq<real>): State
    decreases |times|
  {
    if |times| == 0 then s else Frames(FrameState(s, times[0]), times[1..])
  }

  /** Over a run of frames t moves as the clock's frame-by-frame travel. */
  lemma {:induction false} FramesTravel(s: State, times: seq<real>)
    ensures Frames(s, times).t == Travel(s.t, s.speed, s.paused, s.lastTime, times)
    decreases |times|
  {
    if |times| > 0 {
      var f := FrameState(s, times[0]);
      assert f.t == Advance(s.t, s.speed, s.paused, FrameDelta(s.lastTime, times[0]));
      assert f.speed == s.speed && f.paused == s.paused && f.lastTime == Some(times[0]);
      FramesTravel(f, times[1..]);
    }
  }

  /** A run of frames changes nothing but t and the frame time, and the
      frame time becomes that of the last frame. */
  lemma {:induction false} FramesKeep(s: State, times: seq<real>)
    ensures var r := Frames(s, times);
      r.speed == s.speed && r.paused == s.paused && r.cameraMode == s.cameraMode
      && r.showTrack == s.showTrack && r.showCartInfo == s.showCartInfo
      && (|times| > 0 ==> r.lastTime == Some(times[|times| - 1]))
    decreases |times|
  {
    if |times| > 0 {
      var f := FrameState(s, times[0]);
      assert f.speed == s.speed && f.paused == s.paused && f.cameraMode == s.cameraMode;
      assert f.showTrack == s.showTrack && f.showCartInfo == s.showCartInfo && f.lastTime == Some(times[0]);
      FramesKeep(f, times[1..]);
      if |times| > 1 {
        assert times[1..][|times| - 2] == times[|times| - 1];
      }
    }
  }

  /** So an unpaused cart ends as far along as one frame as long as all the
      frame deltas together, and a paused one does not move. */
  lemma FramesTotal(s: State, times: seq<real>)
    requires |times| > 0
    ensures s.paused ==> Frames(s, times).t == s.t
    ensures !s.paused ==>
      Frames(s, times).t == Advance(s.t, s.speed, false, Sum(Deltas(s.lastTime, times)))
  {
    FramesTravel(s, times);
    TravelSum(s.t, s.speed, s.paused, s.lastTime, times);
  }

  /** Where the cart is level, so that its direction is perpendicular to the
      world up, the third-person eye of a frame sits 4 behind, 2 above and
      level sideways with the cart, and looks 1.5 ahead of it along the
      track direction. */
  lemma DisplayChaseView(sqrt: real -> real, pts: seq<Vec3>, s: State, now: real)
    requires IsSqrt(sqrt) && |pts| > 0 && s.cameraMode == ThirdPerson
    requires var f := Display(sqrt, pts, s, now); Dot(f.cartForward, WorldUp) == 0.0
    ensures var f := Display(sqrt, pts, s, now);
      f.view.up == WorldUp
      && Dot(Sub(f.view.eye, f.cartPosition), f.cartForward) == -4.0
      && Dot(Sub(f.view.eye, f.cartPosition), WorldUp) == 2.0
      && Dot(Sub(f.view.eye, f.cartPosition), Cross(f.cartForward, WorldUp)) == 0.0
      && Dot(Sub(f.view.center, f.cartPosition), f.cartForward) == 1.5
      && Cross(Sub(f.view.center, f.cartPosition), f.cartForward) == Zero
  {
    var f := Display(sqrt, pts, s, now);
    LevelBasis(sqrt, f.cartForward);
    assert f.view == ChaseView(f.cartPosition, Basis(f.cartForward, WorldUp), 4.0, 2.0, 1.5);
    LevelChase(f.cartPosition, f.cartForward);
  }

  lemma LevelChase(pos: Vec3, forward: Vec3)
    requires Dot(forward, forward) == 1.0 && Dot(forward, WorldUp) == 0.0
    ensures var v := ChaseView(pos, Basis(forward, WorldUp), 4.0, 2.0, 1.5);
      Dot(Sub(v.eye, pos), forward) == -4.0 && Dot(Sub(v.eye, pos), WorldUp) == 2.0
      && Dot(Sub(v.eye, pos), Cross(forward, WorldUp)) == 0.0
      && Dot(Sub(v.center, pos), forward) == 1.5 && Cross(Sub(v.center, pos), forward) == Zero
  {
    DotSymmetric(forward, WorldUp);
    WorldUpUnit();
    ChaseGeometry(pos, Basis(forward, WorldUp), 4.0, 2.0, 1.5);
  }

  /** A unit direction perpendicular to the world up keeps its own basis. */
  lemma LevelBasis(sqrt: real -> real, forward: Vec3)
    requires IsSqrt(sqrt) && Dot(forward, forward) == 1.0 && Dot(forward, WorldUp) == 0.0
    ensures CameraBasis(sqrt, forward, None) == Basis(forward, WorldUp)
  {
    NormalizeUnit(sqrt, forward);
    DotSymmetric(forward, WorldUp);
    PerpendicularUpKept(sqrt, forward, None);
  }

  /** The headless demo of `demo_mode`: 50 frames of 0.016 time units each,
      starting from t = 0 at the default speed, with the speed raised by
      0.01 (up to the maximum) on every tenth frame. Returns the final t and
      speed. */
  method DemoMode() returns (t: real, speed: real)
    ensures t == DemoRun(DemoFrames).0 && speed == DemoRun(DemoFrames).1
    ensures t == 0.0872 && speed == DefaultSpeed + 0.05 && speed <= MaxSpeed
  {
    t := 0.0;
    speed := DefaultSpeed;
    var i := 0;
    while i < DemoFrames
      invariant 0 <= i <= DemoFrames
      invariant t == DemoRun(i).0 && speed == DemoRun(i).1
    {
      t := Advance(t, speed, false, DemoFrameTime);
      if i % 10 == 0 {
        speed := MinReal(MaxSpeed, speed + 0.01);
      }
      i := i + 1;
    }
    DemoRunClosed(DemoFrames);
    DemoDistance();
  }

  const DemoFrames: nat := 50
  const DemoFrameTime: real := 0.016

  /** The demo's t and speed after `i` frames, one frame at a time: each
      frame advances t by the speed in force, and frames 0, 10, 20, ...
      then raise the speed by 0.01 up to the maximum. */
  function DemoRun(i: nat): (real, real) {
    if i == 0 then (0.0, DefaultSpeed)
    else
      var prev := DemoRun(i - 1);
      (Advance(prev.0, prev.1, false, DemoFrameTime),
       if (i - 1) % 10 == 0 then MinReal(MaxSpeed, prev.1 + 0.01) else prev.1)
  }

  /** The speed in force during frame `j` of the demo, in closed form. */
  function DemoSpeed(j: nat): real {
    DefaultSpeed + 0.01 * ((j + 9) / 10) as real
  }

  /** The track distance the demo covers in its first `i` frames, counted in
      speed units per frame. */
  function Travelled(i: nat): real {
    if i == 0 then 0.0 else Travelled(i - 1) + DemoSpeed(i - 1)
  }

  lemma DemoSpeedBound(j: nat)
    requires j <= DemoFrames
    ensures DefaultSpeed <= DemoSpeed(j) <= 0.13
    ensures j % 10 == 0 ==> DemoSpeed(j + 1) == DemoSpeed(j) + 0.01
    ensures j % 10 != 0 ==> DemoSpeed(j + 1) == DemoSpeed(j)
  {
  }

  /** Within the demo's 50 frames the speed never reaches the maximum and t
      never wraps around, so after `i` frames the speed is the closed form
      and t is the distance travelled times the frame time. */
  lemma {:induction false} DemoRunClosed(i: nat)
    requires i <= DemoFrames
    ensures DemoRun(i).1 == DemoSpeed(i)
    ensures 0.0 <= Travelled(i) <= 0.13 * i as real
    ensures DemoRun(i).0 == DemoFrameTime * Travelled(i)
  {
    if i > 0 {
      DemoRunClosed(i - 1);
      DemoSpeedBound(i - 1);
      var prev := DemoRun(i - 1);
      var x := prev.0 + prev.1 * DemoFrameTime;
      assert x == DemoFrameTime * Travelled(i);
      FracSmall(x);
    }
  }

  /** One frame at 0.08, ten each at 0.09, 0.10, 0.11 and 0.12, and nine at
      0.13. */
  lemma DemoDistance()
    ensures Travelled(1) == 0.08 && Travelled(11) == 0.98 && Travelled(21) == 1.98
    ensures Travelled(31) == 3.08 && Travelled(41) == 4.28 && Travelled(DemoFrames) == 5.45
  {
    assert Travelled(1) == 0.08;
    assert Travelled(11) == 0.98;
    assert Travelled(21) == 1.98;
    assert Travelled(31) == 3.08;
    assert Travelled(41) == 4.28;
  }
}
