/** Camera placement for the basic viewer: where the eye goes, what it looks
    at and which way is up, for the third-person chase camera (mode 0) and
    the first-person cockpit camera (mode 1). The result is the triple that
    would be handed to `gluLookAt`. */
module Camera {
  import opened Wrappers
  import opened Vectors
  import opened Cart

  /** The up direction assumed when the cart supplies none. */
  const WorldUp: Vec3 := Vec3(0.0, 1.0, 0.0)

  const ThirdPerson: int := 0
  const FirstPerson: int := 1

  /** The arguments of a look-at transform. */
  datatype View = View(eye: Vec3, center: Vec3, up: Vec3)

  /** The camera's forward direction and re-orthogonalised up, as
      `apply_camera` computes them before choosing a mode. */
  datatype Basis = Basis(forward: Vec3, up: Vec3)

  /** The up hint: the world up when none is given, the normalised cart up otherwise. */
  function UpHint(sqrt: real -> real, cartUp: Option<Vec3>): (u: Vec3)
    requires IsSqrt(sqrt)
    ensures cartUp.None? ==> u == WorldUp
    ensures cartUp.Some? ==> Dot(u, u) == 1.0
  {
    match cartUp
    case None => WorldUp
    case Some(up) => Normalize(sqrt, up)
  }

  /** Forward is the normalised cart direction; up is rebuilt from the hint
      through the right vector, as in the cart's orientation frame. */
  function CameraBasis(sqrt: real -> real, cartForward: Vec3, cartUp: Option<Vec3>): (b: Basis)
    requires IsSqrt(sqrt)
    ensures b.forward == Normalize(sqrt, cartForward)
    ensures Dot(b.forward, b.forward) == 1.0 && Dot(b.up, b.up) == 1.0
  {
    var forward := Normalize(sqrt, cartForward);
    var hint := UpHint(sqrt, cartUp);
    var right := Normalize(sqrt, Cross(forward, hint));
    Basis(forward, Normalize(sqrt, Cross(right, forward)))
  }

  /** When the cart direction and the up hint are not parallel, the
      rebuilt up is perpendicular to forward. */
  lemma BasisPerpendicular(sqrt: real -> real, cartForward: Vec3, cartUp: Option<Vec3>)
    requires IsSqrt(sqrt)
    requires Cross(Normalize(sqrt, cartForward), UpHint(sqrt, cartUp)) != Zero
    ensures var b := CameraBasis(sqrt, cartForward, cartUp);
      Dot(b.up, b.forward) == 0.0
  {
    Reorthogonalized(sqrt, Normalize(sqrt, cartForward), UpHint(sqrt, cartUp));
  }

  /** The chase view: `follow` behind and `height` above the cart, looking
      `lookahead` ahead of it. */
  function ChaseView(pos: Vec3, b: Basis, follow: real, height: real, lookahead: real): View {
    View(Add(Sub(pos, Scale(follow, b.forward)), Scale(height, b.up)), Add(pos, Scale(lookahead, b.forward)), b.up)
  }

  /** The cockpit view: `driver` above the cart, looking `lookahead` ahead. */
  function CockpitView(pos: Vec3, b: Basis, driver: real, lookahead: real): View {
    View(Add(pos, Scale(driver, b.up)), Add(pos, Scale(lookahead, b.forward)), b.up)
  }

  /** The chase view puts the eye `follow` behind the cart along forward,
      `height` above it along up and not at all to the side, and the
      look-at point `lookahead` ahead on the forward line. */
  lemma ChaseGeometry(pos: Vec3, b: Basis, follow: real, height: real, lookahead: real)
    requires Dot(b.forward, b.forward) == 1.0 && Dot(b.up, b.up) == 1.0 && Dot(b.up, b.forward) == 0.0
    ensures var v := ChaseView(pos, b, follow, height, lookahead);
      Dot(Sub(v.eye, pos), b.forward) == -follow && Dot(Sub(v.eye, pos), b.up) == height
      && Dot(Sub(v.eye, pos), Cross(b.forward, b.up)) == 0.0
      && Dot(Sub(v.center, pos), b.forward) == lookahead && Cross(Sub(v.center, pos), b.forward) == Zero
  {
    var v := ChaseView(pos, b, follow, height, lookahead);
    assert Sub(v.eye, pos) == Add(Scale(-follow, b.forward), Scale(height, b.up));
    DotCombination(-follow, b.forward, height, b.up, b.forward);
    DotSymmetric(b.up, b.forward);
    DotCombination(-follow, b.forward, height, b.up, b.up);
    NoSideways(-follow, b.forward, height, b.up);
    AheadOnForwardLine(pos, v.center, b.forward, lookahead);
  }

  /** A combination of f and u has no component along f x u. */
  lemma NoSideways(a: real, f: Vec3, c: real, u: Vec3)
    ensures Dot(Add(Scale(a, f), Scale(c, u)), Cross(f, u)) == 0.0
  {
    var n := Cross(f, u);
    CrossPerpendicular(f, u);
    DotSymmetric(n, f);
    DotSymmetric(n, u);
    DotCombination(a, f, c, u, n);
  }

  /** The cockpit view puts the eye `driver` above the cart along up, level
      with it along forward and to the side, and looks `lookahead` ahead on
      the forward line. */
  lemma CockpitGeometry(pos: Vec3, b: Basis, driver: real, lookahead: real)
    requires Dot(b.forward, b.forward) == 1.0 && Dot(b.up, b.up) == 1.0 && Dot(b.up, b.forward) == 0.0
    ensures var v := CockpitView(pos, b, driver, lookahead);
      Dot(Sub(v.eye, pos), b.forward) == 0.0 && Dot(Sub(v.eye, pos), b.up) == driver
      && Dot(Sub(v.eye, pos), Cross(b.forward, b.up)) == 0.0
      && Dot(Sub(v.center, pos), b.forward) == lookahead && Cross(Sub(v.center, pos), b.forward) == Zero
  {
    var v := CockpitView(pos, b, driver, lookahead);
    assert Sub(v.eye, pos) == Scale(driver, b.up);
    DotScale(driver, b.up, b.forward);
    DotScale(driver, b.up, b.up);
    NoSideways(0.0, b.forward, driver, b.up);
    assert Add(Scale(0.0, b.forward), Scale(driver, b.up)) == Scale(driver, b.up);
    AheadOnForwardLine(pos, v.center, b.forward, lookahead);
  }

  lemma AheadOnForwardLine(pos: Vec3, center: Vec3, f: Vec3, lookahead: real)
    requires Dot(f, f) == 1.0 && center == Add(pos, Scale(lookahead, f))
    ensures Dot(Sub(center, pos), f) == lookahead && Cross(Sub(center, pos), f) == Zero
  {
    assert Sub(center, pos) == Scale(lookahead, f);
    DotScale(lookahead, f, f);
    CrossScale(lookahead, f, 1.0, f);
    assert Scale(1.0, f) == f;
  }

  /** `apply_camera`: mode 0 is the chase view, mode 1 the cockpit view, and
      every other mode falls back to the chase view. `damping` is accepted
      and not used. The up vector handed on is always a unit vector. */
  function ApplyCamera(sqrt: real -> real, mode: int, pos: Vec3, cartForward: Vec3, cartUp: Option<Vec3>,
                       follow: real, height: real, lookahead: real, driver: real, damping: real): (v: View)
    requires IsSqrt(sqrt)
    ensures Dot(v.up, v.up) == 1.0
  {
    var b := CameraBasis(sqrt, cartForward, cartUp);
    if mode == ThirdPerson then
      ChaseView(pos, b, follow, height, lookahead)
    else if mode == FirstPerson then
      CockpitView(pos, b, driver, lookahead)
    else
      ChaseView(pos, b, follow, height, lookahead)
  }

  /** Every mode other than 0 and 1 gives the third-person view. */
  lemma UnknownModeIsThirdPerson(sqrt: real -> real, mode: int, pos: Vec3, cartForward: Vec3, cartUp: Option<Vec3>,
                                 follow: real, height: real, lookahead: real, driver: real, damping: real)
    requires IsSqrt(sqrt) && mode != ThirdPerson && mode != FirstPerson
    ensures ApplyCamera(sqrt, mode, pos, cartForward, cartUp, follow, height, lookahead, driver, damping)
         == ApplyCamera(sqrt, ThirdPerson, pos, cartForward, cartUp, follow, height, lookahead, driver, damping)
  {
  }

  /** The damping argument has no effect on the view. */
  lemma DampingIgnored(sqrt: real -> real, mode: int, pos: Vec3, cartForward: Vec3, cartUp: Option<Vec3>,
                       follow: real, height: real, lookahead: real, driver: real, d1: real, d2: real)
    requires IsSqrt(sqrt)
    ensures ApplyCamera(sqrt, mode, pos, cartForward, cartUp, follow, height, lookahead, driver, d1)
         == ApplyCamera(sqrt, mode, pos, cartForward, cartUp, follow, height, lookahead, driver, d2)
  {
  }

  /** When the cart direction and the up hint are not parallel, the chase
      view (mode 0 and every mode but 1) has up perpendicular to forward,
      the eye `follow` behind, `height` above and not to the side of the
      cart, and looks `lookahead` ahead along forward. */
  lemma ChaseCameraGeometry(sqrt: real -> real, mode: int, pos: Vec3, cartForward: Vec3, cartUp: Option<Vec3>,
                            follow: real, height: real, lookahead: real, driver: real, damping: real)
    requires IsSqrt(sqrt) && mode != FirstPerson
    requires Cross(Normalize(sqrt, cartForward), UpHint(sqrt, cartUp)) != Zero
    ensures var v := ApplyCamera(sqrt, mode, pos, cartForward, cartUp, follow, height, lookahead, driver, damping);
      var f := Normalize(sqrt, cartForward);
      Dot(v.up, f) == 0.0
      && Dot(Sub(v.eye, pos), f) == -follow && Dot(Sub(v.eye, pos), v.up) == height
      && Dot(Sub(v.eye, pos), Cross(f, v.up)) == 0.0
      && Dot(Sub(v.center, pos), f) == lookahead && Cross(Sub(v.center, pos), f) == Zero
  {
    var b := CameraBasis(sqrt, cartForward, cartUp);
    BasisPerpendicular(sqrt, cartForward, cartUp);
    assert ApplyCamera(sqrt, mode, pos, cartForward, cartUp, follow, height, lookahead, driver, damping)
        == ChaseView(pos, b, follow, height, lookahead);
    ChaseGeometry(pos, b, follow, height, lookahead);
  }

  /** The same for the cockpit view (mode 1): the eye is `driver` above the
      cart and level with it along forward and to the side. */
  lemma CockpitCameraGeometry(sqrt: real -> real, pos: Vec3, cartForward: Vec3, cartUp: Option<Vec3>,
                              follow: real, height: real, lookahead: real, driver: real, damping: real)
    requires IsSqrt(sqrt)
    requires Cross(Normalize(sqrt, cartForward), UpHint(sqrt, cartUp)) != Zero
    ensures var v := ApplyCamera(sqrt, FirstPerson, pos, cartForward, cartUp, follow, height, lookahead, driver, damping);
      var f := Normalize(sqrt, cartForward);
      Dot(v.up, f) == 0.0
      && Dot(Sub(v.eye, pos), f) == 0.0 && Dot(Sub(v.eye, pos), v.up) == driver
      && Dot(Sub(v.eye, pos), Cross(f, v.up)) == 0.0
      && Dot(Sub(v.center, pos), f) == lookahead && Cross(Sub(v.center, pos), f) == Zero
  {
    var b := CameraBasis(sqrt, cartForward, cartUp);
    BasisPerpendicular(sqrt, cartForward, cartUp);
    assert ApplyCamera(sqrt, FirstPerson, pos, cartForward, cartUp, follow, height, lookahead, driver, damping)
        == CockpitView(pos, b, driver, lookahead);
    CockpitGeometry(pos, b, driver, lookahead);
  }

  /** `apply_camera_smooth`: forwards to `apply_camera` with the default
      damping; `smoothness` is accepted and not used. */
  function ApplyCameraSmooth(sqrt: real -> real, mode: int, pos: Vec3, cartForward: Vec3, cartUp: Option<Vec3>,
                             follow: real, height: real, lookahead: real, driver: real, smoothness: real): (v: View)
    requires IsSqrt(sqrt)
    ensures Dot(v.up, v.up) == 1.0
  {
    ApplyCamera(sqrt, mode, pos, cartForward, cartUp, follow, height, lookahead, driver, 1.0)
  }

  /** Smoothing is not implemented: the smooth camera is the plain camera,
      whatever the smoothness and damping. */
  lemma SmoothIsPlain(sqrt: real -> real, mode: int, pos: Vec3, cartForward: Vec3, cartUp: Option<Vec3>,
                      follow: real, height: real, lookahead: real, driver: real, smoothness: real, damping: real)
    requires IsSqrt(sqrt)
    ensures ApplyCameraSmooth(sqrt, mode, pos, cartForward, cartUp, follow, height, lookahead, driver, smoothness)
         == ApplyCamera(sqrt, mode, pos, cartForward, cartUp, follow, height, lookahead, driver, damping)
  {
  }

  /** The debugging record of `get_camera_info`. */
  datatype CameraInfo = CameraInfo(mode: int, eye: Vec3, center: Vec3, up: Vec3, forward: Vec3, right: Vec3)

  /** `get_camera_info`: the same placement with fixed offsets (3.0 behind,
      1.5 above, 1.0 ahead; 0.3 for the driver), except that every mode
      other than 0 is reported as first-person and the up hint is used
      without re-orthogonalising it. */
  function GetCameraInfo(sqrt: real -> real, mode: int, pos: Vec3, cartForward: Vec3, cartUp: Option<Vec3>): (r: CameraInfo)
    requires IsSqrt(sqrt)
    ensures r.mode == mode
    ensures r.forward == Normalize(sqrt, cartForward) && r.up == UpHint(sqrt, cartUp)
    ensures Dot(r.forward, r.forward) == 1.0 && Dot(r.right, r.right) == 1.0
  {
    var forward := Normalize(sqrt, cartForward);
    var up := UpHint(sqrt, cartUp);
    var right := Normalize(sqrt, Cross(forward, up));
    if mode == ThirdPerson then
      CameraInfo(mode, Add(Sub(pos, Scale(3.0, forward)), Scale(1.5, up)), Add(pos, Scale(1.0, forward)), up, forward, right)
    else
      CameraInfo(mode, Add(pos, Scale(0.3, up)), Add(pos, Scale(1.0, forward)), up, forward, right)
  }

  /** A unit up hint already perpendicular to forward survives the
      re-orthogonalisation unchanged. */
  lemma PerpendicularUpKept(sqrt: real -> real, cartForward: Vec3, cartUp: Option<Vec3>)
    requires IsSqrt(sqrt)
    requires Dot(UpHint(sqrt, cartUp), Normalize(sqrt, cartForward)) == 0.0
    ensures CameraBasis(sqrt, cartForward, cartUp).up == UpHint(sqrt, cartUp)
  {
    var f := Normalize(sqrt, cartForward);
    var u := UpHint(sqrt, cartUp);
    assert Dot(u, u) == 1.0 by {
      if cartUp.None? {
        WorldUpUnit();
      }
    }
    ReorthogonalizeKeepsPerpendicular(sqrt, f, u);
  }

  lemma WorldUpUnit()
    ensures Dot(WorldUp, WorldUp) == 1.0
  {
  }

  /** With an up hint perpendicular to the cart direction, the debugging
      record agrees with the camera actually applied with the default
      offsets, in mode 0 and in mode 1. */
  lemma InfoMatchesCamera(sqrt: real -> real, mode: int, pos: Vec3, cartForward: Vec3, cartUp: Option<Vec3>)
    requires IsSqrt(sqrt) && (mode == ThirdPerson || mode == FirstPerson)
    requires Dot(UpHint(sqrt, cartUp), Normalize(sqrt, cartForward)) == 0.0
    ensures var info := GetCameraInfo(sqrt, mode, pos, cartForward, cartUp);
      View(info.eye, info.center, info.up) == ApplyCamera(sqrt, mode, pos, cartForward, cartUp, 3.0, 1.5, 1.0, 0.3, 1.0)
  {
    PerpendicularUpKept(sqrt, cartForward, cartUp);
    InfoViews(sqrt, mode, pos, cartForward, cartUp);
  }

  /** The debugging record's eye, centre and up, as views on the basis of
      the cart direction and the unchanged up hint. */
  lemma InfoViews(sqrt: real -> real, mode: int, pos: Vec3, cartForward: Vec3, cartUp: Option<Vec3>)
    requires IsSqrt(sqrt)
    ensures var info := GetCameraInfo(sqrt, mode, pos, cartForward, cartUp);
      var b := Basis(Normalize(sqrt, cartForward), UpHint(sqrt, cartUp));
      View(info.eye, info.center, info.up)
        == if mode == ThirdPerson then ChaseView(pos, b, 3.0, 1.5, 1.0) else CockpitView(pos, b, 0.3, 1.0)
  {
  }

  /** `toggle_camera_mode`: 1 - mode, which swaps 0 and 1. */
  function ToggleCameraMode(mode: int): (r: int)
    ensures mode == ThirdPerson ==> r == FirstPerson
    ensures mode == FirstPerson ==> r == ThirdPerson
  {
    1 - mode
  }

  /** Toggling twice gives back the mode. */
  lemma ToggleInvolution(mode: int)
    ensures ToggleCameraMode(ToggleCameraMode(mode)) == mode
  {
  }

  const ThirdPersonText: string := "Third-person (behind cart)"
  const FirstPersonText: string := "First-person (inside cart)"

  /** `get_camera_description`: the third-person text exactly for mode 0,
      the first-person text for every other mode. */
  function GetCameraDescription(mode: int): (r: string)
    ensures r == ThirdPersonText <==> mode == ThirdPerson
    ensures r == FirstPersonText <==> mode != ThirdPerson
  {
    if mode == ThirdPerson then ThirdPersonText else FirstPersonText
  }
}
