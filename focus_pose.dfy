/** The Camera Director's target-pose derivation: how a POI record becomes the
    camera position and look-at point of its focused view, with the record's
    defaults, the `cameraSide` offsets, the tilt formula, the sparrow-prince
    scope offset of the newer app, and the intro descent from altitude. Tween
    easing is not modelled: a move is its end pose and its duration. */
module FocusPose {
  import opened Common

  datatype Pose = Pose(position: Vec3, lookAt: Vec3)

  /** A camera move: where it ends and how long it takes (0 = set at once). */
  datatype Tween = Tween(pose: Pose, duration: real)

  /** The overview pose that closing returns to. */
  const Overview: Pose := Pose(Vec3(0.0, 40.0, 50.0), Vec3(0.0, 0.0, 0.0))

  /** The pose the scene starts in, before the intro descent. */
  const IntroStart: Pose := Pose(Vec3(5.0, 4.0, 45.09), Vec3(5.0, 3.5, 42.09))

  /** `poi.cameraTarget || poi.position` */
  function Anchor(p: Poi): Vec3 {
    match p.cameraTarget
    case Some(t) => t
    case None => p.position
  }

  /** `poi.cameraDistance !== undefined ? poi.cameraDistance : 5` */
  function Distance(p: Poi): real {
    match p.cameraDistance
    case Some(d) => d
    case None => 5.0
  }

  /** `poi.cameraHeight || 5`: an explicit 0 is falsy and becomes 5 too. */
  function CameraHeight(p: Poi): (h: real)
    ensures h != 0.0
    ensures p.cameraHeight.Some? && p.cameraHeight.value != 0.0 ==> h == p.cameraHeight.value
    ensures p.cameraHeight.None? || p.cameraHeight == Some(0.0) ==> h == 5.0
  {
    match p.cameraHeight
    case Some(h) => if h != 0.0 then h else 5.0
    case None => 5.0
  }

  /** `poi.targetHeight !== undefined ? poi.targetHeight : 0` */
  function TargetHeight(p: Poi): real {
    match p.targetHeight
    case Some(t) => t
    case None => 0.0
  }

  /** Horizontal offset (x, z) of the camera from the anchor: behind (+z) by
      default and for `'back'` or any unrecognised side. */
  function SideOffset(side: Option<string>, d: real): (real, real) {
    if side == Some("front") then (0.0, -d)
    else if side == Some("right") then (d, 0.0)
    else if side == Some("left") then (-d, 0.0)
    else (0.0, d)
  }

  function Radians(degrees: real): real {
    degrees * PI / 180.0
  }

  /** Height of the look-at point: from the tilt angle when the record has
      one, otherwise the target height. */
  function FocusY(p: Poi, tan: real -> real): real {
    match p.cameraTiltAngle
    case Some(a) => CameraHeight(p) - Distance(p) * tan(Radians(a))
    case None => TargetHeight(p)
  }

  /** The focused pose of a POI. The camera sits at the absolute height
      `cameraHeight`, on one horizontal axis through the anchor at
      `distance` from it, and looks at the anchor's vertical line; with a
      tilt angle the look-at point is lowered accordingly. */
  function Focus(p: Poi, tan: real -> real): (r: Pose)
    ensures r.lookAt.x == Anchor(p).x && r.lookAt.z == Anchor(p).z
    ensures r.position.y == CameraHeight(p)
    ensures r.position.x == r.lookAt.x || r.position.z == r.lookAt.z
    ensures p.cameraTiltAngle.None? ==> r.lookAt.y == TargetHeight(p)
  {
    var a := Anchor(p);
    var d := Distance(p);
    var (dx, dz) := SideOffset(p.cameraSide, d);
    Pose(Vec3(a.x + dx, CameraHeight(p), a.z + dz), Vec3(a.x, FocusY(p, tan), a.z))
  }

  /** The camera is `distance` away from the look-at line horizontally, and
      with a tilt angle the drop from camera to look-at over that distance is
      distance times the tangent of the tilt. */
  lemma FocusGeometry(p: Poi, tan: real -> real)
    ensures var r := Focus(p, tan);
      && Sq(r.position.x - r.lookAt.x) + Sq(r.position.z - r.lookAt.z) == Sq(Distance(p))
      && (p.cameraTiltAngle.Some? ==>
            r.position.y - r.lookAt.y == Distance(p) * tan(Radians(p.cameraTiltAngle.value)))
  {
  }

  /** The four camera sides, spelled out. */
  lemma FocusSides(p: Poi, tan: real -> real)
    ensures var r := Focus(p, tan); var a := Anchor(p); var d := Distance(p);
      && (p.cameraSide == Some("front") ==> r.position == Vec3(a.x, CameraHeight(p), a.z - d))
      && (p.cameraSide == Some("right") ==> r.position == Vec3(a.x + d, CameraHeight(p), a.z))
      && (p.cameraSide == Some("left") ==> r.position == Vec3(a.x - d, CameraHeight(p), a.z))
      && (p.cameraSide !in {Some("front"), Some("right"), Some("left")} ==>
            r.position == Vec3(a.x, CameraHeight(p), a.z + d))
  {
  }

  /** Moving the anchor horizontally moves the focused pose by the same
      amount and leaves every height alone (the camera height is absolute,
      not relative to the anchor). */
  lemma FocusFollowsAnchor(p: Poi, t: Vec3, tan: real -> real)
    ensures var q := p.(cameraTarget := Some(t));
      var shift := Vec3(t.x - Anchor(p).x, 0.0, t.z - Anchor(p).z);
      && Focus(q, tan).position == Plus(Focus(p, tan).position, shift)
      && Focus(q, tan).lookAt == Plus(Focus(p, tan).lookAt, shift)
  {
  }

  /** The newer app's focus move: 2.2 s in scope mode and 1.5 s otherwise;
      for the sparrow prince in scope mode the camera is nudged by
      (+0.2, +0.2, -0.2) and the look-at raised by 0.1. */
  function FocusTween(p: Poi, scopeMode: bool, tan: real -> real): (t: Tween)
    ensures t.duration == if scopeMode then 2.2 else 1.5
    ensures t.pose == Focus(p, tan) <==> !(scopeMode && p.id == SparrowId)
    ensures t.pose.lookAt.x == Anchor(p).x && t.pose.lookAt.z == Anchor(p).z
    ensures Abs(t.pose.position.x - Focus(p, tan).position.x) <= 0.2
    ensures Abs(t.pose.position.y - Focus(p, tan).position.y) <= 0.2
    ensures Abs(t.pose.position.z - Focus(p, tan).position.z) <= 0.2
    ensures !(scopeMode && p.id == SparrowId) ==> t.pose == Focus(p, tan)
    ensures scopeMode && p.id == SparrowId ==>
              t.pose.position == Plus(Focus(p, tan).position, Vec3(0.2, 0.2, -0.2)) &&
              t.pose.lookAt == Plus(Focus(p, tan).lookAt, Vec3(0.0, 0.1, 0.0))
  {
    var f := Focus(p, tan);
    var pose := if scopeMode && p.id == SparrowId
      then Pose(Plus(f.position, Vec3(0.2, 0.2, -0.2)), Plus(f.lookAt, Vec3(0.0, 0.1, 0.0)))
      else f;
    Tween(pose, if scopeMode then 2.2 else 1.5)
  }

  /** The older app's focus move: the same pose rules, always 1.5 s, no
      scope variant. */
  function LegacyFocusTween(p: Poi, tan: real -> real): (t: Tween)
    ensures t == FocusTween(p, false, tan)
    ensures t.duration == 1.5
  {
    Tween(Focus(p, tan), 1.5)
  }

  function Pow5(p: real): real { p * p * p * p * p }

  function Lerp(a: real, b: real, f: real): real { a + (b - a) * f }

  /** The intro descent at progress `p`: x and z move linearly, y with p^5. */
  function Descent(start: Pose, end: Pose, p: real): Pose {
    Pose(Vec3(Lerp(start.position.x, end.position.x, p),
              Lerp(start.position.y, end.position.y, Pow5(p)),
              Lerp(start.position.z, end.position.z, p)),
         Vec3(Lerp(start.lookAt.x, end.lookAt.x, p),
              Lerp(start.lookAt.y, end.lookAt.y, Pow5(p)),
              Lerp(start.lookAt.z, end.lookAt.z, p)))
  }

  /** The descent starts at the start pose and ends at the end pose. */
  lemma DescentEndpoints(start: Pose, end: Pose)
    ensures Descent(start, end, 0.0) == start
    ensures Descent(start, end, 1.0) == end
  {
    assert Pow5(1.0) == 1.0;
    assert Pow5(0.0) == 0.0;
  }

  /** "Drop from altitude": over the whole descent the vertical progress
      p^5 never runs ahead of the horizontal progress p and stays in [0, 1]. */
  lemma {:induction false} DescentVerticalLags(p: real)
    requires 0.0 <= p <= 1.0
    ensures 0.0 <= Pow5(p) <= p
  {
    ShrinkBy(p, p);
    var p2 := p * p;
    ShrinkBy(p2, p);
    var p3 := p2 * p;
    ShrinkBy(p3, p);
    var p4 := p3 * p;
    ShrinkBy(p, p4);
    assert Pow5(p) == p4 * p;
  }

  /** `v` lies between `a` and `b`, whichever is larger. */
  predicate Between(a: real, b: real, v: real) {
    Min(a, b) <= v <= Max(a, b)
  }

  /** A fraction in [0, 1] of the way from `a` to `b` stays between them. */
  lemma LerpBetween(a: real, b: real, f: real)
    requires 0.0 <= f <= 1.0
    ensures Between(a, b, Lerp(a, b, f))
  {
    if a <= b {
      ShrinkBy(b - a, f);
    } else {
      ShrinkBy(a - b, 1.0 - f);
      assert Lerp(a, b, f) == b + (a - b) * (1.0 - f);
    }
  }

  /** A descent that loses height never goes below the straight line: for
      the same progress the camera is at least as high as linear motion
      would put it. */
  lemma LerpLags(a: real, b: real, q: real, p: real)
    requires b <= a && q <= p
    ensures Lerp(a, b, q) >= Lerp(a, b, p)
  {
    var d := a - b;
    assert d * (p - q) >= 0.0 by {
      ProductNonNegative(d, p - q);
    }
    assert (b - a) * q - (b - a) * p == d * (p - q);
  }

  lemma ProductNonNegative(x: real, y: real)
    requires 0.0 <= x && 0.0 <= y
    ensures x * y >= 0.0
  {
  }

  /** Over the whole descent every coordinate of the camera and of its
      look-at point stays between its start and end values, and a camera
      that comes down stays above the straight-line path. */
  lemma DescentStaysBetween(start: Pose, end: Pose, p: real)
    requires 0.0 <= p <= 1.0
    ensures var r := Descent(start, end, p);
      && Between(start.position.x, end.position.x, r.position.x)
      && Between(start.position.y, end.position.y, r.position.y)
      && Between(start.position.z, end.position.z, r.position.z)
      && Between(start.lookAt.x, end.lookAt.x, r.lookAt.x)
      && Between(start.lookAt.y, end.lookAt.y, r.lookAt.y)
      && Between(start.lookAt.z, end.lookAt.z, r.lookAt.z)
    ensures end.position.y <= start.position.y ==>
              Descent(start, end, p).position.y >= Lerp(start.position.y, end.position.y, p)
  {
    DescentVerticalLags(p);
    var q := Pow5(p);
    LerpBetween(start.position.x, end.position.x, p);
    LerpBetween(start.position.y, end.position.y, q);
    LerpBetween(start.position.z, end.position.z, p);
    LerpBetween(start.lookAt.x, end.lookAt.x, p);
    LerpBetween(start.lookAt.y, end.lookAt.y, q);
    LerpBetween(start.lookAt.z, end.lookAt.z, p);
    if end.position.y <= start.position.y {
      LerpLags(start.position.y, end.position.y, q, p);
    }
  }
}
