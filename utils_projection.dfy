/**
 * The canvas revision of `ProjectionCoordConversion` (Utils/): axis maps
 * between the ROS convention (x forward, y left, z up, REP 103 "Axis
 * Orientation") and the Unity canvas, the projection of a world point onto
 * the projector canvas, and the Brown-Conrady distortion polynomial.
 *
 * The projector's `worldToLocalMatrix`, the calibration's `ProjInt`,
 * `Width` and `Height`, and the distortion coefficients are parameters.
 */
module UtilsProjection {
  import opened Linear

  // ---------------------------------------------------------------------
  // Axis maps

  /** ROS position to a Unity position on the ground plane y = 0. */
  function ROSToUnityY0(p: Vec3): (r: Vec3)
    ensures r.y == 0.0
    ensures UnityY0ToROS(r) == p.(z := 0.0)
  {
    Vec3(-p.y, 0.0, p.x)
  }

  /** ROS orientation to canvas orientation: (x, y, z, w) to (y, -x, z, w). */
  function ROSToCanvas(q: Quat): (r: Quat)
    ensures CanvasToROS(r) == q
    ensures NormSq(r) == NormSq(q)
  {
    Quat(q.y, -q.x, q.z, q.w)
  }

  /** ROS scale to canvas scale: x and y exchanged, so exchanging them again restores `s`. */
  function ROSToCanvasScale(s: Vec3): (r: Vec3)
    ensures Vec3(r.y, r.x, r.z) == s
  {
    Vec3(s.y, s.x, s.z)
  }

  /** The inverse direction of ROSToUnityY0 on the ground plane (z dropped). */
  function UnityY0ToROS(u: Vec3): Vec3 {
    Vec3(u.z, -u.x, 0.0)
  }

  /** The inverse of ROSToCanvas: a quarter turn of (x, y) the other way. */
  function CanvasToROS(q: Quat): Quat {
    Quat(-q.y, q.x, q.z, q.w)
  }

  function NormSq(q: Quat): real {
    q.x * q.x + q.y * q.y + q.z * q.z + q.w * q.w
  }

  /**
   * The ground-plane map always yields y = 0, ignores the input z, and
   * distinguishes exactly the inputs whose x or y differ.
   */
  lemma {:induction false} ROSToUnityY0Ground(p: Vec3, q: Vec3)
    ensures ROSToUnityY0(p).y == 0.0
    ensures ROSToUnityY0(p) == ROSToUnityY0(p.(z := q.z))
    ensures ROSToUnityY0(p) == ROSToUnityY0(q) <==> p.x == q.x && p.y == q.y
  {
  }

  /** UnityY0ToROS undoes ROSToUnityY0 up to the dropped z, and conversely up to the dropped y. */
  lemma {:induction false} ROSToUnityY0RoundTrip(p: Vec3, u: Vec3)
    ensures UnityY0ToROS(ROSToUnityY0(p)) == p.(z := 0.0)
    ensures ROSToUnityY0(UnityY0ToROS(u)) == u.(y := 0.0)
  {
  }

  /** Exchanging x and y twice gives the input back. */
  lemma {:induction false} ROSToCanvasScaleInvolution(s: Vec3)
    ensures ROSToCanvasScale(ROSToCanvasScale(s)) == s
    ensures ROSToCanvasScale(s).z == s.z
  {
  }

  /**
   * ROSToCanvas keeps z, w and the squared norm, CanvasToROS is its inverse
   * on both sides, and four applications are the identity.
   */
  lemma {:induction false} ROSToCanvasQuarterTurn(q: Quat)
    ensures ROSToCanvas(q).z == q.z && ROSToCanvas(q).w == q.w
    ensures NormSq(ROSToCanvas(q)) == NormSq(q)
    ensures CanvasToROS(ROSToCanvas(q)) == q && ROSToCanvas(CanvasToROS(q)) == q
    ensures ROSToCanvas(ROSToCanvas(q)) == Quat(-q.x, -q.y, q.z, q.w)
    ensures ROSToCanvas(ROSToCanvas(ROSToCanvas(ROSToCanvas(q)))) == q
  {
  }

  // ---------------------------------------------------------------------
  // Projection onto the canvas

  /** `worldToLocal * (wp, 1)` with its y negated. */
  function LocalPoint(worldToLocal: Mat4, wp: Vec3): Vec4 {
    var l := Apply(worldToLocal, Homogeneous(wp));
    l.(y := -l.y)
  }

  /** The clip-space point `projInt * local`. */
  function ClipPoint(projInt: Mat4, worldToLocal: Mat4, wp: Vec3): Vec4 {
    Apply(projInt, LocalPoint(worldToLocal, wp))
  }

  /** Clip x to canvas x: the half width is the integer division `width / 2`. */
  function CanvasX(cx: real, width: int): real {
    (cx + 1.0) * 0.5 * width as real - CsDiv(width, 2) as real
  }

  /** Clip y to canvas y, flipped: clip +1 is the top edge 0. */
  function CanvasY(cy: real, height: int): real {
    (cy + 1.0) * 0.5 * (-height) as real + height as real
  }

  /**
   * `ManualWorldToScreenPoint(wp)`: the point on the focal point (w = 0)
   * maps to the origin, every other point is divided by w and remapped.
   * On a non-empty canvas `ClipFromCanvasX/Y` recover the clip coordinates.
   */
  function ManualWorldToScreenPoint(projInt: Mat4, worldToLocal: Mat4, width: int, height: int, wp: Vec3): (r: Vec2)
    ensures var temp := ClipPoint(projInt, worldToLocal, wp);
      temp.w != 0.0 && width != 0 && height != 0 ==>
        ClipFromCanvasX(r.x, width) == temp.x / temp.w && ClipFromCanvasY(r.y, height) == temp.y / temp.w
  {
    var temp := ClipPoint(projInt, worldToLocal, wp);
    if temp.w == 0.0 then Zero2
    else if width != 0 && height != 0 then
      CanvasRemapInverse(temp.x / temp.w, 0.0, width, height);
      CanvasRemapInverse(temp.y / temp.w, 0.0, width, height);
      Vec2(CanvasX(temp.x / temp.w, width), CanvasY(temp.y / temp.w, height))
    else Vec2(CanvasX(temp.x / temp.w, width), CanvasY(temp.y / temp.w, height))
  }

  /** diag(1, -1, 1, 1): the y negation of the local point as a matrix. */
  const FlipY: Mat4 := Mat4(Vec4(1.0, 0.0, 0.0, 0.0), Vec4(0.0, -1.0, 0.0, 0.0),
                            Vec4(0.0, 0.0, 1.0, 0.0), UnitW)

  /** Canvas x back to clip x (a width of 0 collapses the canvas). */
  function ClipFromCanvasX(px: real, width: int): real
    requires width != 0
  {
    (px + CsDiv(width, 2) as real) / (0.5 * width as real) - 1.0
  }

  /** Canvas y back to clip y. */
  function ClipFromCanvasY(py: real, height: int): real
    requires height != 0
  {
    1.0 - (py / height as real) * 2.0
  }

  /** The clip point is the whole chain `projInt * FlipY * worldToLocal` applied to (wp, 1). */
  lemma {:induction false} ClipPointComposes(projInt: Mat4, worldToLocal: Mat4, wp: Vec3)
    ensures LocalPoint(worldToLocal, wp) == Apply(FlipY, Apply(worldToLocal, Homogeneous(wp)))
    ensures ClipPoint(projInt, worldToLocal, wp) == Apply(Mul(Mul(projInt, FlipY), worldToLocal), Homogeneous(wp))
  {
    var h := Homogeneous(wp);
    ApplyMul(Mul(projInt, FlipY), worldToLocal, h);
    ApplyMul(projInt, FlipY, Apply(worldToLocal, h));
  }

  /**
   * With an affine `ProjInt` (bottom row (0, 0, 0, 1), as the calibration
   * builds it) the clip w is the local w; when the world-to-local matrix is
   * affine too, w is 1 and the point is never sent to the origin.
   */
  lemma {:induction false} AffineClipW(projInt: Mat4, worldToLocal: Mat4, wp: Vec3, width: int, height: int)
    requires Affine(projInt)
    ensures ClipPoint(projInt, worldToLocal, wp).w == LocalPoint(worldToLocal, wp).w
    ensures Affine(worldToLocal) ==>
      var temp := ClipPoint(projInt, worldToLocal, wp);
      temp.w == 1.0 &&
      ManualWorldToScreenPoint(projInt, worldToLocal, width, height, wp) == Vec2(CanvasX(temp.x, width), CanvasY(temp.y, height))
  {
    var temp := ClipPoint(projInt, worldToLocal, wp);
    if Affine(worldToLocal) {
      assert temp.w == 1.0;
      assert temp.x / temp.w == temp.x && temp.y / temp.w == temp.y;
    }
  }

  /** A point whose clip w is 0 lands on the canvas origin. */
  lemma {:induction false} FocalPointToOrigin(projInt: Mat4, worldToLocal: Mat4, width: int, height: int, wp: Vec3)
    requires ClipPoint(projInt, worldToLocal, wp).w == 0.0
    ensures ManualWorldToScreenPoint(projInt, worldToLocal, width, height, wp) == Zero2
  {
  }

  /**
   * The canvas edges: clip x -1 is -(width / 2) and clip x 0 is 0 for an
   * even width; clip y +1 is 0, -1 is height and 0 is height / 2.
   */
  lemma {:induction false} CanvasEdges(width: int, height: int)
    ensures CanvasX(-1.0, width) == -(CsDiv(width, 2) as real)
    ensures CanvasX(1.0, width) == width as real - CsDiv(width, 2) as real
    ensures width % 2 == 0 ==> CanvasX(0.0, width) == 0.0
    ensures CanvasY(1.0, height) == 0.0
    ensures CanvasY(-1.0, height) == height as real
    ensures CanvasY(0.0, height) == height as real / 2.0
  {
    if width % 2 == 0 {
      var h := CsDiv(width, 2);
      if width >= 0 {
        assert h == width / 2;
      } else {
        assert h == -((-width) / 2);
      }
      assert width == 2 * h;
    }
  }

  /** The canvas remaps are bijections: ClipFromCanvasX/Y invert them on both sides. */
  lemma {:induction false} CanvasRemapInverse(c: real, p: real, width: int, height: int)
    requires width != 0 && height != 0
    ensures ClipFromCanvasX(CanvasX(c, width), width) == c
    ensures CanvasX(ClipFromCanvasX(p, width), width) == p
    ensures ClipFromCanvasY(CanvasY(c, height), height) == c
    ensures CanvasY(ClipFromCanvasY(p, height), height) == p
  {
    var w, off := width as real, CsDiv(width, 2) as real;
    assert (c + 1.0) * 0.5 * w == (c + 1.0) * (0.5 * w);
    assert (ClipFromCanvasX(p, width) + 1.0) * 0.5 * w == ((p + off) / (0.5 * w) - 1.0 + 1.0) * (0.5 * w);
    ScaleShiftInverse(c, p, 0.5 * w, off);
    FlipInverse(c, p, height as real);
  }

  /** Scaling by s and shifting by off, after shifting clip space by 1, is undone by the reverse steps. */
  lemma {:induction false} ScaleShiftInverse(c: real, p: real, s: real, off: real)
    requires s != 0.0
    ensures ((c + 1.0) * s - off + off) / s - 1.0 == c
    ensures ((p + off) / s - 1.0 + 1.0) * s - off == p
  {
    DivOf((c + 1.0) * s - off + off, c + 1.0, s);
    DivOf(p + off, (p + off) / s, s);
  }

  /** The flipped remap y = (c + 1) / 2 * (-h) + h is undone by c = 1 - 2 y / h, both ways. */
  lemma {:induction false} FlipInverse(c: real, p: real, h: real)
    requires h != 0.0
    ensures 1.0 - (((c + 1.0) * 0.5 * -h + h) / h) * 2.0 == c
    ensures (1.0 - (p / h) * 2.0 + 1.0) * 0.5 * -h + h == p
  {
    DivOf((c + 1.0) * 0.5 * -h + h, 1.0 - (c + 1.0) * 0.5, h);
    DivOf(p, p / h, h);
  }

  /** A quotient is the factor that multiplies the divisor back to the dividend. */
  lemma {:induction false} DivOf(x: real, y: real, k: real)
    requires k != 0.0 && x == y * k
    ensures x / k == y
  {
  }

  /** On a canvas of positive size, x grows with clip x and y falls as clip y grows. */
  lemma {:induction false} CanvasMonotone(a: real, b: real, width: int, height: int)
    requires a < b && width > 0 && height > 0
    ensures CanvasX(a, width) < CanvasX(b, width)
    ensures CanvasY(a, height) > CanvasY(b, height)
  {
    var w, h := width as real, height as real;
    assert (b + 1.0) * 0.5 * w - (a + 1.0) * 0.5 * w == (b - a) * 0.5 * w;
    assert (a + 1.0) * 0.5 * (-h) - (b + 1.0) * 0.5 * (-h) == (b - a) * 0.5 * h;
  }

  // ---------------------------------------------------------------------
  // Distortion

  /** The five OpenCV distortion coefficients k1, k2, p1, p2, k3. */
  datatype Distortion = Distortion(k1: real, k2: real, p1: real, p2: real, k3: real)

  const NoDistortion: Distortion := Distortion(0.0, 0.0, 0.0, 0.0, 0.0)

  /** The squared distance from the optical centre. */
  function SqNorm(x: real, y: real): real { x * x + y * y }

  /** The radial factor 1 + k1 r^2 + k2 r^4 + k3 r^6. */
  function RadialFactor(r2: real, k1: real, k2: real, k3: real): real {
    1.0 + k1 * r2 + k2 * r2 * r2 + k3 * r2 * r2 * r2
  }

  /** The tangential correction of x: 2 p1 x y + p2 (r^2 + 2 x^2). */
  function TangentialX(x: real, y: real, p1: real, p2: real): real {
    2.0 * p1 * x * y + p2 * (SqNorm(x, y) + 2.0 * x * x)
  }

  /** The tangential correction of y: p1 (r^2 + 2 y^2) + 2 p2 x y. */
  function TangentialY(x: real, y: real, p1: real, p2: real): real {
    p1 * (SqNorm(x, y) + 2.0 * y * y) + 2.0 * p2 * x * y
  }

  /**
   * `RemoveDistortion(inputPoint)`: the radial factor scales the point and
   * the tangential terms (p1, p2) are added.
   */
  function RemoveDistortion(p: Vec2, d: Distortion): (r: Vec2)
    ensures p == Zero2 ==> r == Zero2
    ensures d == NoDistortion ==> r == p
  {
    Vec2(CorrectedX(p.x, p.y, d), CorrectedY(p.x, p.y, d))
  }

  /** The corrected x: x scaled by the radial factor plus the tangential term. */
  function CorrectedX(x: real, y: real, d: Distortion): real {
    x * RadialFactor(SqNorm(x, y), d.k1, d.k2, d.k3) + TangentialX(x, y, d.p1, d.p2)
  }

  /** The corrected y. */
  function CorrectedY(x: real, y: real, d: Distortion): real {
    y * RadialFactor(SqNorm(x, y), d.k1, d.k2, d.k3) + TangentialY(x, y, d.p1, d.p2)
  }

  /** The optical centre is fixed whatever the coefficients, and zero coefficients change nothing. */
  lemma {:induction false} DistortionFixes(p: Vec2, d: Distortion)
    ensures RemoveDistortion(Zero2, d) == Zero2
    ensures RemoveDistortion(p, NoDistortion) == p
  {
  }

  /**
   * Without tangential terms the correction moves a point along its ray from
   * the centre by the radial factor, and is odd: -p maps to the negation.
   */
  lemma {:induction false} RadialOnly(p: Vec2, d: Distortion)
    requires d.p1 == 0.0 && d.p2 == 0.0
    ensures var f := RadialFactor(SqNorm(p.x, p.y), d.k1, d.k2, d.k3);
      RemoveDistortion(p, d) == Vec2(p.x * f, p.y * f)
    ensures RemoveDistortion(Vec2(-p.x, -p.y), d) == Vec2(-RemoveDistortion(p, d).x, -RemoveDistortion(p, d).y)
  {
    assert SqNorm(-p.x, -p.y) == SqNorm(p.x, p.y);
  }

  /**
   * Mirroring the point in the diagonal (x and y exchanged) and exchanging
   * p1 with p2 mirrors the corrected point.
   */
  lemma {:induction false} DistortionMirror(p: Vec2, d: Distortion)
    ensures var m := RemoveDistortion(Vec2(p.y, p.x), d.(p1 := d.p2, p2 := d.p1));
      m == Vec2(RemoveDistortion(p, d).y, RemoveDistortion(p, d).x)
  {
    CorrectedMirror(p.x, p.y, d);
    CorrectedMirror(p.y, p.x, d.(p1 := d.p2, p2 := d.p1));
  }

  /** The mirror property one coordinate at a time. */
  lemma {:induction false} CorrectedMirror(x: real, y: real, d: Distortion)
    ensures CorrectedX(y, x, d.(p1 := d.p2, p2 := d.p1)) == CorrectedY(x, y, d)
  {
    RadialSymmetric(x, y, d.k1, d.k2, d.k3);
    TangentialMirror(x, y, d.p1, d.p2);
  }

  lemma {:induction false} RadialSymmetric(x: real, y: real, k1: real, k2: real, k3: real)
    ensures RadialFactor(SqNorm(y, x), k1, k2, k3) == RadialFactor(SqNorm(x, y), k1, k2, k3)
  {
    SqNormSymmetric(x, y);
  }

  lemma {:induction false} SqNormSymmetric(x: real, y: real)
    ensures SqNorm(y, x) == SqNorm(x, y)
  {
  }

  lemma {:induction false} TangentialMirror(x: real, y: real, p1: real, p2: real)
    ensures TangentialX(y, x, p2, p1) == TangentialY(x, y, p1, p2)
  {
    SqNormSymmetric(x, y);
    assert p2 * y * x == p2 * x * y;
  }
}
