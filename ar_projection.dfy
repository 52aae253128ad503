/**
 * The AR revision of `ProjectionCoordConversion` (ARClasses/): the ground
 * plane map, a corner-origin projection into camera pixels, and a
 * distortion correction that is the identity.
 *
 * The calibration's `ProjInt`, the camera's `worldToCameraMatrix` and its
 * pixel size are parameters.
 */
module ArProjection {
  import opened Linear
  import UtilsProjection

  /** ROS position to a Unity position on the ground plane y = 0, as in the canvas revision. */
  function ROSToUnityY0(p: Vec3): (r: Vec3)
    ensures r == UtilsProjection.ROSToUnityY0(p)
  {
    Vec3(-p.y, 0.0, p.x)
  }

  /** Clip coordinate to pixel coordinate: clip -1 is pixel 0, clip +1 is `size`. */
  function PixelCoord(c: real, size: int): real {
    (c + 1.0) * 0.5 * size as real
  }

  /** Pixel coordinate back to clip coordinate. */
  function ClipFromPixel(px: real, size: int): real
    requires size != 0
  {
    px / (0.5 * size as real) - 1.0
  }

  /** The view-projection point `(projInt * worldToCamera) * (wp, 1)`. */
  function ViewProjected(projInt: Mat4, worldToCamera: Mat4, wp: Vec3): Vec4 {
    Apply(Mul(projInt, worldToCamera), Homogeneous(wp))
  }

  /**
   * `ManualWorldToScreenPoint(wp)`: (0, 0, 0) on the focal point (w = 0);
   * otherwise pixel x and y after the division by w, and the input z. For a
   * non-empty camera image, `ClipFromPixel` recovers the clip coordinates.
   */
  function ManualWorldToScreenPoint(projInt: Mat4, worldToCamera: Mat4, pixelWidth: int, pixelHeight: int, wp: Vec3): (r: Vec3)
    ensures var temp := ViewProjected(projInt, worldToCamera, wp);
      temp.w != 0.0 && pixelWidth != 0 && pixelHeight != 0 ==>
        ClipFromPixel(r.x, pixelWidth) == temp.x / temp.w && ClipFromPixel(r.y, pixelHeight) == temp.y / temp.w
  {
    var temp := ViewProjected(projInt, worldToCamera, wp);
    if temp.w == 0.0 then Zero3
    else if pixelWidth != 0 && pixelHeight != 0 then
      PixelRemapInverse(temp.x / temp.w, 0.0, pixelWidth);
      PixelRemapInverse(temp.y / temp.w, 0.0, pixelHeight);
      Vec3(PixelCoord(temp.x / temp.w, pixelWidth), PixelCoord(temp.y / temp.w, pixelHeight), wp.z)
    else Vec3(PixelCoord(temp.x / temp.w, pixelWidth), PixelCoord(temp.y / temp.w, pixelHeight), wp.z)
  }

  /**
   * `RemoveDistortion(pp)`: no correction in this revision, which is the
   * canvas revision's correction with every coefficient zero.
   */
  function RemoveDistortion(pp: Vec2): (r: Vec2)
    ensures r == pp
    ensures r == UtilsProjection.RemoveDistortion(pp, UtilsProjection.NoDistortion)
  {
    UtilsProjection.DistortionFixes(pp, UtilsProjection.NoDistortion);
    pp
  }

  /** The ground-plane map has y = 0 and forgets the input z. */
  lemma {:induction false} ROSToUnityY0Ground(p: Vec3, z: real)
    ensures ROSToUnityY0(p).y == 0.0
    ensures ROSToUnityY0(p) == ROSToUnityY0(p.(z := z))
    ensures ROSToUnityY0(p).x == -p.y && ROSToUnityY0(p).z == p.x
  {
  }

  /** Multiplying by the product matrix is projecting the camera-space point. */
  lemma {:induction false} ViewProjectedComposes(projInt: Mat4, worldToCamera: Mat4, wp: Vec3)
    ensures ViewProjected(projInt, worldToCamera, wp) == Apply(projInt, Apply(worldToCamera, Homogeneous(wp)))
  {
    ApplyMul(projInt, worldToCamera, Homogeneous(wp));
  }

  /** The result is (0, 0, 0) on the focal point, and everywhere else keeps the input z. */
  lemma {:induction false} ScreenPointZ(projInt: Mat4, worldToCamera: Mat4, pixelWidth: int, pixelHeight: int, wp: Vec3)
    ensures ViewProjected(projInt, worldToCamera, wp).w == 0.0 ==>
      ManualWorldToScreenPoint(projInt, worldToCamera, pixelWidth, pixelHeight, wp) == Zero3
    ensures ViewProjected(projInt, worldToCamera, wp).w != 0.0 ==>
      ManualWorldToScreenPoint(projInt, worldToCamera, pixelWidth, pixelHeight, wp).z == wp.z
  {
  }

  /** Corner origin: clip -1 is pixel 0, clip 0 the centre and clip +1 the far edge. */
  lemma {:induction false} PixelEdges(size: int)
    ensures PixelCoord(-1.0, size) == 0.0
    ensures PixelCoord(0.0, size) == size as real / 2.0
    ensures PixelCoord(1.0, size) == size as real
  {
  }

  /** PixelCoord and ClipFromPixel are inverse bijections for a non-zero size. */
  lemma {:induction false} PixelRemapInverse(c: real, px: real, size: int)
    requires size != 0
    ensures ClipFromPixel(PixelCoord(c, size), size) == c
    ensures PixelCoord(ClipFromPixel(px, size), size) == px
  {
    var half := 0.5 * size as real;
    assert (c + 1.0) * 0.5 * size as real == (c + 1.0) * half;
    Cancel(c + 1.0, half);
    assert (px / half - 1.0 + 1.0) * half == px / half * half;
  }

  lemma {:induction false} Cancel(a: real, k: real)
    requires k != 0.0
    ensures a * k / k == a
  {
  }

  /** With a positive size the pixel coordinate grows strictly with the clip coordinate. */
  lemma {:induction false} PixelMonotone(a: real, b: real, size: int)
    requires a < b && size > 0
    ensures PixelCoord(a, size) < PixelCoord(b, size)
  {
    assert PixelCoord(b, size) - PixelCoord(a, size) == (b - a) * 0.5 * size as real;
  }
}
