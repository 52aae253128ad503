/**
 * `KinectCoordConversion`: placing the projector from the Kinect camera's
 * pose and the calibration's extrinsic rotation and translation, and the
 * Kinect camera's own world-to-pixel projection.
 *
 * The camera's `cameraToWorldMatrix`, `projectionMatrix`,
 * `worldToCameraMatrix` and pixel size are parameters, and so is Unity's
 * `Quaternion.LookRotation`.
 */
module KinectConversion {
  import opened Linear
  import CalibrationData
  import ArProjection

  /** `P = cameraToWorld * Rotation * Matrix4x4.Translate(Translation)`. */
  function ProjectorMatrix(cameraToWorld: Mat4, rotation: Mat4, translation: Vec3): Mat4 {
    Mul(Mul(cameraToWorld, rotation), Translate(translation))
  }

  /** The negated x, y, z of a column: the forward axis passed to LookRotation. */
  function Backward(c: Vec4): Vec3 { Vec3(-c.x, -c.y, -c.z) }

  /** The x, y, z of a column (the implicit `Vector4 -> Vector3` conversion). */
  function Xyz(c: Vec4): Vec3 { Vec3(c.x, c.y, c.z) }

  /** The projector's transform: the fields SetProjectorTransform writes. */
  class ProjectorTransform {
    var position: Point3
    var rotation: Quat

    constructor ()
      ensures position == Finite(Zero3) && rotation == QuatIdentity
    {
      position := Finite(Zero3);
      rotation := QuatIdentity;
    }
  }

  /**
   * `SetProjectorTransform(projector)`. The inverse computed first is
   * overwritten, so the matrix used for the placement is P itself.
   */
  method SetProjectorTransform(calib: CalibrationData.CalibrationData, cameraToWorld: Mat4,
                               lookRotation: (Vec3, Vec3) -> Quat, projector: ProjectorTransform)
    modifies projector
    ensures var pinv := ProjectorMatrix(cameraToWorld, calib.rotation, calib.translation);
      projector.position == MultiplyPoint(pinv, Zero3) &&
      projector.rotation == lookRotation(Backward(Col(pinv, 2)), Xyz(Col(pinv, 1)))
  {
    var p := Mul(Mul(cameraToWorld, calib.rotation), Translate(calib.translation));
    var pinv := p;
    projector.position := MultiplyPoint(pinv, Zero3);
    projector.rotation := lookRotation(Backward(Col(pinv, 2)), Xyz(Col(pinv, 1)));
  }

  /**
   * For affine camera pose and rotation the projector sits at
   * cameraToWorld applied to the point Rotation * Translation.
   */
  lemma {:induction false} ProjectorPosition(cameraToWorld: Mat4, rotation: Mat4, translation: Vec3)
    requires Affine(cameraToWorld) && Affine(rotation)
    ensures MultiplyPoint(ProjectorMatrix(cameraToWorld, rotation, translation), Zero3)
         == Finite(AffinePoint(cameraToWorld, AffinePoint(rotation, translation)))
  {
    var p := ProjectorMatrix(cameraToWorld, rotation, translation);
    var q := AffinePoint(rotation, translation);
    OriginThroughProjector(cameraToWorld, rotation, translation);
    AffineKeepsW(rotation, translation);
    assert Apply(rotation, Homogeneous(translation)) == Homogeneous(q);
    var h := Apply(cameraToWorld, Homogeneous(q));
    AffineKeepsW(cameraToWorld, q);
    assert Apply(p, Homogeneous(Zero3)) == h;
    assert h.x / h.w == h.x && h.y / h.w == h.y && h.z / h.w == h.z;
  }

  /** The origin goes through P as the translation goes through cameraToWorld * Rotation. */
  lemma {:induction false} OriginThroughProjector(cameraToWorld: Mat4, rotation: Mat4, translation: Vec3)
    ensures Apply(ProjectorMatrix(cameraToWorld, rotation, translation), Homogeneous(Zero3))
         == Apply(cameraToWorld, Apply(rotation, Homogeneous(translation)))
  {
    var o := Homogeneous(Zero3);
    var cr := Mul(cameraToWorld, rotation);
    var h := Homogeneous(translation);
    TranslateOrigin(translation);
    ApplyMul(cr, Translate(translation), o);
    assert Apply(ProjectorMatrix(cameraToWorld, rotation, translation), o) == Apply(cr, h);
    ApplyMul(cameraToWorld, rotation, h);
  }

  /** `Translate(t)` sends the origin to t. */
  lemma {:induction false} TranslateOrigin(t: Vec3)
    ensures Apply(Translate(t), Homogeneous(Zero3)) == Homogeneous(t)
  {
  }

  /** With identity camera pose and rotation the projector sits at the translation. */
  lemma {:induction false} ProjectorAtTranslation(translation: Vec3)
    ensures MultiplyPoint(ProjectorMatrix(Identity, Identity, translation), Zero3) == Finite(translation)
  {
    ProjectorPosition(Identity, Identity, translation);
    IdentityNeutral(Identity, Homogeneous(translation));
  }

  /**
   * The calibration's own rotation is affine, so a loaded calibration and
   * an affine camera pose always place the projector at a finite point.
   */
  lemma {:induction false} CalibratedProjectorFinite(cameraToWorld: Mat4, rotationData: seq<real>, translation: Vec3)
    requires Affine(cameraToWorld) && |rotationData| >= 9
    ensures MultiplyPoint(ProjectorMatrix(cameraToWorld, CalibrationData.RotationOf(rotationData), translation), Zero3).Finite?
  {
    CalibrationData.RotationLayout(rotationData);
    ProjectorPosition(cameraToWorld, CalibrationData.RotationOf(rotationData), translation);
  }


  /**
   * `ManualWorldToScreenPoint(wp)` with the camera's projection matrix:
   * (0, 0, 0) on the focal point, otherwise pixel x, y and the input z. It
   * is the ARClasses projection with `projectionMatrix` in place of `ProjInt`.
   */
  function ManualWorldToScreenPoint(projection: Mat4, worldToCamera: Mat4, pixelWidth: int, pixelHeight: int, wp: Vec3): (r: Vec3)
    ensures r == ArProjection.ManualWorldToScreenPoint(projection, worldToCamera, pixelWidth, pixelHeight, wp)
  {
    var temp := Apply(Mul(projection, worldToCamera), Homogeneous(wp));
    if temp.w == 0.0 then Zero3
    else Vec3(ArProjection.PixelCoord(temp.x / temp.w, pixelWidth), ArProjection.PixelCoord(temp.y / temp.w, pixelHeight), wp.z)
  }

  /**
   * The projection factors through camera space; a point on the focal
   * point gives (0, 0, 0) and any other keeps its z; clip -1 and +1 are the
   * pixel edges 0 and size.
   */
  lemma {:induction false} ScreenPointShape(projection: Mat4, worldToCamera: Mat4, pixelWidth: int, pixelHeight: int, wp: Vec3)
    ensures var temp := Apply(projection, Apply(worldToCamera, Homogeneous(wp)));
      var r := ManualWorldToScreenPoint(projection, worldToCamera, pixelWidth, pixelHeight, wp);
      (temp.w == 0.0 ==> r == Zero3) &&
      (temp.w != 0.0 ==> r == Vec3(ArProjection.PixelCoord(temp.x / temp.w, pixelWidth), ArProjection.PixelCoord(temp.y / temp.w, pixelHeight), wp.z))
    ensures ArProjection.PixelCoord(-1.0, pixelWidth) == 0.0 && ArProjection.PixelCoord(1.0, pixelWidth) == pixelWidth as real
  {
    ApplyMul(projection, worldToCamera, Homogeneous(wp));
  }
}
