/**
 * `ActionPoint2D`, the canvas action point: where the base action point's
 * abstract scene position and orientation come from. The marker it
 * instantiates on the canvas when a kinect exists is a Unity side effect
 * and not modelled.
 */
module ActionPoint2D {
  import opened Linear
  import UtilsProjection

  /**
   * `GetScenePosition()`: the ground-plane position of the ROS position.
   * The kinect only decides whether a canvas marker is drawn, so the
   * result does not depend on `kinectPresent`.
   */
  function GetScenePosition(position: Vec3, kinectPresent: bool): (r: Vec3)
    ensures r.y == 0.0
    ensures UtilsProjection.UnityY0ToROS(r) == position.(z := 0.0)
  {
    UtilsProjection.ROSToUnityY0(position)
  }

  /** `GetSceneOrientation()`: always the identity rotation. */
  function GetSceneOrientation(): (q: Quat)
    ensures q == QuatIdentity
  {
    Quat(0.0, 0.0, 0.0, 1.0)
  }

  /** The scene position lies on the ground plane and does not depend on the kinect or the ROS height. */
  lemma {:induction false} ScenePositionOnGround(position: Vec3, kinectPresent: bool)
    ensures GetScenePosition(position, kinectPresent).y == 0.0
    ensures GetScenePosition(position, kinectPresent) == GetScenePosition(position.(z := 0.0), !kinectPresent)
  {
    UtilsProjection.ROSToUnityY0Ground(position, position.(z := 0.0));
  }
}
