/**
 * The canvas action object of `Objects/ActionObject.cs`
 * (`Assets.Scripts.ARClasses.ActionObject`, the revision that draws a
 * flat `Square` or `Circle` and tints it): model and scale selection,
 * colour, and the scene position on the canvas. The conversions it calls
 * are those of the Utils revision of `ProjectionCoordConversion`, the only
 * one with `ROSToCanvas` and `ROSToCanvasScale`.
 */
module ObjectsActionObject {
  import opened Wrappers
  import opened Linear
  import opened Records
  import opened ArActionPoint
  import UtilsProjection

  /** The two prefabs a canvas object instantiates. */
  datatype Shape = Square | Circle

  /** The serialized colours `UpdateColor` chooses from. */
  datatype Tint = ActionObjectColor | CollisionObjectColor | RobotColor

  /**
   * The instantiated `Model`: the prefab, its `localScale`, and the
   * colour of its `Image` (`None` while it still has the prefab's colour).
   */
  datatype Model2D = Model2D(shape: Shape, scale: Vec3, color: Option<Tint>)

  /** The uniform scale of the fallback square. */
  const FallbackScale: Vec3 := Vec3(0.05, 0.05, 0.05)

  /**
   * The prefab and scale `CreateModel` picks for the type's collision
   * model: a square sized by the box (through `ROSToCanvasScale`), a
   * circle for a cylinder or a sphere, and the small square otherwise.
   */
  function CanvasModel(om: Option<ObjectModel>): (r: (Shape, Vec3))
    ensures r.0 == Circle <==> om.Some? && (om.value.CylinderModel? || om.value.SphereModel?)
    ensures om.Some? && om.value.BoxModel? ==> r.1 == Vec3(om.value.sizeY, om.value.sizeX, om.value.sizeZ)
    ensures om.Some? && om.value.CylinderModel? ==> r.1 == Vec3(om.value.radius, om.value.height / 2.0, om.value.radius)
    ensures om.Some? && om.value.SphereModel? ==> r.1 == Vec3(om.value.radius, om.value.radius, om.value.radius)
    ensures (om.None? || om.value.MeshModel? || om.value.NoneModel?) ==> r == (Square, FallbackScale)
  {
    if om.None? then (Square, FallbackScale)
    else match om.value
      case BoxModel(x, y, z) => (Square, UtilsProjection.ROSToCanvasScale(Vec3(x, y, z)))
      case CylinderModel(r, h) => (Circle, Vec3(r, h / 2.0, r))
      case SphereModel(r) => (Circle, Vec3(r, r, r))
      case _ => (Square, FallbackScale)
  }

  /**
   * The dimensions `UpdateModel` computes, all through `ROSToCanvasScale`;
   * `None` when there is no collision model or its type has no size.
   */
  function CanvasDimensions(om: Option<ObjectModel>): (r: Option<Vec3>)
    ensures r.Some? <==> om.Some? && (om.value.BoxModel? || om.value.CylinderModel? || om.value.SphereModel?)
    ensures om.Some? && om.value.CylinderModel? ==> r == Some(Vec3(om.value.radius, om.value.radius, om.value.height))
  {
    if om.None? then None
    else match om.value
      case BoxModel(x, y, z) => Some(UtilsProjection.ROSToCanvasScale(Vec3(x, y, z)))
      case SphereModel(r) => Some(UtilsProjection.ROSToCanvasScale(Vec3(r, r, r)))
      case CylinderModel(r, h) => Some(UtilsProjection.ROSToCanvasScale(Vec3(r, r, h)))
      case _ => None
  }

  /** `UpdateColor`'s choice: a collision object wins over a robot, and anything else is an action object. */
  function TintOf(m: Metadata): (t: Tint)
    ensures t == CollisionObjectColor <==> m.collisionObject
    ensures t == RobotColor <==> !m.collisionObject && m.robot
    ensures t == ActionObjectColor <==> !m.collisionObject && !m.robot
  {
    if m.collisionObject then CollisionObjectColor
    else if m.robot then RobotColor
    else ActionObjectColor
  }

  /**
   * `GetScenePosition()` once the object has a pose: the ROS position on
   * the ground plane, or the kinect's 2D projection of it widened with z = 0.
   */
  function CanvasPosition(position: Vec3, view: SceneView): (r: Vec3)
    ensures !view.kinectPresent ==> r == Vec3(-position.y, 0.0, position.x)
    ensures view.kinectPresent ==> r.z == 0.0
  {
    var newPos := UtilsProjection.ROSToUnityY0(position);
    if view.kinectPresent then Widen(view.screenPoint(newPos)) else newPos
  }

  /**
   * Right after `CreateModel`, `UpdateModel` keeps the scale of a box and
   * of a sphere, and changes that of a cylinder unless its radius and
   * height are both zero: the two disagree on which axis is the height.
   */
  lemma {:induction false} UpdateAfterCreate(om: ObjectModel)
    ensures om.BoxModel? || om.SphereModel? ==> CanvasDimensions(Some(om)) == Some(CanvasModel(Some(om)).1)
    ensures om.CylinderModel? ==> (CanvasDimensions(Some(om)) == Some(CanvasModel(Some(om)).1) <==> om.radius == 0.0 && om.height == 0.0)
    ensures om.MeshModel? || om.NoneModel? ==> CanvasDimensions(Some(om)) == None
  {
    if om.CylinderModel? {
      var r, h := om.radius, om.height;
      if Vec3(r, r, h) == Vec3(r, h / 2.0, r) {
        assert r == h / 2.0 && h == r;
      }
    }
  }

  class ActionObject {
    /** `Data`. */
    var data: SceneObject
    /** `ActionObjectMetadata`, set once by `InitActionObject`. */
    const metadata: Metadata
    /** `Model`: null until `CreateModel` instantiates a prefab. */
    var model: Option<Model2D>
    /** The instance's `transform.localPosition` and `transform.localRotation`. */
    var localPosition: Vec3
    var localRotation: Quat

    /**
     * `InitActionObject` on a fresh instance: id and type are copied into
     * the default record, a type with a pose stores the converted
     * transform, and `CreateModel` draws and tints the model.
     */
    constructor (sceneObject: SceneObject, position: Vec3, orientation: Quat, aom: Metadata, conv: Convertor)
      ensures data.id == sceneObject.id && data.objectType == sceneObject.objectType && data.name == ""
      ensures aom.meta.hasPose ==> data.pose == Some(Pose(conv.unityToROS(position), conv.unityToROSRotation(orientation)))
      ensures !aom.meta.hasPose ==> data.pose == EmptySceneObject.pose
      ensures metadata == aom && localPosition == position && localRotation == orientation
      ensures model == Some(Model2D(CanvasModel(aom.meta.objectModel).0, CanvasModel(aom.meta.objectModel).1, Some(TintOf(aom))))
    {
      data := EmptySceneObject.(id := sceneObject.id, objectType := sceneObject.objectType);
      metadata := aom;
      model := None;
      localPosition := position;
      localRotation := orientation;
      new;
      if metadata.meta.hasPose {
        data := data.(pose := Some(Pose(conv.unityToROS(position), conv.unityToROSRotation(orientation))));
      }
      CreateModel();
    }

    /** `CreateModel()`: a new prefab instance of the chosen shape and scale, then `UpdateColor()`. */
    method CreateModel()
      modifies this
      ensures model == Some(Model2D(CanvasModel(metadata.meta.objectModel).0, CanvasModel(metadata.meta.objectModel).1, Some(TintOf(metadata))))
      ensures data == old(data) && localPosition == old(localPosition) && localRotation == old(localRotation)
    {
      var (shape, scale) := CanvasModel(metadata.meta.objectModel);
      model := Some(Model2D(shape, scale, None));
      var _ := UpdateColor();
    }

    /**
     * `UpdateColor()`: the model's image takes the colour `TintOf` picks;
     * without a model, `Model.GetComponent` throws.
     */
    method UpdateColor() returns (s: Status)
      modifies this
      ensures old(model).None? ==> s == Threw(NullReference) && model == old(model)
      ensures old(model).Some? ==> s == Done && model == Some(old(model).value.(color := Some(TintOf(metadata))))
      ensures data == old(data) && localPosition == old(localPosition) && localRotation == old(localRotation)
    {
      if model.None? {
        return Threw(NullReference);
      }
      model := Some(model.value.(color := Some(TintOf(metadata))));
      s := Done;
    }

    /**
     * `UpdateModel()`: the model is rescaled to the type's dimensions; a
     * type without dimensions leaves it alone, and dimensions with no model
     * to apply them to throw.
     */
    method UpdateModel() returns (s: Status)
      modifies this
      ensures CanvasDimensions(metadata.meta.objectModel).None? ==> s == Done && model == old(model)
      ensures CanvasDimensions(metadata.meta.objectModel).Some? && old(model).None? ==> s == Threw(NullReference) && model == old(model)
      ensures CanvasDimensions(metadata.meta.objectModel).Some? && old(model).Some? ==>
        s == Done && model == Some(old(model).value.(scale := CanvasDimensions(metadata.meta.objectModel).value))
      ensures data == old(data) && localPosition == old(localPosition) && localRotation == old(localRotation)
    {
      var dimensions := CanvasDimensions(metadata.meta.objectModel);
      if dimensions.Some? {
        if model.None? {
          return Threw(NullReference);
        }
        model := Some(model.value.(scale := dimensions.value));
      }
      s := Done;
    }

    /**
     * `GetScenePosition()`: zero for a type without a pose; otherwise the
     * canvas position of the record's pose, which throws when the pose is null.
     */
    function GetScenePosition(view: SceneView): (r: Result<Vec3>)
      reads this
      ensures !metadata.meta.hasPose ==> r == Ok(Zero3)
      ensures metadata.meta.hasPose && data.pose.None? ==> r == Throws(NullReference)
      ensures metadata.meta.hasPose && data.pose.Some? ==> r == Ok(CanvasPosition(data.pose.value.position, view))
    {
      if !metadata.meta.hasPose then Ok(Zero3)
      else if data.pose.None? then Throws(NullReference)
      else Ok(CanvasPosition(data.pose.value.position, view))
    }

    /** `GetSceneOrientation()`: the record's orientation turned onto the canvas. */
    function GetSceneOrientation(): (r: Result<Quat>)
      reads this
      ensures r.Ok? <==> data.pose.Some?
      ensures r.Ok? ==> UtilsProjection.CanvasToROS(r.value) == data.pose.value.orientation
    {
      if data.pose.None? then Throws(NullReference)
      else Ok(UtilsProjection.ROSToCanvas(data.pose.value.orientation))
    }

    /**
     * `ResetPosition()`: a type with a pose moves the transform to the
     * record's scene position and orientation; a type without one changes nothing.
     */
    method ResetPosition(view: SceneView) returns (s: Status)
      modifies this
      ensures !metadata.meta.hasPose ==> s == Done && localPosition == old(localPosition) && localRotation == old(localRotation)
      ensures metadata.meta.hasPose && data.pose.None? ==> s == Threw(NullReference) && localPosition == old(localPosition) && localRotation == old(localRotation)
      ensures metadata.meta.hasPose && data.pose.Some? ==>
        s == Done && localPosition == GetScenePosition(view).value && localRotation == GetSceneOrientation().value
      ensures data == old(data) && model == old(model)
    {
      if metadata.meta.hasPose {
        var position := GetScenePosition(view);
        if position.Throws? {
          return Threw(position.error);
        }
        localPosition := position.value;
        localRotation := GetSceneOrientation().value;
      }
      s := Done;
    }

    /** `ActionObjectUpdate(actionObjectSwagger)`: the record is replaced, then `ResetPosition()`. */
    method ActionObjectUpdate(actionObjectSwagger: SceneObject, view: SceneView) returns (s: Status)
      modifies this
      ensures data == actionObjectSwagger && model == old(model)
      ensures !metadata.meta.hasPose ==> s == Done && localPosition == old(localPosition) && localRotation == old(localRotation)
      ensures metadata.meta.hasPose && data.pose.None? ==> s == Threw(NullReference)
      ensures metadata.meta.hasPose && data.pose.Some? ==>
        s == Done && localPosition == CanvasPosition(actionObjectSwagger.pose.value.position, view)
        && localRotation == UtilsProjection.ROSToCanvas(actionObjectSwagger.pose.value.orientation)
    {
      data := actionObjectSwagger;
      s := ResetPosition(view);
    }

    /** `GetActionPoints()`: the action points of the project whose parent is this object. */
    method GetActionPoints(table: ActionPointTable) returns (aps: seq<ActionPoint>)
      ensures forall a :: a in aps <==> a in table.entries.Values && a.data.parent == Some(data.id)
    {
      aps := ChildrenOf(table, data.id);
    }
  }
}
