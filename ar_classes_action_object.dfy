/**
 * The older revision of `Assets.Scripts.ARClasses.ActionObject`
 * (ARClasses/ActionObject.cs): the same flat prefabs as the canvas
 * object, but sized through `TransformConvertor.ROSToUnityScale`, with no
 * colour and no null check on the collision model, and a `ResetPosition`
 * that always moves the transform. Its positions use the ARClasses
 * revision of `ProjectionCoordConversion`; the `ROSToUnityCanvas` it calls
 * for the orientation is defined in neither revision and is a parameter here.
 */
module ArClassesActionObject {
  import opened Wrappers
  import opened Linear
  import opened Records
  import opened ArActionPoint
  import opened ObjectsActionObject

  /**
   * The prefab and scale this revision's `CreateModel` picks for a present
   * collision model: a square sized by `ROSToUnityScale` for a box, a
   * circle for a cylinder or a sphere, and the small square otherwise.
   */
  function FlatModel(om: ObjectModel, conv: Convertor): (r: (Shape, Vec3))
    ensures r.0 == Circle <==> om.CylinderModel? || om.SphereModel?
    ensures om.BoxModel? ==> r.1 == conv.rosToUnityScale(Vec3(om.sizeX, om.sizeY, om.sizeZ))
    ensures om.CylinderModel? ==> r.1 == Vec3(om.radius, om.height / 2.0, om.radius)
    ensures om.SphereModel? ==> r.1 == Vec3(om.radius, om.radius, om.radius)
    ensures om.MeshModel? || om.NoneModel? ==> r == (Square, FallbackScale)
  {
    match om
    case BoxModel(x, y, z) => (Square, conv.rosToUnityScale(Vec3(x, y, z)))
    case CylinderModel(r, h) => (Circle, Vec3(r, h / 2.0, r))
    case SphereModel(r) => (Circle, Vec3(r, r, r))
    case _ => (Square, FallbackScale)
  }

  /**
   * Where the two revisions agree: every collision model other than a box
   * gets the same prefab and scale, whatever the convertor; only the
   * box's size goes through a different conversion.
   */
  lemma {:induction false} RevisionsAgreeOffBoxes(om: ObjectModel, conv: Convertor)
    ensures !om.BoxModel? ==> FlatModel(om, conv) == CanvasModel(Some(om))
    ensures FlatModel(om, conv).0 == CanvasModel(Some(om)).0
  {
  }

  class ActionObject {
    /** `Data`. */
    var data: SceneObject
    /** `ActionObjectMetadata`, set once by `InitActionObject`. */
    const metadata: Metadata
    /** `Model`; this revision never colours it. */
    var model: Option<Model2D>
    /** The instance's `transform.localPosition` and `transform.localRotation`. */
    var localPosition: Vec3
    var localRotation: Quat

    /**
     * The steps of `InitActionObject` before `CreateModel`, on a fresh
     * instance: id and type are copied into the default record, and a
     * type with a pose stores the converted transform.
     */
    constructor (sceneObject: SceneObject, position: Vec3, orientation: Quat, aom: Metadata, conv: Convertor)
      ensures data.id == sceneObject.id && data.objectType == sceneObject.objectType && data.name == ""
      ensures aom.meta.hasPose ==> data.pose == Some(Pose(conv.unityToROS(position), conv.unityToROSRotation(orientation)))
      ensures !aom.meta.hasPose ==> data.pose == EmptySceneObject.pose
      ensures metadata == aom && model == None && localPosition == position && localRotation == orientation
    {
      data := EmptySceneObject.(id := sceneObject.id, objectType := sceneObject.objectType);
      metadata := aom;
      model := None;
      localPosition := position;
      localRotation := orientation;
      new;
      if metadata.meta.hasPose {
        data := data.(pose := Some(Pose(conv.unityToROS(position), conv.unityToROSRotation(orientation))));
      }
    }

    /**
     * `CreateModel()`: a new prefab of the chosen shape and scale, left in
     * the prefab's colour; a null collision model throws before anything is made.
     */
    method CreateModel(conv: Convertor) returns (s: Status)
      modifies this
      ensures metadata.meta.objectModel.None? ==> s == Threw(NullReference) && model == old(model)
      ensures metadata.meta.objectModel.Some? ==> (s == Done &&
        model == Some(Model2D(FlatModel(metadata.meta.objectModel.value, conv).0, FlatModel(metadata.meta.objectModel.value, conv).1, None)))
      ensures data == old(data) && localPosition == old(localPosition) && localRotation == old(localRotation)
    {
      if metadata.meta.objectModel.None? {
        return Threw(NullReference);
      }
      var (shape, scale) := FlatModel(metadata.meta.objectModel.value, conv);
      model := Some(Model2D(shape, scale, None));
      s := Done;
    }

    /**
     * `GetScenePosition()`: the ground-plane position of the record's pose,
     * or the kinect's 2D projection of it; a null pose throws.
     */
    function GetScenePosition(view: SceneView): (r: Result<Vec3>)
      reads this
      ensures r.Ok? <==> data.pose.Some?
      ensures r.Ok? && !view.kinectPresent ==> r.value == Vec3(-data.pose.value.position.y, 0.0, data.pose.value.position.x)
      ensures r.Ok? && view.kinectPresent ==> r.value.z == 0.0
      ensures r.Ok? ==> r.value == ScenePosition(data.pose.value.position, view)
    {
      if data.pose.None? then Throws(NullReference)
      else
        ScenePositionPlane(data.pose.value.position, 0.0, view);
        Ok(ScenePosition(data.pose.value.position, view))
    }

    /** `GetSceneOrientation()`, with the missing `ROSToUnityCanvas` given as `toCanvas`. */
    function GetSceneOrientation(toCanvas: Quat -> Quat): (r: Result<Quat>)
      reads this
      ensures r.Ok? <==> data.pose.Some?
      ensures r.Ok? ==> r.value == toCanvas(data.pose.value.orientation)
    {
      if data.pose.None? then Throws(NullReference)
      else Ok(toCanvas(data.pose.value.orientation))
    }

    /**
     * `ResetPosition()`: the transform moves to the record's scene position
     * and orientation whether or not the type has a pose.
     */
    method ResetPosition(view: SceneView, toCanvas: Quat -> Quat) returns (s: Status)
      modifies this
      ensures data.pose.None? ==> s == Threw(NullReference) && localPosition == old(localPosition) && localRotation == old(localRotation)
      ensures data.pose.Some? ==> (s == Done &&
        localPosition == ScenePosition(data.pose.value.position, view) && localRotation == toCanvas(data.pose.value.orientation))
      ensures data == old(data) && model == old(model)
    {
      var position := GetScenePosition(view);
      if position.Throws? {
        return Threw(position.error);
      }
      localPosition := position.value;
      localRotation := GetSceneOrientation(toCanvas).value;
      s := Done;
    }

    /** `ActionObjectUpdate(actionObjectSwagger)`: the record is replaced, then `ResetPosition()`. */
    method ActionObjectUpdate(actionObjectSwagger: SceneObject, view: SceneView, toCanvas: Quat -> Quat) returns (s: Status)
      modifies this
      ensures data == actionObjectSwagger && model == old(model)
      ensures actionObjectSwagger.pose.None? ==> s == Threw(NullReference)
      ensures actionObjectSwagger.pose.Some? ==> (s == Done &&
        localPosition == ScenePosition(actionObjectSwagger.pose.value.position, view) &&
        localRotation == toCanvas(actionObjectSwagger.pose.value.orientation))
    {
      data := actionObjectSwagger;
      s := ResetPosition(view, toCanvas);
    }

    /** `GetActionPoints()`: the action points of the project whose parent is this object. */
    method GetActionPoints(table: ActionPointTable) returns (aps: seq<ActionPoint>)
      ensures forall a :: a in aps <==> a in table.entries.Values && a.data.parent == Some(data.id)
    {
      aps := ChildrenOf(table, data.id);
    }
  }

  /**
   * Instantiation followed by `InitActionObject`: the object is made and
   * `CreateModel` runs, so a type without a collision model leaves an
   * object without a model and the exception escapes.
   */
  method InitActionObject(sceneObject: SceneObject, position: Vec3, orientation: Quat, aom: Metadata, conv: Convertor)
    returns (o: ActionObject, s: Status)
    ensures fresh(o) && o.metadata == aom && o.data.id == sceneObject.id
    ensures aom.meta.objectModel.None? <==> s == Threw(NullReference)
    ensures s == Threw(NullReference) <==> o.model.None?
  {
    o := new ActionObject(sceneObject, position, orientation, aom, conv);
    s := o.CreateModel(conv);
  }
}
