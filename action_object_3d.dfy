/**
 * `ActionObject3D` (ActionObject3D.cs), the solid subclass of
 * `Base.ActionObject`: the prefab and scale of its collision model,
 * optionally overridden by the scene's custom collision models, and its
 * placement through `TransformConvertor`, which is given as a `Convertor`.
 *
 * The subclass is modelled by composition: `base` is the inherited part,
 * and the members the subclass adds or overrides work on it.
 */
module ActionObject3D {
  import opened Wrappers
  import opened Linear
  import opened Records
  import opened BaseActionObject
  import opened BaseActionPoint

  /** The three prefabs a solid object instantiates. */
  datatype Prefab = CubePrefab | CylinderPrefab | SpherePrefab

  /**
   * The instantiated `Model`: the prefab and the `localScale` set on it,
   * `None` where the prefab keeps the scale it was made with.
   */
  datatype Model3D = Model3D(prefab: Prefab, scale: Option<Vec3>)

  /** The flat cube that stands in for a mesh and for an unknown model type. */
  const PlaceholderScale: Vec3 := Vec3(0.05, 0.01, 0.05)

  /** The ids that custom collision models are looked up by. */
  function BoxId(b: CustomBox): string { b.id }
  function CylinderId(c: CustomCylinder): string { c.id }
  function SphereId(s: CustomSphere): string { s.id }

  /** The `foreach … break` search of `CreateModel`: the first element keyed `k`, by a scan from the front. */
  method FindFirst<T>(xs: seq<T>, key: T -> string, k: string) returns (i: nat)
    ensures i == FirstIndex(xs, key, k)
  {
    i := 0;
    while i < |xs|
      invariant i <= |xs|
      invariant forall j :: 0 <= j < i ==> key(xs[j]) != k
    {
      if key(xs[i]) == k {
        FirstIndexAt(xs, key, k, i);
        return;
      }
      i := i + 1;
    }
    FirstIndexAt(xs, key, k, i);
  }

  /** An index of `xs` whose key is `k` (or `|xs|`), with no `k` before it, is the first. */
  lemma {:induction false} FirstIndexAt<T>(xs: seq<T>, key: T -> string, k: string, i: nat)
    requires i <= |xs| && forall j :: 0 <= j < i ==> key(xs[j]) != k
    requires i < |xs| ==> key(xs[i]) == k
    ensures FirstIndex(xs, key, k) == i
  {
  }

  /** The scale a custom box gives. */
  function BoxScale(b: CustomBox, conv: Convertor): Vec3 {
    conv.rosToUnityScale(Vec3(b.sizeX, b.sizeY, b.sizeZ))
  }

  /** The scale a custom cylinder gives: its full height, not halved. */
  function CylinderScale(c: CustomCylinder): Vec3 {
    Vec3(c.radius, c.height, c.radius)
  }

  /** The scale a custom sphere gives. */
  function SphereScale(s: CustomSphere): Vec3 {
    Vec3(s.radius, s.radius, s.radius)
  }

  /**
   * The model `CreateModel(customCollisionModels)` makes for a type named
   * `typeName` with collision model `om`; `None` when no model is made.
   * A box, cylinder or sphere is sized from the type's own collision model
   * when there are no custom models, and otherwise by the first custom
   * model of its kind whose id is the type's name (no such model leaves
   * the prefab's scale).
   */
  function SolidModel(om: Option<ObjectModel>, typeName: string, custom: Option<CollisionModels>, conv: Convertor): (r: Option<Model3D>)
    ensures r.None? <==> om.None? || om.value.NoneModel?
    ensures r.Some? && (om.value.MeshModel?) ==> r.value == Model3D(CubePrefab, Some(PlaceholderScale))
    ensures r.Some? && custom.None? && om.value.BoxModel? ==>
      r.value == Model3D(CubePrefab, Some(conv.rosToUnityScale(Vec3(om.value.sizeX, om.value.sizeY, om.value.sizeZ))))
    ensures r.Some? && custom.None? && om.value.CylinderModel? ==>
      r.value == Model3D(CylinderPrefab, Some(Vec3(om.value.radius, om.value.height / 2.0, om.value.radius)))
    ensures r.Some? && custom.None? && om.value.SphereModel? ==>
      r.value == Model3D(SpherePrefab, Some(Vec3(om.value.radius, om.value.radius, om.value.radius)))
  {
    if om.None? || om.value.NoneModel? then None
    else match om.value
      case BoxModel(x, y, z) =>
        if custom.None? then Some(Model3D(CubePrefab, Some(conv.rosToUnityScale(Vec3(x, y, z)))))
        else
          var i := FirstIndex(custom.value.boxes, BoxId, typeName);
          Some(Model3D(CubePrefab, if i == |custom.value.boxes| then None else Some(BoxScale(custom.value.boxes[i], conv))))
      case CylinderModel(r, h) =>
        if custom.None? then Some(Model3D(CylinderPrefab, Some(Vec3(r, h / 2.0, r))))
        else
          var i := FirstIndex(custom.value.cylinders, CylinderId, typeName);
          Some(Model3D(CylinderPrefab, if i == |custom.value.cylinders| then None else Some(CylinderScale(custom.value.cylinders[i]))))
      case SphereModel(r) =>
        if custom.None? then Some(Model3D(SpherePrefab, Some(Vec3(r, r, r))))
        else
          var i := FirstIndex(custom.value.spheres, SphereId, typeName);
          Some(Model3D(SpherePrefab, if i == |custom.value.spheres| then None else Some(SphereScale(custom.value.spheres[i]))))
      case _ => Some(Model3D(CubePrefab, Some(PlaceholderScale)))
  }

  /**
   * The dimensions `UpdateModel` computes, all through `ROSToUnityScale`;
   * `None` when there is no collision model or its type has no size.
   */
  function SolidDimensions(om: Option<ObjectModel>, conv: Convertor): (r: Option<Vec3>)
    ensures r.Some? <==> om.Some? && (om.value.BoxModel? || om.value.CylinderModel? || om.value.SphereModel?)
    ensures om.Some? && om.value.CylinderModel? ==> r == Some(conv.rosToUnityScale(Vec3(om.value.radius, om.value.radius, om.value.height)))
  {
    if om.None? then None
    else match om.value
      case BoxModel(x, y, z) => Some(conv.rosToUnityScale(Vec3(x, y, z)))
      case SphereModel(r) => Some(conv.rosToUnityScale(Vec3(r, r, r)))
      case CylinderModel(r, h) => Some(conv.rosToUnityScale(Vec3(r, r, h)))
      case _ => None
  }

  /**
   * With custom collision models, a box is sized by a custom box exactly
   * when one carries the type's name, and then by the first such box.
   */
  lemma {:induction false} CustomBoxFirstMatch(om: ObjectModel, typeName: string, custom: CollisionModels, conv: Convertor)
    requires om.BoxModel?
    ensures SolidModel(Some(om), typeName, Some(custom), conv).value.prefab == CubePrefab
    ensures SolidModel(Some(om), typeName, Some(custom), conv).value.scale.None? <==>
      forall i :: 0 <= i < |custom.boxes| ==> custom.boxes[i].id != typeName
    ensures forall i :: (0 <= i < |custom.boxes| && custom.boxes[i].id == typeName &&
                         (forall j :: 0 <= j < i ==> custom.boxes[j].id != typeName)) ==>
      SolidModel(Some(om), typeName, Some(custom), conv).value.scale == Some(BoxScale(custom.boxes[i], conv))
  {
    forall i | 0 <= i < |custom.boxes| && custom.boxes[i].id == typeName && (forall j :: 0 <= j < i ==> custom.boxes[j].id != typeName)
      ensures SolidModel(Some(om), typeName, Some(custom), conv).value.scale == Some(BoxScale(custom.boxes[i], conv))
    {
      FirstIndexAt(custom.boxes, BoxId, typeName, i);
    }
  }

  /**
   * A cylinder likewise: sized by a custom cylinder exactly when one carries
   * the type's name, and then by the first such cylinder, height not halved.
   */
  lemma {:induction false} CustomCylinderFirstMatch(om: ObjectModel, typeName: string, custom: CollisionModels, conv: Convertor)
    requires om.CylinderModel?
    ensures SolidModel(Some(om), typeName, Some(custom), conv).value.prefab == CylinderPrefab
    ensures SolidModel(Some(om), typeName, Some(custom), conv).value.scale.None? <==>
      forall i :: 0 <= i < |custom.cylinders| ==> custom.cylinders[i].id != typeName
    ensures forall i :: (0 <= i < |custom.cylinders| && custom.cylinders[i].id == typeName &&
                         (forall j :: 0 <= j < i ==> custom.cylinders[j].id != typeName)) ==>
      SolidModel(Some(om), typeName, Some(custom), conv).value.scale == Some(CylinderScale(custom.cylinders[i]))
  {
    forall i | 0 <= i < |custom.cylinders| && custom.cylinders[i].id == typeName && (forall j :: 0 <= j < i ==> custom.cylinders[j].id != typeName)
      ensures SolidModel(Some(om), typeName, Some(custom), conv).value.scale == Some(CylinderScale(custom.cylinders[i]))
    {
      FirstIndexAt(custom.cylinders, CylinderId, typeName, i);
    }
  }

  /** A sphere likewise: sized by the first custom sphere that carries the type's name, if any. */
  lemma {:induction false} CustomSphereFirstMatch(om: ObjectModel, typeName: string, custom: CollisionModels, conv: Convertor)
    requires om.SphereModel?
    ensures SolidModel(Some(om), typeName, Some(custom), conv).value.prefab == SpherePrefab
    ensures SolidModel(Some(om), typeName, Some(custom), conv).value.scale.None? <==>
      forall i :: 0 <= i < |custom.spheres| ==> custom.spheres[i].id != typeName
    ensures forall i :: (0 <= i < |custom.spheres| && custom.spheres[i].id == typeName &&
                         (forall j :: 0 <= j < i ==> custom.spheres[j].id != typeName)) ==>
      SolidModel(Some(om), typeName, Some(custom), conv).value.scale == Some(SphereScale(custom.spheres[i]))
  {
    forall i | 0 <= i < |custom.spheres| && custom.spheres[i].id == typeName && (forall j :: 0 <= j < i ==> custom.spheres[j].id != typeName)
      ensures SolidModel(Some(om), typeName, Some(custom), conv).value.scale == Some(SphereScale(custom.spheres[i]))
    {
      FirstIndexAt(custom.spheres, SphereId, typeName, i);
    }
  }

  /**
   * A custom cylinder of the very size the type announces, found first,
   * still gives a different scale unless its height is zero: the default
   * halves the height and the custom one does not.
   */
  lemma {:induction false} CustomCylinderNotHalved(r: real, h: real, typeName: string, custom: CollisionModels, conv: Convertor, i: nat)
    requires i < |custom.cylinders| && custom.cylinders[i] == CustomCylinder(typeName, r, h)
    requires forall j :: 0 <= j < i ==> custom.cylinders[j].id != typeName
    ensures SolidModel(Some(CylinderModel(r, h)), typeName, None, conv).value.scale == Some(Vec3(r, h / 2.0, r))
    ensures SolidModel(Some(CylinderModel(r, h)), typeName, Some(custom), conv).value.scale == Some(Vec3(r, h, r))
    ensures SolidModel(Some(CylinderModel(r, h)), typeName, None, conv) == SolidModel(Some(CylinderModel(r, h)), typeName, Some(custom), conv)
      <==> h == 0.0
  {
    FirstIndexAt(custom.cylinders, CylinderId, typeName, i);
  }

  /** Without custom models, `UpdateModel` right after `CreateModel` gives a box the scale it already has. */
  lemma {:induction false} UpdateKeepsBox(om: ObjectModel, typeName: string, conv: Convertor)
    requires om.BoxModel?
    ensures SolidModel(Some(om), typeName, None, conv).value.scale == SolidDimensions(Some(om), conv)
  {
  }

  class ActionObject3D {
    /** The part inherited from `Base.ActionObject`. */
    const base: ActionObject
    /** `Model`: null until `CreateModel` instantiates a prefab. */
    var model: Option<Model3D>

    /**
     * Instantiation followed by `InitActionObject(…, customCollisionModels)`:
     * the inherited initialisation, then `CreateModel`.
     */
    constructor (sceneObject: SceneObject, position: Vec3, orientation: Quat, aom: Metadata,
                 custom: Option<CollisionModels>, conv: Convertor)
      ensures fresh(base)
      ensures base.data.id == sceneObject.id && base.data.objectType == sceneObject.objectType
      ensures aom.meta.hasPose ==> base.data.pose == Some(Pose(conv.unityToROS(position), conv.unityToROSRotation(orientation)))
      ensures base.metadata == aom && base.localPosition == position && base.localRotation == orientation
      ensures model == SolidModel(aom.meta.objectModel, aom.meta.typeName, custom, conv)
    {
      base := new ActionObject(sceneObject, position, orientation, aom, conv);
      model := None;
      new;
      CreateModel(custom, conv);
    }

    /**
     * `CreateModel(customCollisionModels)`: the model `SolidModel` names
     * replaces `Model`; when it names none, `Model` is left as it was.
     */
    method CreateModel(custom: Option<CollisionModels>, conv: Convertor)
      modifies this
      ensures SolidModel(base.metadata.meta.objectModel, base.metadata.meta.typeName, custom, conv).None? ==> model == old(model)
      ensures SolidModel(base.metadata.meta.objectModel, base.metadata.meta.typeName, custom, conv).Some? ==>
        model == SolidModel(base.metadata.meta.objectModel, base.metadata.meta.typeName, custom, conv)
    {
      var om := base.metadata.meta.objectModel;
      var typeName := base.metadata.meta.typeName;
      if om.None? || om.value.NoneModel? {
        return;
      }
      match om.value {
        case BoxModel(x, y, z) =>
          if custom.None? {
            model := Some(Model3D(CubePrefab, Some(conv.rosToUnityScale(Vec3(x, y, z)))));
          } else {
            model := Some(Model3D(CubePrefab, None));
            var i := FindFirst(custom.value.boxes, BoxId, typeName);
            if i < |custom.value.boxes| {
              model := Some(Model3D(CubePrefab, Some(BoxScale(custom.value.boxes[i], conv))));
            }
          }
        case CylinderModel(r, h) =>
          if custom.None? {
            model := Some(Model3D(CylinderPrefab, Some(Vec3(r, h / 2.0, r))));
          } else {
            model := Some(Model3D(CylinderPrefab, None));
            var i := FindFirst(custom.value.cylinders, CylinderId, typeName);
            if i < |custom.value.cylinders| {
              model := Some(Model3D(CylinderPrefab, Some(CylinderScale(custom.value.cylinders[i]))));
            }
          }
        case SphereModel(r) =>
          if custom.None? {
            model := Some(Model3D(SpherePrefab, Some(Vec3(r, r, r))));
          } else {
            model := Some(Model3D(SpherePrefab, None));
            var i := FindFirst(custom.value.spheres, SphereId, typeName);
            if i < |custom.value.spheres| {
              model := Some(Model3D(SpherePrefab, Some(SphereScale(custom.value.spheres[i]))));
            }
          }
        case MeshModel =>
          model := Some(Model3D(CubePrefab, Some(PlaceholderScale)));
        case NoneModel =>
      }
    }

    /**
     * `UpdateModel()`: the model is rescaled to the type's dimensions; a
     * type without dimensions leaves it alone, and dimensions with no model
     * to apply them to throw.
     */
    method UpdateModel(conv: Convertor) returns (s: Status)
      modifies this
      ensures SolidDimensions(base.metadata.meta.objectModel, conv).None? ==> s == Done && model == old(model)
      ensures SolidDimensions(base.metadata.meta.objectModel, conv).Some? && old(model).None? ==>
        s == Threw(NullReference) && model == old(model)
      ensures SolidDimensions(base.metadata.meta.objectModel, conv).Some? && old(model).Some? ==>
        s == Done && model == Some(old(model).value.(scale := SolidDimensions(base.metadata.meta.objectModel, conv)))
    {
      var dimensions := SolidDimensions(base.metadata.meta.objectModel, conv);
      if dimensions.Some? {
        if model.None? {
          return Threw(NullReference);
        }
        model := Some(model.value.(scale := dimensions));
      }
      s := Done;
    }

    /** `GetScenePosition()`: the record's position converted to Unity; a null pose throws. */
    function GetScenePosition(conv: Convertor): (r: Result<Vec3>)
      reads base
      ensures r.Ok? <==> base.data.pose.Some?
      ensures r.Ok? ==> r.value == conv.rosToUnity(base.data.pose.value.position)
    {
      if base.data.pose.None? then Throws(NullReference)
      else Ok(conv.rosToUnity(base.data.pose.value.position))
    }

    /** `GetSceneOrientation()`: the record's orientation converted to Unity; a null pose throws. */
    function GetSceneOrientation(conv: Convertor): (r: Result<Quat>)
      reads base
      ensures r.Ok? <==> base.data.pose.Some?
      ensures r.Ok? ==> r.value == conv.rosToUnityRotation(base.data.pose.value.orientation)
    {
      if base.data.pose.None? then Throws(NullReference)
      else Ok(conv.rosToUnityRotation(base.data.pose.value.orientation))
    }

    /** The inherited `ResetPosition()`, through this class's scene position and orientation. */
    method ResetPosition(conv: Convertor) returns (s: Status)
      modifies base
      ensures base.data.pose.None? ==> (s == Threw(NullReference) &&
        base.localPosition == old(base.localPosition) && base.localRotation == old(base.localRotation))
      ensures base.data.pose.Some? ==> (s == Done &&
        base.localPosition == GetScenePosition(conv).value && base.localRotation == GetSceneOrientation(conv).value)
      ensures base.data == old(base.data)
    {
      var position := GetScenePosition(conv);
      if position.Throws? {
        return Threw(position.error);
      }
      base.localPosition := position.value;
      base.localRotation := GetSceneOrientation(conv).value;
      s := Done;
    }

    /**
     * `ActionObjectUpdate(actionObjectSwagger)`: the inherited update
     * (renaming when the names differ), then `ResetPosition()`; when the
     * inherited update throws, the transform is not reset.
     */
    method ActionObjectUpdate(actionObjectSwagger: SceneObject, conv: Convertor) returns (renamed: bool, s: Status)
      modifies base
      ensures renamed <==> old(base.data).name != actionObjectSwagger.name
      ensures base.data == actionObjectSwagger
      ensures actionObjectSwagger.parameters.None? ==> (s == Threw(NullReference) &&
        base.localPosition == old(base.localPosition) && base.localRotation == old(base.localRotation))
      ensures actionObjectSwagger.parameters.Some? && actionObjectSwagger.pose.None? ==> s == Threw(NullReference)
      ensures actionObjectSwagger.parameters.Some? && actionObjectSwagger.pose.Some? ==> (s == Done &&
        base.localPosition == conv.rosToUnity(actionObjectSwagger.pose.value.position) &&
        base.localRotation == conv.rosToUnityRotation(actionObjectSwagger.pose.value.orientation))
    {
      renamed, s := base.ActionObjectUpdate(actionObjectSwagger);
      if s.Threw? {
        return;
      }
      s := ResetPosition(conv);
    }
  }
}
