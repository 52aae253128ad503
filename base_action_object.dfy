/**
 * `Base.ActionObject` (ActionObject.cs): the members of the abstract scene
 * object that do not depend on its concrete subclass, and the table
 * `SceneManager.ActionObjects` that an object removes itself from.
 *
 * The object is created by the instantiation of a prefab followed by
 * `InitActionObject`; the two are one constructor here. What the concrete
 * class's `SetScenePosition`/`SetSceneOrientation` store is the
 * `TransformConvertor` conversion of the instance's transform, as in every
 * subclass of the repository.
 */
module BaseActionObject {
  import opened Wrappers
  import opened Linear
  import opened Records
  import opened ArActionPoint
  import opened ActionsManager

  /** `GetPose()`: the transform converted to ROS, or the record built from the generated defaults. */
  datatype ReportedPose = Converted(pose: Pose) | Defaults

  class ActionObject {
    /** `Data`, the record of the object as the server last sent it. */
    var data: SceneObject
    /** `ActionObjectMetadata`, set once by `InitActionObject`. */
    const metadata: Metadata
    /** The instance's `transform.localPosition` and `transform.localRotation`. */
    var localPosition: Vec3
    var localRotation: Quat

    /**
     * `InitActionObject(sceneObject, position, orientation, metadata)` on a
     * fresh instance: id and type are copied into the default record (the
     * name is not), and a type with a pose stores the converted transform.
     */
    constructor (sceneObject: SceneObject, position: Vec3, orientation: Quat, aom: Metadata, conv: Convertor)
      ensures data.id == sceneObject.id && data.objectType == sceneObject.objectType && data.name == ""
      ensures aom.meta.hasPose ==> data.pose == Some(Pose(conv.unityToROS(position), conv.unityToROSRotation(orientation)))
      ensures !aom.meta.hasPose ==> data.pose == EmptySceneObject.pose
      ensures metadata == aom && localPosition == position && localRotation == orientation
      ensures aom.meta.hasPose ==> GetPose(conv) == Converted(data.pose.value)
    {
      data := EmptySceneObject.(id := sceneObject.id, objectType := sceneObject.objectType);
      metadata := aom;
      localPosition := position;
      localRotation := orientation;
      new;
      if metadata.meta.hasPose {
        data := data.(pose := Some(Pose(conv.unityToROS(position), conv.unityToROSRotation(orientation))));
      }
    }

    /** `UpdateObjectName(newUserId)`: only the record's name changes. */
    method UpdateObjectName(newUserId: string)
      modifies this
      ensures data == old(data).(name := newUserId)
      ensures localPosition == old(localPosition) && localRotation == old(localRotation)
    {
      data := data.(name := newUserId);
    }

    /**
     * `ActionObjectUpdate(actionObjectSwagger)`: the record is replaced;
     * `UpdateObjectName` runs first exactly when the names differ. The
     * loop over the new record's `Parameters` has an empty body, so all it
     * does is throw `NullReferenceException` for a null list, after the
     * record is replaced.
     */
    method ActionObjectUpdate(actionObjectSwagger: SceneObject) returns (renamed: bool, s: Status)
      modifies this
      ensures renamed <==> old(data).name != actionObjectSwagger.name
      ensures data == actionObjectSwagger
      ensures actionObjectSwagger.parameters.None? ==> s == Threw(NullReference)
      ensures actionObjectSwagger.parameters.Some? ==> s == Done
      ensures localPosition == old(localPosition) && localRotation == old(localRotation)
    {
      renamed := data.name != actionObjectSwagger.name;
      if renamed {
        UpdateObjectName(actionObjectSwagger.name);
      }
      data := actionObjectSwagger;
      if data.parameters.None? {
        return renamed, Threw(NullReference);
      }
      s := Done;
    }

    /**
     * `GetActionMetadata(action_id)`, given the type's `ActionsMetadata`:
     * with the actions loaded, the entry or `ItemNotFoundException`; before
     * that, null.
     */
    function GetActionMetadata(actionId: string, actionsMetadata: map<string, ActionMetadata>): (r: Result<Option<ActionMetadata>>)
      ensures r == Ok(None) <==> !metadata.actionsLoaded
      ensures r == Throws(ItemNotFound) <==> metadata.actionsLoaded && actionId !in actionsMetadata
      ensures r.Ok? && r.value.Some? ==> actionId in actionsMetadata && r.value.value == actionsMetadata[actionId]
      ensures r.Ok? || r == Throws(ItemNotFound)
    {
      if metadata.actionsLoaded then
        if actionId in actionsMetadata then Ok(Some(actionsMetadata[actionId])) else Throws(ItemNotFound)
      else Ok(None)
    }

    /** `IsRobot()`: the metadata's `Robot` flag. */
    function IsRobot(): bool {
      metadata.robot
    }

    /** `IsCamera()`: the metadata's `Camera` flag. */
    function IsCamera(): bool {
      metadata.camera
    }

    /**
     * `GetPose()`: for a type with a pose, the transform converted to ROS;
     * otherwise a pose of the generated default position and orientation.
     */
    function GetPose(conv: Convertor): (r: ReportedPose)
      reads this
      ensures r.Converted? <==> metadata.meta.hasPose
      ensures r.Converted? ==> r.pose == Pose(conv.unityToROS(localPosition), conv.unityToROSRotation(localRotation))
    {
      if metadata.meta.hasPose then Converted(Pose(conv.unityToROS(localPosition), conv.unityToROSRotation(localRotation)))
      else Defaults
    }

    /** `GetActionPoints()`: the action points of the project whose parent is this object. */
    method GetActionPoints(table: ActionPointTable) returns (aps: seq<ActionPoint>)
      ensures forall a :: a in aps <==> a in table.entries.Values && a.data.parent == Some(data.id)
    {
      aps := ChildrenOf(table, data.id);
    }

    /** `RemoveActionPoints()`: each child action point deletes itself from the project's table. */
    method RemoveActionPoints(table: ActionPointTable)
      modifies table
      ensures table.entries == old(table.entries) - old(ChildIds(table, data.id))
    {
      var aps := GetActionPoints(table);
      ghost var removed: set<string> := {};
      var i := 0;
      while i < |aps|
        invariant i <= |aps|
        invariant removed == set j | 0 <= j < i :: aps[j].data.id
        invariant table.entries == old(table.entries) - removed
      {
        aps[i].DeleteAP(true, table);
        removed := removed + {aps[i].data.id};
        i := i + 1;
      }
      assert removed == old(ChildIds(table, data.id)) by {
        forall x | x in old(ChildIds(table, data.id)) ensures x in removed {
          var a :| a in old(table.entries.Values) && a.data.parent == Some(data.id) && a.data.id == x;
          var j :| 0 <= j < |aps| && aps[j] == a;
        }
      }
    }

    /**
     * `DeleteActionObject()`: the child action points leave the project's
     * table, then this object's id leaves the scene's table.
     */
    method DeleteActionObject(objects: ActionObjectTable, table: ActionPointTable)
      modifies objects, table
      ensures table.entries == old(table.entries) - old(ChildIds(table, data.id))
      ensures objects.entries == old(objects.entries) - {data.id}
    {
      RemoveActionPoints(table);
      objects.entries := objects.entries - {data.id};
    }
  }

  /** `SceneManager.ActionObjects`: action objects by id, shared with the objects that remove themselves from it. */
  class ActionObjectTable {
    var entries: map<string, ActionObject>

    constructor ()
      ensures entries == map[]
    {
      entries := map[];
    }

    /** Every entry is keyed by its own id. */
    ghost predicate Valid()
      reads this, entries.Values
    {
      forall k :: k in entries ==> entries[k].data.id == k
    }
  }

  /**
   * An action object of a type registered by a successful `UpdateObjects`
   * is a robot (a camera) exactly when "Robot" ("Camera") is on its type's
   * chain of bases in the final registry.
   */
  lemma {:induction false} KindsFollowAncestry(o: ActionObject, only0: bool, metas: seq<ObjectTypeMeta>, i: nat, rank: string -> nat)
    requires MetasRanked(metas, rank) && i < |metas| && NewTypes({}, metas, |metas|)
    requires metas[i].typeName in Replace(only0, metas).types
    requires o.metadata == Replace(only0, metas).types[metas[i].typeName]
    ensures Replace(only0, metas).result == Done && Ranked(Replace(only0, metas).types, rank)
    ensures o.IsRobot() <==> "Robot" in Ancestry(metas[i], Replace(only0, metas).types, rank)
    ensures o.IsCamera() <==> "Camera" in Ancestry(metas[i], Replace(only0, metas).types, rank)
  {
    ReplaceRanked(only0, metas, rank);
    ReplacementSpec(only0, metas, rank);
    var types := Replacement(only0, metas, rank).types;
    ReplacementEntry(only0, metas, i, rank);
    assert BaseRanked(metas[i], rank);
    DescendantIffAncestor("Robot", metas[i], types, rank);
    DescendantIffAncestor("Camera", metas[i], types, rank);
  }

  /** An object of an abstract or built-in type never answers `GetActionMetadata` with null. */
  lemma {:induction false} AnnouncedActionsAnswer(o: ActionObject, obj: ObjectTypeMeta, types: map<string, Metadata>,
                                                  actionId: string, actionsMetadata: map<string, ActionMetadata>, rank: string -> nat)
    requires Ranked(types, rank) && BaseRanked(obj, rank)
    requires o.metadata == WithKinds(Announced(obj), types, rank)
    ensures (obj.isAbstract || obj.builtIn) ==> o.GetActionMetadata(actionId, actionsMetadata) != Ok(None)
    ensures !(obj.isAbstract || obj.builtIn) ==> o.GetActionMetadata(actionId, actionsMetadata) == Ok(None)
  {
  }
}
