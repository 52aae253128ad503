/**
 * `Base.SceneManager` (SceneManager.cs): the table of action objects of the
 * open scene, spawning objects for announced types that have a pose,
 * looking them up, and removing them together with their action points.
 *
 * The registry of `ActionsManager.ActionObjectsMetadata`, the project's
 * table of action points and the transform of a freshly instantiated prefab
 * are parameters; what the scene asks of the Unity scene graph and of
 * `ProjectionManager` is recorded in order.
 */
module SceneManager {
  import opened Wrappers
  import opened Linear
  import opened Records
  import opened ArActionPoint
  import opened BaseActionObject

  /** The transform a new instance is placed under. */
  datatype Placement = World | CanvasScene

  /** One `Instantiate` of a prefab: the object and the transform it went under. */
  datatype Instance = Instance(obj: ActionObject, under: Placement)

  /** A call into `ProjectionManager`. */
  datatype ProjectionCall = SetupProjection(kinect: ActionObject) | DestroyProjection

  /** The spawn point of a type: the kinect goes under `World`, every other type under `CanvasScene`. */
  function SpawnPoint(typeName: string): (p: Placement)
    ensures p == World <==> typeName == "KinectAzure"
  {
    if typeName == "KinectAzure" then World else CanvasScene
  }

  /** The calls into `ProjectionManager` a spawn of an object of `typeName` makes. */
  function SpawnCalls(typeName: string, o: ActionObject): (r: seq<ProjectionCall>)
    ensures r != [] <==> SpawnPoint(typeName) == World
    ensures r != [] ==> r == [SetupProjection(o)]
  {
    if typeName == "KinectAzure" then [SetupProjection(o)] else []
  }

  /** Whether `SpawnActionObject` creates an object for `sceneObject`: its type is registered and has a pose. */
  predicate Spawnable(sceneObject: SceneObject, registry: map<string, Metadata>) {
    sceneObject.objectType in registry && registry[sceneObject.objectType].meta.hasPose
  }

  class SceneManager {
    /** `ActionObjects`. */
    const actionObjects: ActionObjectTable
    /** The prefabs instantiated so far, in order. */
    var instances: seq<Instance>
    /** The calls made into `ProjectionManager`, in order. */
    var projection: seq<ProjectionCall>

    constructor ()
      ensures fresh(actionObjects) && actionObjects.entries == map[] && instances == [] && projection == []
    {
      actionObjects := new ActionObjectTable();
      instances := [];
      projection := [];
    }

    /**
     * `SpawnActionObject(sceneObject)`: nothing for a type without metadata
     * or without a pose. Otherwise the prefab is instantiated (the kinect's
     * under `World`, with the projection set up for it), initialised, and
     * added under the record's id, which throws for an id already present;
     * an added object then takes the record, whose null parameter list
     * throws. The update is the base class's: a subclass's reset to the
     * record's pose is not dispatched, so the prefab's transform stays.
     */
    method SpawnActionObject(sceneObject: SceneObject, registry: map<string, Metadata>,
                             prefabPosition: Vec3, prefabRotation: Quat, conv: Convertor)
      returns (r: Result<Option<ActionObject>>)
      requires actionObjects.Valid()
      modifies this, actionObjects
      ensures actionObjects.Valid()
      ensures !Spawnable(sceneObject, registry) ==>
        r == Ok(None) && actionObjects.entries == old(actionObjects.entries) &&
        instances == old(instances) && projection == old(projection)
      ensures Spawnable(sceneObject, registry) ==>
        var aom := registry[sceneObject.objectType];
        |instances| == |old(instances)| + 1 && instances[..|old(instances)|] == old(instances) &&
        var o := instances[|old(instances)|].obj;
        fresh(o) && o.metadata == aom && instances[|old(instances)|].under == SpawnPoint(aom.meta.typeName) &&
        projection == old(projection) + SpawnCalls(aom.meta.typeName, o) &&
        (sceneObject.id in old(actionObjects.entries) ==>
           r == Throws(DuplicateKey) && actionObjects.entries == old(actionObjects.entries)) &&
        (sceneObject.id !in old(actionObjects.entries) ==>
           r == (if sceneObject.parameters.None? then Throws(NullReference) else Ok(Some(o))) &&
           actionObjects.entries == old(actionObjects.entries)[sceneObject.id := o] &&
           o.data == sceneObject && o.localPosition == prefabPosition && o.localRotation == prefabRotation)
    {
      if sceneObject.objectType !in registry {
        return Ok(None);
      }
      var aom := registry[sceneObject.objectType];
      if !aom.meta.hasPose {
        return Ok(None);
      }
      var actionObject := new ActionObject(sceneObject, prefabPosition, prefabRotation, aom, conv);
      instances := instances + [Instance(actionObject, SpawnPoint(aom.meta.typeName))];
      projection := projection + SpawnCalls(aom.meta.typeName, actionObject);
      if sceneObject.id in actionObjects.entries {
        return Throws(DuplicateKey);
      }
      actionObjects.entries := actionObjects.entries[sceneObject.id := actionObject];
      var _, s := actionObject.ActionObjectUpdate(sceneObject);
      if s.Threw? {
        return Throws(s.error);
      }
      return Ok(Some(actionObject));
    }

    /** `GetActionObject(id)`: the object under the id, or `KeyNotFoundException`. */
    function GetActionObject(id: string): (r: Result<ActionObject>)
      reads actionObjects, actionObjects.entries.Values
      ensures r.Ok? <==> id in actionObjects.entries
      ensures r.Ok? ==> r.value in actionObjects.entries.Values
      ensures r.Ok? && actionObjects.Valid() ==> r.value.data.id == id
      ensures !r.Ok? ==> r == Throws(KeyNotFound)
    {
      if id in actionObjects.entries then Ok(actionObjects.entries[id]) else Throws(KeyNotFound)
    }

    /**
     * `SceneObjectUpdated(sceneObject)`: the object under the record's id
     * takes the record; an unknown id throws from `GetActionObject`, so the
     * "not found" branch is never reached. A record with a null parameter
     * list is taken and then throws. As in `SpawnActionObject`, the update
     * is the base class's, which leaves the transform alone.
     */
    method SceneObjectUpdated(sceneObject: SceneObject) returns (s: Status)
      requires actionObjects.Valid()
      modifies actionObjects.entries.Values
      ensures actionObjects.Valid()
      ensures sceneObject.id !in actionObjects.entries ==> s == Threw(KeyNotFound)
      ensures sceneObject.id in actionObjects.entries ==>
        s == (if sceneObject.parameters.None? then Threw(NullReference) else Done) &&
        actionObjects.entries[sceneObject.id].data == sceneObject
      ensures forall k :: k in actionObjects.entries && k != sceneObject.id ==>
        actionObjects.entries[k].data == old(actionObjects.entries[k].data)
    {
      var found := GetActionObject(sceneObject.id);
      if found.Throws? {
        return Threw(found.error);
      }
      var _, updated := found.value.ActionObjectUpdate(sceneObject);
      return updated;
    }

    /**
     * `RemoveActionObject(Id)`: the object under the id deletes itself, with
     * its action points; an unknown id throws `KeyNotFoundException`, which
     * the handler for null references does not catch.
     */
    method RemoveActionObject(id: string, table: ActionPointTable) returns (s: Status)
      requires actionObjects.Valid() && table.Valid()
      modifies actionObjects, table
      ensures actionObjects.Valid() && table.Valid()
      ensures id !in old(actionObjects.entries) ==>
        s == Threw(KeyNotFound) && actionObjects.entries == old(actionObjects.entries) && table.entries == old(table.entries)
      ensures id in old(actionObjects.entries) ==>
        s == Done && actionObjects.entries == old(actionObjects.entries) - {id} &&
        table.entries == old(table.entries) - old(ChildKeys(table.entries, {id}))
    {
      if id !in actionObjects.entries {
        return Threw(KeyNotFound);
      }
      ChildIdsAreKeys(table, id);
      actionObjects.entries[id].DeleteActionObject(actionObjects, table);
      return Done;
    }

    /**
     * `SceneObjectRemoved(sceneObject)`: the object under the record's id
     * leaves the table and deletes itself; an unknown id throws from
     * `GetActionObject`.
     */
    method SceneObjectRemoved(sceneObject: SceneObject, table: ActionPointTable) returns (s: Status)
      requires actionObjects.Valid() && table.Valid()
      modifies actionObjects, table
      ensures actionObjects.Valid() && table.Valid()
      ensures sceneObject.id !in old(actionObjects.entries) ==>
        s == Threw(KeyNotFound) && actionObjects.entries == old(actionObjects.entries) && table.entries == old(table.entries)
      ensures sceneObject.id in old(actionObjects.entries) ==>
        s == Done && actionObjects.entries == old(actionObjects.entries) - {sceneObject.id} &&
        table.entries == old(table.entries) - old(ChildKeys(table.entries, {sceneObject.id}))
    {
      var found := GetActionObject(sceneObject.id);
      if found.Throws? {
        return Threw(found.error);
      }
      actionObjects.entries := actionObjects.entries - {sceneObject.id};
      ChildIdsAreKeys(table, sceneObject.id);
      found.value.DeleteActionObject(actionObjects, table);
      return Done;
    }

    /**
     * `RemoveActionObjects()`: every object deletes itself, taking its
     * action points out of the project's table, and the scene's table ends
     * empty.
     */
    method RemoveActionObjects(table: ActionPointTable)
      requires actionObjects.Valid() && table.Valid()
      modifies actionObjects, table
      ensures actionObjects.entries == map[]
      ensures table.Valid()
      ensures table.entries == old(table.entries) - old(ChildKeys(table.entries, actionObjects.entries.Keys))
    {
      ghost var t0 := table.entries;
      ghost var ids := actionObjects.entries.Keys;
      var keys := actionObjects.entries.Keys;
      ghost var done: set<string> := {};
      while keys != {}
        invariant Removing(t0, ids, keys, done, table)
        decreases keys
      {
        var k :| k in keys;
        RemoveStep(t0, ids, keys, done, k, table);
        keys, done := keys - {k}, done + {k};
      }
      actionObjects.entries := map[];
    }

    /**
     * The state of the loop of `RemoveActionObjects` after the objects of
     * `done` have deleted themselves: the rest of the scene's table is left
     * and the project's table has lost the children of `done`.
     */
    ghost predicate Removing(t0: map<string, ActionPoint>, ids: set<string>, keys: set<string>, done: set<string>, table: ActionPointTable)
      reads actionObjects, actionObjects.entries.Values, table, table.entries.Values, t0.Values
    {
      keys !! done && keys + done == ids &&
      actionObjects.entries.Keys == keys && actionObjects.Valid() &&
      table.Valid() && table.entries == t0 - ChildKeys(t0, done)
    }

    /** One turn of the loop of `RemoveActionObjects`. */
    method RemoveStep(ghost t0: map<string, ActionPoint>, ghost ids: set<string>, ghost keys: set<string>, ghost done: set<string>,
                      k: string, table: ActionPointTable)
      requires Removing(t0, ids, keys, done, table) && k in keys
      modifies actionObjects, table
      ensures Removing(t0, ids, keys - {k}, done + {k}, table)
    {
      RemoveOneStep(t0, done, k);
      var _ := RemoveActionObject(k, table);
    }

    /** `DestroyScene()`: the objects are removed, then the projection is destroyed; the result is always true. */
    method DestroyScene(table: ActionPointTable) returns (destroyed: bool)
      requires actionObjects.Valid() && table.Valid()
      modifies this, actionObjects, table
      ensures destroyed
      ensures actionObjects.entries == map[] && table.Valid()
      ensures table.entries == old(table.entries) - old(ChildKeys(table.entries, actionObjects.entries.Keys))
      ensures instances == old(instances) && projection == old(projection) + [DestroyProjection]
    {
      RemoveActionObjects(table);
      projection := projection + [DestroyProjection];
      destroyed := true;
    }

    /** `GetAllObjectsOfType(type)`: the objects whose metadata names the type (as a set; the list's order is not kept). */
    function GetAllObjectsOfType(kind: string): (r: set<ActionObject>)
      reads actionObjects
      ensures r <= actionObjects.entries.Values
    {
      set o | o in actionObjects.entries.Values && o.metadata.meta.typeName == kind
    }

    /**
     * The answers of `GetAllObjectsOfType` partition the table: each object
     * is found under its own type and under no other.
     */
    lemma {:induction false} ObjectsOfTypePartition(o: ActionObject, kind: string)
      requires o in actionObjects.entries.Values
      ensures o in GetAllObjectsOfType(o.metadata.meta.typeName)
      ensures o in GetAllObjectsOfType(kind) <==> kind == o.metadata.meta.typeName
    {
    }
  }

  /**
   * One turn of `RemoveActionObjects`: removing the children of `k` from a
   * table already cleared of the children of `done` clears the children of
   * both.
   */
  lemma {:induction false} RemoveOneStep(t0: map<string, ActionPoint>, done: set<string>, k: string)
    ensures (t0 - ChildKeys(t0, done)) - ChildKeys(t0 - ChildKeys(t0, done), {k}) == t0 - ChildKeys(t0, done + {k})
  {
  }
}
