/**
 * The scene action point of `Objects/ActionPoint.cs`
 * (`Assets.Scripts.ARClasses.ActionPoint`): the record received from the
 * server, the local position derived from it, and the project's table of
 * action points by id, which `DeleteAP` edits.
 */
module ArActionPoint {
  import opened Wrappers
  import opened Linear
  import opened Records
  import ArProjection

  /**
   * `GetScenePosition()`: the ROS position on the ground plane; with a
   * kinect, the 2D projection of that point widened with z = 0.
   */
  function ScenePosition(position: Vec3, view: SceneView): (r: Vec3)
    ensures !view.kinectPresent ==> r.y == 0.0
    ensures view.kinectPresent ==> r.z == 0.0
  {
    var newPos := ArProjection.ROSToUnityY0(position);
    if view.kinectPresent then Widen(view.screenPoint(newPos)) else newPos
  }

  /**
   * Without a kinect the scene position lies on the ground plane; with one
   * it lies in the canvas plane z = 0. Either way the ROS z never matters.
   */
  lemma {:induction false} ScenePositionPlane(position: Vec3, z: real, view: SceneView)
    ensures !view.kinectPresent ==> ScenePosition(position, view) == Vec3(-position.y, 0.0, position.x)
    ensures view.kinectPresent ==> ScenePosition(position, view).z == 0.0
    ensures ScenePosition(position.(z := z), view) == ScenePosition(position, view)
  {
    ArProjection.ROSToUnityY0Ground(position, z);
  }

  class ActionPoint {
    var data: ProjectActionPoint
    var localPosition: Vec3

    /** The field initializer; the transform starts at the origin. */
    constructor ()
      ensures data == EmptyActionPoint && localPosition == Zero3
    {
      data := EmptyActionPoint;
      localPosition := Zero3;
    }

    /** `ActionPointBaseUpdate(apData)`: only the position is copied; the name is not. */
    method ActionPointBaseUpdate(apData: BareActionPoint, view: SceneView)
      modifies this
      ensures data == old(data).(position := apData.position)
      ensures localPosition == ScenePosition(apData.position, view)
    {
      data := data.(position := apData.position);
      localPosition := ScenePosition(data.position, view);
    }

    /** `InitAP(apData)`: the record is replaced and the transform placed. */
    method InitAP(apData: ProjectActionPoint, view: SceneView)
      modifies this
      ensures data == apData
      ensures localPosition == ScenePosition(apData.position, view)
    {
      data := apData;
      localPosition := ScenePosition(data.position, view);
    }

    /** `ResetPosition()`. */
    method ResetPosition(view: SceneView)
      modifies this
      ensures data == old(data)
      ensures localPosition == ScenePosition(data.position, view)
    {
      localPosition := ScenePosition(data.position, view);
    }

    /**
     * `DeleteAP(removeFromList)`: with the flag the entry keyed by this
     * point's id leaves the table; without it the table is left alone.
     */
    method DeleteAP(removeFromList: bool, table: ActionPointTable)
      modifies table
      ensures removeFromList ==> table.entries == old(table.entries) - {data.id}
      ensures !removeFromList ==> table.entries == old(table.entries)
    {
      if removeFromList {
        table.entries := table.entries - {data.id};
      }
    }
  }

  /** `ProjectManager.ActionPoints`: action points by id. */
  class ActionPointTable {
    var entries: map<string, ActionPoint>

    constructor ()
      ensures entries == map[]
    {
      entries := map[];
    }

    /** Every entry is keyed by its own id. */
    ghost predicate Valid()
      reads this, entries.Values
    {
      forall k :: k in entries ==> entries[k].data.id == k
    }
  }

  /** In a valid table no two keys share an action point. */
  lemma {:induction false} ValidEntriesDistinct(table: ActionPointTable, k1: string, k2: string)
    requires table.Valid() && k1 in table.entries && k2 in table.entries && k1 != k2
    ensures table.entries[k1] != table.entries[k2]
  {
  }

  /** The ids of the table's action points whose parent is `id`. */
  ghost function ChildIds(table: ActionPointTable, id: string): set<string>
    reads table, table.entries.Values
  {
    set a | a in table.entries.Values && a.data.parent == Some(id) :: a.data.id
  }

  /** The keys of the entries whose parent is one of `ids`. */
  ghost function ChildKeys(entries: map<string, ActionPoint>, ids: set<string>): set<string>
    reads entries.Values
  {
    set k | k in entries && entries[k].data.parent.Some? && entries[k].data.parent.value in ids
  }

  /** In a valid table the ids of the children of `id` are the keys of the entries under `id`. */
  lemma {:induction false} ChildIdsAreKeys(table: ActionPointTable, id: string)
    requires table.Valid()
    ensures ChildIds(table, id) == ChildKeys(table.entries, {id})
  {
    forall x | x in ChildKeys(table.entries, {id}) ensures x in ChildIds(table, id) {
      assert table.entries[x] in table.entries.Values;
    }
  }

  /**
   * The scan every action object's `GetActionPoints()` performs: the
   * action points of the table whose parent is `id`, in table order.
   */
  method ChildrenOf(table: ActionPointTable, id: string) returns (aps: seq<ActionPoint>)
    ensures forall a :: a in aps <==> a in table.entries.Values && a.data.parent == Some(id)
    ensures |aps| <= |table.entries|
  {
    aps := [];
    var keys := table.entries.Keys;
    ghost var visited: set<string> := {};
    while keys != {}
      invariant keys !! visited && keys + visited == table.entries.Keys
      invariant forall a :: a in aps <==>
        exists k :: k in visited && table.entries[k] == a && a.data.parent == Some(id)
      invariant |aps| <= |visited|
      decreases |keys|
    {
      var k :| k in keys;
      var actionPoint := table.entries[k];
      if actionPoint.data.parent == Some(id) {
        aps := aps + [actionPoint];
      }
      keys := keys - {k};
      visited := visited + {k};
    }
    assert visited == table.entries.Keys;
  }
}
