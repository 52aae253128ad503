/**
 * `DataManager`: the list of rigid-transform action points placed with a
 * fixed extrinsic rotation and translation, and the operations that add,
 * move and remove them.
 *
 * Unity's `Instantiate(prefab)` becomes a fresh `RigidPoint.Instance`, and
 * the mouse click of `Update` arrives as a parameter already converted by
 * `Camera.ScreenToWorldPoint`.
 */
module DataManager {
  import opened Wrappers
  import opened Linear
  import RigidPoint

  /** The rotation FillMatrix writes, row by row (the double literals as exact reals). */
  const FilledRotation: Mat4 := Mat4(
    Vec4(0.99995961310770576, 0.0089872990011441688, 0.000024701242572249633, 0.0),
    Vec4(-0.0089613393813132575, 0.99685483491258131, 0.078740920161649047, 0.0),
    Vec4(0.00068304464003145823, -0.078737961416805169, 0.99689511328020131, 0.0),
    UnitW)

  /** The translation FillMatrix writes. */
  const FilledTranslation: Vec3 := Vec3(85.737214348908466, -630.45718819563251, -100.84398390544085)

  class DataManager {
    var actionPoints: seq<RigidPoint.ActionPoint>
    var rotationMatrix: Mat4
    var translation: Vec3

    /** The points are distinct objects driving distinct instances. */
    ghost predicate Valid()
      reads this, actionPoints
    {
      forall i, j :: 0 <= i < j < |actionPoints| ==>
        actionPoints[i] != actionPoints[j] && actionPoints[i].instance != actionPoints[j].instance
    }

    /** Every point's instance sits where its location is placed. */
    ghost predicate AllInPlace()
      reads this, actionPoints, set k | 0 <= k < |actionPoints| :: actionPoints[k].instance
    {
      forall k :: 0 <= k < |actionPoints| ==> actionPoints[k].InPlace()
    }

    constructor ()
      ensures actionPoints == [] && rotationMatrix == ZeroMat && translation == Zero3
    {
      actionPoints := [];
      rotationMatrix := ZeroMat;
      translation := Zero3;
    }

    /** `Start()`: an empty list and the fixed extrinsic. */
    method Start()
      modifies this
      ensures actionPoints == [] && Valid() && AllInPlace()
      ensures rotationMatrix == FilledRotation && translation == FilledTranslation
    {
      actionPoints := [];
      FillMatrix();
    }

    /** `FillMatrix()`: the rotation rows over a zero matrix, bottom row (0, 0, 0, 1), then the translation. */
    method FillMatrix()
      modifies this`rotationMatrix, this`translation
      ensures rotationMatrix == FilledRotation && translation == FilledTranslation
    {
      rotationMatrix := ZeroMat;
      rotationMatrix := SetRow(rotationMatrix, 0, FilledRotation.r0);
      rotationMatrix := SetRow(rotationMatrix, 1, FilledRotation.r1);
      rotationMatrix := SetRow(rotationMatrix, 2, FilledRotation.r2);
      rotationMatrix := SetRow(rotationMatrix, 3, Vec4(0.0, 0.0, 0.0, 1.0));
      translation := FilledTranslation;
    }

    /** `Update()`: a click adds a point at the clicked world position with z = 0. */
    method Update(fire: bool, mouseWorld: Vec3)
      requires Valid() && AllInPlace()
      modifies this
      ensures Valid() && AllInPlace()
      ensures !fire ==> actionPoints == old(actionPoints)
      ensures fire ==> |actionPoints| == |old(actionPoints)| + 1 && actionPoints[..|old(actionPoints)|] == old(actionPoints)
      ensures fire ==> actionPoints[|old(actionPoints)|].location == mouseWorld.(z := 0.0)
      ensures rotationMatrix == old(rotationMatrix) && translation == old(translation)
    {
      if fire {
        var mousePos := mouseWorld.(z := 0.0);
        AddActionPoint(mousePos);
      }
    }

    /** `AddActionPoint(location)`: exactly one new point, at the end, placed with the current extrinsic. */
    method AddActionPoint(location: Vec3)
      requires Valid() && AllInPlace()
      modifies this
      ensures Valid() && AllInPlace()
      ensures |actionPoints| == |old(actionPoints)| + 1
      ensures actionPoints[..|old(actionPoints)|] == old(actionPoints)
      ensures var p := actionPoints[|old(actionPoints)|];
        fresh(p) && fresh(p.instance) && p.location == location &&
        p.rotationMatrix == rotationMatrix && p.translation == translation &&
        p.instance.position == RigidPoint.Placed(rotationMatrix, translation, location)
      ensures rotationMatrix == old(rotationMatrix) && translation == old(translation)
    {
      var instance := new RigidPoint.Instance();
      var tmp := new RigidPoint.ActionPoint(location, instance, rotationMatrix, translation);
      actionPoints := actionPoints + [tmp];
    }

    /**
     * `MovePoint(change, id)`: point id moves; an index outside the list
     * throws ArgumentOutOfRangeException and nothing changes.
     */
    method MovePoint(change: Vec3, id: int) returns (s: Status)
      requires Valid() && AllInPlace()
      modifies if 0 <= id < |actionPoints| then {actionPoints[id], actionPoints[id].instance} else {}
      ensures AllInPlace()
      ensures s == (if 0 <= id < |actionPoints| then Done else Threw(ArgumentOutOfRange))
      ensures 0 <= id < |actionPoints| ==>
        actionPoints[id].location == Add3(old(actionPoints[id].location), change) &&
        actionPoints[id].instance.position == RigidPoint.Placed(actionPoints[id].rotationMatrix, actionPoints[id].translation, actionPoints[id].location)
    {
      if 0 <= id < |actionPoints| {
        actionPoints[id].Move(change);
        s := Done;
      } else {
        s := Threw(ArgumentOutOfRange);
      }
    }

    /**
     * `RemoveActionPoint(id)`: the point at id is dropped and the later ones
     * shift down; an index outside the list throws and nothing changes.
     */
    method RemoveActionPoint(id: int) returns (s: Status)
      requires Valid() && AllInPlace()
      modifies this`actionPoints
      ensures Valid() && AllInPlace()
      ensures 0 <= id < |old(actionPoints)| ==>
        s == Done && actionPoints == old(actionPoints[..id]) + old(actionPoints[id + 1..])
      ensures !(0 <= id < |old(actionPoints)|) ==> s == Threw(ArgumentOutOfRange) && actionPoints == old(actionPoints)
    {
      if 0 <= id < |actionPoints| {
        actionPoints := actionPoints[..id] + actionPoints[id + 1..];
        s := Done;
      } else {
        s := Threw(ArgumentOutOfRange);
      }
    }
  }

  /** The filled rotation is affine, so every point FillMatrix sets up lands on a finite position. */
  lemma {:induction false} FilledPlacementFinite(location: Vec3)
    ensures Affine(FilledRotation)
    ensures RigidPoint.Placed(FilledRotation, FilledTranslation, location)
         == Finite(Add3(AffinePoint(FilledRotation, location), FilledTranslation))
  {
    RigidPoint.AffinePlaced(FilledRotation, FilledTranslation, location);
  }

  /** Removing index id keeps the points before it and shifts the later ones down by one. */
  lemma {:induction false} RemoveShifts(points: seq<RigidPoint.ActionPoint>, id: nat, k: nat)
    requires id < |points| && k < |points| - 1
    ensures var rest := points[..id] + points[id + 1..];
      |rest| == |points| - 1 && rest[k] == (if k < id then points[k] else points[k + 1])
  {
  }
}
