/**
 * The rigid-transform action point of `Classes/ActionPoint.cs`: a location
 * in the calibration frame whose scene instance is kept at
 * `rotation.MultiplyPoint(location) + translation`.
 */
module RigidPoint {
  import opened Linear

  /** The scene object a point drives; only its transform position is modelled. */
  class Instance {
    var position: Point3

    constructor ()
      ensures position == Finite(Zero3)
    {
      position := Finite(Zero3);
    }
  }

  /** Where CalcPosition puts the instance: the rotated location plus the translation. */
  function Placed(rotation: Mat4, translation: Vec3, location: Vec3): Point3 {
    match MultiplyPoint(rotation, location)
    case Finite(v) => Finite(Add3(v, translation))
    case NonFinite => NonFinite
  }

  /** The linear part of an affine map applied to a displacement (w = 0). */
  function Linear3(m: Mat4, c: Vec3): Vec3 {
    var h := Apply(m, Vec4(c.x, c.y, c.z, 0.0));
    Vec3(h.x, h.y, h.z)
  }

  class ActionPoint {
    var location: Vec3
    const instance: Instance
    const rotationMatrix: Mat4
    const translation: Vec3

    /** The instance sits where the location is placed. */
    ghost predicate InPlace()
      reads this, instance
    {
      instance.position == Placed(rotationMatrix, translation, location)
    }

    /**
     * `ActionPoint(location, instance, rotation, translation)`: the raw
     * location first written to the instance is overwritten by CalcPosition.
     */
    constructor (location: Vec3, instance: Instance, rotation: Mat4, translation: Vec3)
      modifies instance
      ensures this.location == location && this.instance == instance
      ensures rotationMatrix == rotation && this.translation == translation
      ensures InPlace()
    {
      this.location := location;
      this.instance := instance;
      rotationMatrix := rotation;
      this.translation := translation;
      new;
      instance.position := Finite(location);
      CalcPosition();
    }

    /** `Move(change)`: the location moves by `change` and the instance follows. */
    method Move(change: Vec3)
      modifies this, instance
      ensures location == Add3(old(location), change)
      ensures InPlace()
    {
      location := location.(x := location.x + change.x);
      location := location.(y := location.y + change.y);
      location := location.(z := location.z + change.z);
      CalcPosition();
    }

    /** `CalcPosition()`: only the instance's position is written. */
    method CalcPosition()
      modifies instance
      ensures InPlace()
    {
      var rotatedPoint := MultiplyPoint(rotationMatrix, location);
      instance.position := match rotatedPoint
        case Finite(v) => Finite(Add3(v, translation))
        case NonFinite => NonFinite;
    }
  }

  /**
   * Two moves leave the location, and so the placed position, where one
   * move by their sum does; a zero move changes neither.
   */
  lemma {:induction false} MovesCompose(rotation: Mat4, translation: Vec3, location: Vec3, a: Vec3, b: Vec3)
    ensures Add3(Add3(location, a), b) == Add3(location, Add3(a, b))
    ensures Placed(rotation, translation, Add3(Add3(location, a), b)) == Placed(rotation, translation, Add3(location, Add3(a, b)))
    ensures Add3(location, Zero3) == location
  {
  }

  /** With an affine rotation matrix the placed position is finite: R·location + t. */
  lemma {:induction false} AffinePlaced(rotation: Mat4, translation: Vec3, location: Vec3)
    requires Affine(rotation)
    ensures Placed(rotation, translation, location) == Finite(Add3(AffinePoint(rotation, location), translation))
  {
    AffineKeepsW(rotation, location);
  }

  /**
   * With an affine rotation matrix a move by c shifts the placed position
   * by the linear part of the rotation applied to c.
   */
  lemma {:induction false} MoveShiftsPosition(rotation: Mat4, translation: Vec3, location: Vec3, c: Vec3)
    requires Affine(rotation)
    ensures Placed(rotation, translation, Add3(location, c)).Finite?
    ensures Placed(rotation, translation, Add3(location, c)).v
         == Add3(Placed(rotation, translation, location).v, Linear3(rotation, c))
  {
    AffinePlaced(rotation, translation, location);
    AffinePlaced(rotation, translation, Add3(location, c));
    var r := rotation;
    RowSplit(r.r0, location, c);
    RowSplit(r.r1, location, c);
    RowSplit(r.r2, location, c);
  }

  /** A row applied to (p + c, 1) is the row applied to (p, 1) plus the row applied to (c, 0). */
  lemma {:induction false} RowSplit(row: Vec4, p: Vec3, c: Vec3)
    ensures Dot4(row, Homogeneous(Add3(p, c))) == Dot4(row, Homogeneous(p)) + Dot4(row, Vec4(c.x, c.y, c.z, 0.0))
  {
  }
}
