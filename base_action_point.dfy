/**
 * `Base.ActionPoint`: an action point's server record with its
 * orientation and robot-joints lists, the lookups into them, free-name
 * generation ("default", "default_1", ...) and the edits the server
 * pushes. The abstract scene position, orientation and size are bound to
 * `ActionPoint2D`, the one concrete subclass.
 *
 * The Swagger records are values here: an edit of a list entry replaces
 * that entry. A `null` list is `None`, and touching it throws
 * NullReferenceException as in C#.
 */
module BaseActionPoint {
  import opened Wrappers
  import opened Linear
  import opened Records
  import ActionPoint2D

  // ---------------------------------------------------------------------
  // First-match search (the `foreach ... if (x.Key == k) return x` loops)

  function OrientationId(o: NamedOrientation): string { o.id }
  function OrientationName(o: NamedOrientation): string { o.name }
  function JointsId(j: ProjectRobotJoints): string { j.id }
  function JointsName(j: ProjectRobotJoints): string { j.name }

  /** The index of the first element whose key is k, or |s| when there is none. */
  function FirstIndex<T>(s: seq<T>, key: T -> string, k: string): (i: nat)
    ensures i <= |s|
    ensures forall j :: 0 <= j < i ==> key(s[j]) != k
    ensures i < |s| ==> key(s[i]) == k
  {
    if s == [] then 0
    else if key(s[0]) == k then 0
    else 1 + FirstIndex(s[1..], key, k)
  }

  /** x is the first element of s whose key is k. */
  predicate FirstWith<T(==)>(s: seq<T>, key: T -> string, k: string, x: T) {
    exists i :: 0 <= i < |s| && s[i] == x && key(x) == k && forall j :: 0 <= j < i ==> key(s[j]) != k
  }

  /**
   * The lookup of a nullable list: NullReferenceException for a null list,
   * the first match, or KeyNotFoundException when nothing matches.
   */
  function Find<T>(s: Option<seq<T>>, key: T -> string, k: string): (r: Result<T>)
    ensures s.None? ==> r == Throws(NullReference)
    ensures s.Some? && r.Ok? ==>
      key(r.value) == k && exists i :: 0 <= i < |s.value| && s.value[i] == r.value && forall j :: 0 <= j < i ==> key(s.value[j]) != k
    ensures s.Some? && r.Throws? ==> r.error == KeyNotFound && forall j :: 0 <= j < |s.value| ==> key(s.value[j]) != k
  {
    match s
    case None => Throws(NullReference)
    case Some(xs) =>
      var i := FirstIndex(xs, key, k);
      if i < |xs| then Ok(xs[i]) else Throws(KeyNotFound)
  }

  /** The list with its first entry keyed k removed; unchanged when k is absent. */
  function RemoveFirst<T>(s: seq<T>, key: T -> string, k: string): seq<T> {
    var i := FirstIndex(s, key, k);
    if i < |s| then s[..i] + s[i + 1..] else s
  }

  /** RemoveFirst drops exactly the first match: the entries before it stay, the later ones shift down. */
  lemma {:induction false} RemoveFirstShape<T>(s: seq<T>, key: T -> string, k: string)
    ensures var i := FirstIndex(s, key, k);
      var r := RemoveFirst(s, key, k);
      (i == |s| ==> r == s) &&
      (i < |s| ==> |r| == |s| - 1 && r[..i] == s[..i] && forall j :: i <= j < |r| ==> r[j] == s[j + 1])
    ensures multiset(RemoveFirst(s, key, k)) <= multiset(s)
  {
    var i := FirstIndex(s, key, k);
    if i < |s| {
      assert s == s[..i] + [s[i]] + s[i + 1..];
      assert multiset(s) == multiset(s[..i]) + multiset{s[i]} + multiset(s[i + 1..]);
    }
  }

  // ---------------------------------------------------------------------
  // Entry updates

  /** `UpdateOrientation` on the list: the first entry with o's id takes o's orientation and name. */
  function WithOrientation(os: seq<NamedOrientation>, o: NamedOrientation): seq<NamedOrientation> {
    var i := FirstIndex(os, OrientationId, o.id);
    if i < |os| then os[i := os[i].(orientation := o.orientation, name := o.name)] else os
  }

  /** `BaseUpdateOrientation` on the list: only the name of the first entry with o's id. */
  function WithOrientationName(os: seq<NamedOrientation>, o: NamedOrientation): seq<NamedOrientation> {
    var i := FirstIndex(os, OrientationId, o.id);
    if i < |os| then os[i := os[i].(name := o.name)] else os
  }

  /** `UpdateJoints` on the list: joints, name, validity and robot of the first entry with j's id. */
  function WithJoints(js: seq<ProjectRobotJoints>, j: ProjectRobotJoints): seq<ProjectRobotJoints> {
    var i := FirstIndex(js, JointsId, j.id);
    if i < |js| then js[i := js[i].(joints := j.joints, name := j.name, isValid := j.isValid, robotId := j.robotId)] else js
  }

  /** `BaseUpdateJoints` on the list: name, validity and robot, but not the joint values. */
  function WithJointsHeader(js: seq<ProjectRobotJoints>, j: ProjectRobotJoints): seq<ProjectRobotJoints> {
    var i := FirstIndex(js, JointsId, j.id);
    if i < |js| then js[i := js[i].(name := j.name, isValid := j.isValid, robotId := j.robotId)] else js
  }

  /**
   * Since the entry is found by its id, an orientation update leaves
   * exactly o at the first entry with o's id, a name update keeps the
   * entry's orientation, and every other entry is untouched.
   */
  lemma {:induction false} OrientationUpdateShape(os: seq<NamedOrientation>, o: NamedOrientation)
    requires FirstIndex(os, OrientationId, o.id) < |os|
    ensures var i := FirstIndex(os, OrientationId, o.id);
      |WithOrientation(os, o)| == |os| && WithOrientation(os, o)[i] == o &&
      WithOrientationName(os, o)[i] == o.(orientation := os[i].orientation) &&
      forall j :: 0 <= j < |os| && j != i ==> WithOrientation(os, o)[j] == os[j] && WithOrientationName(os, o)[j] == os[j]
  {
    var i := FirstIndex(os, OrientationId, o.id);
    assert OrientationId(os[i]) == o.id;
  }

  /**
   * A joints update leaves exactly j at the first entry with j's id; the
   * header update keeps that entry's joint values; nothing else changes.
   */
  lemma {:induction false} JointsUpdateShape(js: seq<ProjectRobotJoints>, j: ProjectRobotJoints)
    requires FirstIndex(js, JointsId, j.id) < |js|
    ensures var i := FirstIndex(js, JointsId, j.id);
      |WithJoints(js, j)| == |js| && WithJoints(js, j)[i] == j &&
      WithJointsHeader(js, j)[i] == j.(joints := js[i].joints) &&
      forall k :: 0 <= k < |js| && k != i ==> WithJoints(js, j)[k] == js[k] && WithJointsHeader(js, j)[k] == js[k]
  {
    var i := FirstIndex(js, JointsId, j.id);
    assert JointsId(js[i]) == j.id;
  }

  predicate DistinctIds(os: seq<NamedOrientation>) {
    forall i, j :: 0 <= i < j < |os| ==> os[i].id != os[j].id
  }

  /**
   * What `UpdateActionPoint`'s loop leaves after its first n steps: step i
   * updates the list with its own current entry i.
   */
  function Sweep(os: seq<NamedOrientation>, n: nat): (r: seq<NamedOrientation>)
    requires n <= |os|
    ensures |r| == |os|
    ensures forall j :: 0 <= j < |os| ==> r[j].id == os[j].id
  {
    if n == 0 then os
    else
      var p := Sweep(os, n - 1);
      SweepStep(p, n - 1);
      WithOrientation(p, p[n - 1])
  }

  /** One step keeps the length and every id. */
  lemma {:induction false} SweepStep(p: seq<NamedOrientation>, i: nat)
    requires i < |p|
    ensures |WithOrientation(p, p[i])| == |p|
    ensures forall j :: 0 <= j < |p| ==> WithOrientation(p, p[i])[j].id == p[j].id
  {
    var k := FirstIndex(p, OrientationId, p[i].id);
    if k < |p| {
      assert OrientationId(p[k]) == p[i].id;
    }
  }

  /** With distinct ids every step finds its own entry, so the sweep changes nothing. */
  lemma {:induction false} SweepDistinct(os: seq<NamedOrientation>, n: nat)
    requires n <= |os| && DistinctIds(os)
    ensures Sweep(os, n) == os
  {
    if n > 0 {
      SweepDistinct(os, n - 1);
      SelfUpdate(os, n - 1);
    }
  }

  /** With distinct ids, re-applying entry i finds entry i itself and changes nothing. */
  lemma {:induction false} SelfUpdate(os: seq<NamedOrientation>, i: nat)
    requires i < |os| && DistinctIds(os)
    ensures WithOrientation(os, os[i]) == os
  {
    var k := FirstIndex(os, OrientationId, os[i].id);
    assert OrientationId(os[i]) == os[i].id;
    assert k == i;
    assert os[i].(orientation := os[i].orientation, name := os[i].name) == os[i];
  }

  // ---------------------------------------------------------------------
  // Free names

  function DigitChar(d: nat): char
    requires d < 10
  {
    "0123456789"[d]
  }

  /** `int.ToString()` for a non-negative value. */
  function NatToString(n: nat): (s: string)
    ensures |s| >= 1
    ensures (n < 10) == (|s| == 1)
    decreases n
  {
    if n < 10 then [DigitChar(n)] else NatToString(n / 10) + [DigitChar(n % 10)]
  }

  /** Distinct numbers print differently. */
  lemma {:induction false} NatToStringInjective(a: nat, b: nat)
    requires NatToString(a) == NatToString(b)
    ensures a == b
    decreases a
  {
    var sa, sb := NatToString(a), NatToString(b);
    if a < 10 {
      assert sa[0] == DigitChar(a) && sb[0] == DigitChar(b);
    } else {
      assert sa[|sa| - 1] == DigitChar(a % 10) && sb[|sb| - 1] == DigitChar(b % 10);
      assert sa[..|sa| - 1] == NatToString(a / 10) && sb[..|sb| - 1] == NatToString(b / 10);
      NatToStringInjective(a / 10, b / 10);
    }
  }

  /** The k-th name GetFree*Name tries: "default", then "default_1", "default_2", ... */
  function Candidate(k: nat): (c: string)
    ensures (k == 0) == (|c| == 7)
  {
    if k == 0 then "default" else "default_" + NatToString(k)
  }

  lemma {:induction false} CandidateInjective(a: nat, b: nat)
    requires Candidate(a) == Candidate(b)
    ensures a == b
  {
    if a != 0 {
      assert Candidate(a)[8..] == NatToString(a) && Candidate(b)[8..] == NatToString(b);
      NatToStringInjective(a, b);
    }
  }

  /** Candidate k is the first that is not taken. */
  predicate FirstFreeAt(k: nat, taken: set<string>) {
    Candidate(k) !in taken && forall j :: 0 <= j < k ==> Candidate(j) in taken
  }

  /**
   * The first free name is unique, is not taken, and is "default" exactly
   * when "default" is free.
   */
  lemma {:induction false} FirstFreeUnique(a: nat, b: nat, taken: set<string>)
    requires FirstFreeAt(a, taken) && FirstFreeAt(b, taken)
    ensures a == b && Candidate(a) !in taken
    ensures (a == 0) == ("default" !in taken)
  {
    assert Candidate(0) == "default";
  }

  /** At most |taken| candidates can all be taken, so the search stops. */
  lemma {:induction false} CandidatesBound(n: nat, taken: set<string>)
    requires forall j :: 0 <= j < n ==> Candidate(j) in taken
    ensures n <= |taken|
  {
    if n > 0 {
      var rest := taken - {Candidate(n - 1)};
      forall j | 0 <= j < n - 1
        ensures Candidate(j) in rest
      {
        if Candidate(j) == Candidate(n - 1) {
          CandidateInjective(j, n - 1);
        }
      }
      CandidatesBound(n - 1, rest);
    }
  }

  /** One more taken candidate extends the prefix of taken candidates. */
  lemma {:induction false} TakenExtend(n: nat, name: string, taken: set<string>)
    requires forall j :: 0 <= j < n ==> Candidate(j) in taken
    requires name == Candidate(n) && name in taken
    ensures forall j :: 0 <= j < n + 1 ==> Candidate(j) in taken
  {
  }

  function OrientationNames(os: seq<NamedOrientation>): set<string> {
    set o | o in os :: o.name
  }

  function JointsNames(js: seq<ProjectRobotJoints>): set<string> {
    set j | j in js :: j.name
  }

  // ---------------------------------------------------------------------
  // The action point

  class ActionPoint {
    var data: ProjectActionPoint
    var localPosition: Vec3
    var localRotation: Quat

    /** The field initializer: empty id and name, empty lists, zero position. */
    constructor ()
      ensures data == EmptyActionPoint
      ensures localPosition == Zero3 && localRotation == QuatIdentity
    {
      data := EmptyActionPoint;
      localPosition := Zero3;
      localRotation := QuatIdentity;
    }

    /** Every orientation and joints name, when both lists exist. */
    function Taken(): set<string>
      reads this
    {
      (if data.orientations.Some? then OrientationNames(data.orientations.value) else {}) +
      (if data.robotJoints.Some? then JointsNames(data.robotJoints.value) else {})
    }

    /** `GetOrientation(id)`. */
    function GetOrientation(id: string): (r: Result<NamedOrientation>)
      reads this
      ensures r.Ok? ==> r.value.id == id && data.orientations.Some? && r.value in data.orientations.value
      ensures r.Throws? ==> r.error in {NullReference, KeyNotFound}
      ensures r.Throws? && data.orientations.Some? ==> forall o :: o in data.orientations.value ==> o.id != id
      ensures data.orientations.None? ==> r == Throws(NullReference)
      ensures r.Ok? ==> data.orientations.Some? && FirstWith(data.orientations.value, OrientationId, id, r.value)
    {
      Find(data.orientations, OrientationId, id)
    }

    /** `GetJoints(id)`. */
    function GetJoints(id: string): (r: Result<ProjectRobotJoints>)
      reads this
      ensures r.Ok? ==> r.value.id == id && data.robotJoints.Some? && r.value in data.robotJoints.value
      ensures r.Throws? ==> r.error in {NullReference, KeyNotFound}
      ensures r.Throws? && data.robotJoints.Some? ==> forall j :: j in data.robotJoints.value ==> j.id != id
      ensures data.robotJoints.None? ==> r == Throws(NullReference)
      ensures r.Ok? ==> data.robotJoints.Some? && FirstWith(data.robotJoints.value, JointsId, id, r.value)
    {
      Find(data.robotJoints, JointsId, id)
    }

    /** `GetJointsByName(name)`. */
    function GetJointsByName(name: string): (r: Result<ProjectRobotJoints>)
      reads this
      ensures r.Ok? ==> r.value.name == name && data.robotJoints.Some? && r.value in data.robotJoints.value
      ensures r.Throws? ==> r.error in {NullReference, KeyNotFound}
      ensures r.Throws? && data.robotJoints.Some? ==> forall j :: j in data.robotJoints.value ==> j.name != name
      ensures data.robotJoints.None? ==> r == Throws(NullReference)
      ensures r.Ok? ==> data.robotJoints.Some? && FirstWith(data.robotJoints.value, JointsName, name, r.value)
    {
      Find(data.robotJoints, JointsName, name)
    }

    /** `GetOrientationByName(name)`. */
    function GetOrientationByName(name: string): (r: Result<NamedOrientation>)
      reads this
      ensures r.Ok? ==> r.value.name == name && data.orientations.Some? && r.value in data.orientations.value
      ensures r.Throws? ==> r.error in {NullReference, KeyNotFound}
      ensures r.Throws? && data.orientations.Some? ==> forall o :: o in data.orientations.value ==> o.name != name
      ensures data.orientations.None? ==> r == Throws(NullReference)
      ensures r.Ok? ==> data.orientations.Some? && FirstWith(data.orientations.value, OrientationName, name, r.value)
    {
      Find(data.orientations, OrientationName, name)
    }

    /** `GetDefaultPose()`: the action point's position with the orientation whose id is "default". */
    function GetDefaultPose(): (r: Result<Pose>)
      reads this
      ensures data.orientations.None? ==> r == Throws(NullReference)
      ensures data.orientations.Some? ==>
        (r.Ok? <==> exists o :: o in data.orientations.value && o.id == "default")
      ensures r.Ok? ==> (r.value.position == data.position &&
        exists o :: o in data.orientations.value && o.id == "default" && r.value.orientation == o.orientation)
      ensures r.Throws? && data.orientations.Some? ==> r.error == ItemNotFound
      ensures r.Ok? ==>
        data.orientations.Some? &&
        (exists o :: FirstWith(data.orientations.value, OrientationId, "default", o) && r.value.orientation == o.orientation)
    {
      match Find(data.orientations, OrientationId, "default")
      case Ok(o) => Ok(Pose(data.position, o.orientation))
      case Throws(e) => if e == KeyNotFound then Throws(ItemNotFound) else Throws(e)
    }

    /** `OrientationNameExist(name)`: KeyNotFoundException is caught, a null list is not. */
    function OrientationNameExist(name: string): (r: Result<bool>)
      reads this
      ensures data.orientations.None? ==> r == Throws(NullReference)
      ensures data.orientations.Some? ==> r == Ok(name in OrientationNames(data.orientations.value))
    {
      match GetOrientationByName(name)
      case Ok(_) => Ok(true)
      case Throws(e) => if e == KeyNotFound then Ok(false) else Throws(e)
    }

    /** `JointsNameExist(name)`. */
    function JointsNameExist(name: string): (r: Result<bool>)
      reads this
      ensures data.robotJoints.None? ==> r == Throws(NullReference)
      ensures data.robotJoints.Some? ==> r == Ok(name in JointsNames(data.robotJoints.value))
    {
      match GetJointsByName(name)
      case Ok(_) => Ok(true)
      case Throws(e) => if e == KeyNotFound then Ok(false) else Throws(e)
    }

    /**
     * `GetFreeOrientationName()`: the first candidate that is neither an
     * orientation nor a joints name. The check stops at the first list that
     * says "taken"; the final, free candidate needs both lists, so a null
     * list always ends in NullReferenceException.
     */
    method GetFreeOrientationName() returns (r: Result<string>)
      ensures data.orientations.None? || data.robotJoints.None? ==> r == Throws(NullReference)
      ensures data.orientations.Some? && data.robotJoints.Some? ==>
        r.Ok? && exists k :: r.value == Candidate(k) && FirstFreeAt(k, Taken())
      ensures r.Ok? ==> r.value !in Taken()
    {
      ghost var taken := Taken();
      var i: nat := 1;
      var hasFreeName := false;
      var freeName := "default";
      while !hasFreeName
        invariant 1 <= i
        invariant freeName == Candidate(i - 1)
        invariant forall j :: 0 <= j < i - 1 ==> Candidate(j) in taken
        invariant hasFreeName ==> data.orientations.Some? && data.robotJoints.Some? && freeName !in taken
        decreases |taken| + 2 - i + (if hasFreeName then 0 else 1)
      {
        CandidatesBound(i - 1, taken);
        hasFreeName := true;
        var inOrientations := OrientationNameExist(freeName);
        if inOrientations.Throws? {
          return Throws(inOrientations.error);
        }
        var nameExists := inOrientations.value;
        if !nameExists {
          var inJoints := JointsNameExist(freeName);
          if inJoints.Throws? {
            return Throws(inJoints.error);
          }
          nameExists := inJoints.value;
        }
        if nameExists {
          TakenExtend(i - 1, freeName, taken);
          hasFreeName := false;
          freeName := "default_" + NatToString(i);
          i := i + 1;
        }
      }
      return Ok(freeName);
    }

    /** `GetFreeJointsName()`: the same search asking the joints first. */
    method GetFreeJointsName() returns (r: Result<string>)
      ensures data.orientations.None? || data.robotJoints.None? ==> r == Throws(NullReference)
      ensures data.orientations.Some? && data.robotJoints.Some? ==>
        r.Ok? && exists k :: r.value == Candidate(k) && FirstFreeAt(k, Taken())
      ensures r.Ok? ==> r.value !in Taken()
    {
      ghost var taken := Taken();
      var i: nat := 1;
      var hasFreeName := false;
      var freeName := "default";
      while !hasFreeName
        invariant 1 <= i
        invariant freeName == Candidate(i - 1)
        invariant forall j :: 0 <= j < i - 1 ==> Candidate(j) in taken
        invariant hasFreeName ==> data.orientations.Some? && data.robotJoints.Some? && freeName !in taken
        decreases |taken| + 2 - i + (if hasFreeName then 0 else 1)
      {
        CandidatesBound(i - 1, taken);
        hasFreeName := true;
        var inJoints := JointsNameExist(freeName);
        if inJoints.Throws? {
          return Throws(inJoints.error);
        }
        var nameExists := inJoints.value;
        if !nameExists {
          var inOrientations := OrientationNameExist(freeName);
          if inOrientations.Throws? {
            return Throws(inOrientations.error);
          }
          nameExists := inOrientations.value;
        }
        if nameExists {
          TakenExtend(i - 1, freeName, taken);
          hasFreeName := false;
          freeName := "default_" + NatToString(i);
          i := i + 1;
        }
      }
      return Ok(freeName);
    }

    /** `ActionPointBaseUpdate(apData)`: name and position, then the scene position. */
    method ActionPointBaseUpdate(apData: BareActionPoint, kinectPresent: bool)
      modifies this
      ensures data == old(data).(name := apData.name, position := apData.position)
      ensures localPosition == ActionPoint2D.GetScenePosition(apData.position, kinectPresent)
      ensures localRotation == old(localRotation)
    {
      data := data.(name := apData.name);
      data := data.(position := apData.position);
      localPosition := ActionPoint2D.GetScenePosition(data.position, kinectPresent);
    }

    /** `SetSize(size)`, bound to ActionPoint2D's override, which has no effect. */
    method SetSize(size: real)
      modifies this
      ensures unchanged(this)
    {
    }

    /** `InitAP(apData, size)`: the record is taken over and its null lists become empty ones. */
    method InitAP(apData: ProjectActionPoint, size: real, kinectPresent: bool)
      modifies this
      ensures data.id == apData.id && data.name == apData.name && data.parent == apData.parent && data.position == apData.position
      ensures data.actions == (if apData.actions.None? then Some([]) else apData.actions)
      ensures data.orientations == (if apData.orientations.None? then Some([]) else apData.orientations)
      ensures data.robotJoints == (if apData.robotJoints.None? then Some([]) else apData.robotJoints)
      ensures localPosition == ActionPoint2D.GetScenePosition(apData.position, kinectPresent)
      ensures localRotation == old(localRotation)
    {
      data := apData;
      localPosition := ActionPoint2D.GetScenePosition(data.position, kinectPresent);
      SetSize(size);
      if data.actions.None? {
        data := data.(actions := Some([]));
      }
      if data.orientations.None? {
        data := data.(orientations := Some([]));
      }
      if data.robotJoints.None? {
        data := data.(robotJoints := Some([]));
      }
    }

    /**
     * `UpdateOrientation(orientation)`: the first entry with that id takes the
     * new orientation and name; an unknown id throws and changes nothing.
     */
    method UpdateOrientation(o: NamedOrientation) returns (s: Status)
      modifies this
      ensures s.Threw? <==> old(GetOrientation(o.id)).Throws?
      ensures s.Threw? ==> s.error == old(GetOrientation(o.id)).error && data == old(data)
      ensures s.Done? ==> data == old(data).(orientations := Some(WithOrientation(old(data.orientations.value), o)))
      ensures localPosition == old(localPosition) && localRotation == old(localRotation)
    {
      var original := GetOrientation(o.id);
      if original.Throws? {
        return Threw(original.error);
      }
      var os := data.orientations.value;
      var i := FirstIndex(os, OrientationId, o.id);
      data := data.(orientations := Some(os[i := os[i].(orientation := o.orientation)]));
      var os' := data.orientations.value;
      data := data.(orientations := Some(os'[i := os'[i].(name := o.name)]));
      assert data.orientations.value == WithOrientation(os, o);
      return Done;
    }

    /** `BaseUpdateOrientation(orientation)`: only the name of the first entry with that id. */
    method BaseUpdateOrientation(o: NamedOrientation) returns (s: Status)
      modifies this
      ensures s.Threw? <==> old(GetOrientation(o.id)).Throws?
      ensures s.Threw? ==> s.error == old(GetOrientation(o.id)).error && data == old(data)
      ensures s.Done? ==> data == old(data).(orientations := Some(WithOrientationName(old(data.orientations.value), o)))
      ensures localPosition == old(localPosition) && localRotation == old(localRotation)
    {
      var original := GetOrientation(o.id);
      if original.Throws? {
        return Threw(original.error);
      }
      var os := data.orientations.value;
      var i := FirstIndex(os, OrientationId, o.id);
      data := data.(orientations := Some(os[i := os[i].(name := o.name)]));
      return Done;
    }

    /** `AddOrientation(orientation)`: appended at the end. */
    method AddOrientation(o: NamedOrientation) returns (s: Status)
      modifies this
      ensures old(data.orientations).None? ==> s == Threw(NullReference) && data == old(data)
      ensures old(data.orientations).Some? ==> s == Done && data == old(data).(orientations := Some(old(data.orientations.value) + [o]))
      ensures localPosition == old(localPosition) && localRotation == old(localRotation)
    {
      if data.orientations.None? {
        return Threw(NullReference);
      }
      data := data.(orientations := Some(data.orientations.value + [o]));
      return Done;
    }

    /** `RemoveOrientations()`: the list is cleared. */
    method RemoveOrientations() returns (s: Status)
      modifies this
      ensures old(data.orientations).None? ==> s == Threw(NullReference) && data == old(data)
      ensures old(data.orientations).Some? ==> s == Done && data == old(data).(orientations := Some([]))
      ensures localPosition == old(localPosition) && localRotation == old(localRotation)
    {
      if data.orientations.None? {
        return Threw(NullReference);
      }
      data := data.(orientations := Some([]));
      return Done;
    }

    /** `RemoveOrientation(id)`: the scan removes the first entry with that id and stops. */
    method RemoveOrientation(id: string) returns (s: Status)
      modifies this
      ensures old(data.orientations).None? ==> s == Threw(NullReference) && data == old(data)
      ensures old(data.orientations).Some? ==>
        s == Done && data == old(data).(orientations := Some(RemoveFirst(old(data.orientations.value), OrientationId, id)))
      ensures localPosition == old(localPosition) && localRotation == old(localRotation)
    {
      if data.orientations.None? {
        return Threw(NullReference);
      }
      var os := data.orientations.value;
      var i := 0;
      while i < |os|
        invariant 0 <= i <= |os| && data == old(data)
        invariant forall j :: 0 <= j < i ==> OrientationId(os[j]) != id
      {
        if os[i].id == id {
          assert FirstIndex(os, OrientationId, id) == i;
          data := data.(orientations := Some(os[..i] + os[i + 1..]));
          return Done;
        }
        i := i + 1;
      }
      return Done;
    }

    /** `UpdateJoints(joints)`: values, name, validity and robot of the first entry with that id. */
    method UpdateJoints(j: ProjectRobotJoints) returns (s: Status)
      modifies this
      ensures s.Threw? <==> old(GetJoints(j.id)).Throws?
      ensures s.Threw? ==> s.error == old(GetJoints(j.id)).error && data == old(data)
      ensures s.Done? ==> data == old(data).(robotJoints := Some(WithJoints(old(data.robotJoints.value), j)))
      ensures localPosition == old(localPosition) && localRotation == old(localRotation)
    {
      var original := GetJoints(j.id);
      if original.Throws? {
        return Threw(original.error);
      }
      var js := data.robotJoints.value;
      var i := FirstIndex(js, JointsId, j.id);
      data := data.(robotJoints := Some(js[i := js[i].(joints := j.joints)]));
      var js' := data.robotJoints.value;
      data := data.(robotJoints := Some(js'[i := js'[i].(name := j.name, isValid := j.isValid, robotId := j.robotId)]));
      assert data.robotJoints.value == WithJoints(js, j);
      return Done;
    }

    /** `BaseUpdateJoints(joints)`: name, validity and robot only. */
    method BaseUpdateJoints(j: ProjectRobotJoints) returns (s: Status)
      modifies this
      ensures s.Threw? <==> old(GetJoints(j.id)).Throws?
      ensures s.Threw? ==> s.error == old(GetJoints(j.id)).error && data == old(data)
      ensures s.Done? ==> data == old(data).(robotJoints := Some(WithJointsHeader(old(data.robotJoints.value), j)))
      ensures localPosition == old(localPosition) && localRotation == old(localRotation)
    {
      var original := GetJoints(j.id);
      if original.Throws? {
        return Threw(original.error);
      }
      var js := data.robotJoints.value;
      var i := FirstIndex(js, JointsId, j.id);
      data := data.(robotJoints := Some(js[i := js[i].(name := j.name, isValid := j.isValid, robotId := j.robotId)]));
      return Done;
    }

    /** `AddJoints(joints)`: appended at the end. */
    method AddJoints(j: ProjectRobotJoints) returns (s: Status)
      modifies this
      ensures old(data.robotJoints).None? ==> s == Threw(NullReference) && data == old(data)
      ensures old(data.robotJoints).Some? ==> s == Done && data == old(data).(robotJoints := Some(old(data.robotJoints.value) + [j]))
      ensures localPosition == old(localPosition) && localRotation == old(localRotation)
    {
      if data.robotJoints.None? {
        return Threw(NullReference);
      }
      data := data.(robotJoints := Some(data.robotJoints.value + [j]));
      return Done;
    }

    /** `RemoveJoints(id)`: the scan removes the first entry with that id and returns. */
    method RemoveJoints(id: string) returns (s: Status)
      modifies this
      ensures old(data.robotJoints).None? ==> s == Threw(NullReference) && data == old(data)
      ensures old(data.robotJoints).Some? ==>
        s == Done && data == old(data).(robotJoints := Some(RemoveFirst(old(data.robotJoints.value), JointsId, id)))
      ensures localPosition == old(localPosition) && localRotation == old(localRotation)
    {
      if data.robotJoints.None? {
        return Threw(NullReference);
      }
      var js := data.robotJoints.value;
      var i := 0;
      while i < |js|
        invariant 0 <= i <= |js| && data == old(data)
        invariant forall k :: 0 <= k < i ==> JointsId(js[k]) != id
      {
        if js[i].id == id {
          assert FirstIndex(js, JointsId, id) == i;
          data := data.(robotJoints := Some(js[..i] + js[i + 1..]));
          return Done;
        }
        i := i + 1;
      }
      return Done;
    }

    /**
     * `UpdateActionPoint(projectActionPoint)`: the record is replaced, the
     * transform reset, and every orientation re-applied in list order. The
     * action ids and connections it returns are always empty.
     */
    method UpdateActionPoint(pap: ProjectActionPoint, kinectPresent: bool) returns (r: Result<(seq<string>, map<string, string>)>)
      modifies this
      ensures pap.orientations.None? ==> r == Throws(NullReference) && data == pap
      ensures pap.orientations.Some? ==>
        r == Ok(([], map[])) &&
        data == pap.(orientations := Some(Sweep(pap.orientations.value, |pap.orientations.value|)))
      ensures localPosition == ActionPoint2D.GetScenePosition(pap.position, kinectPresent)
      ensures localRotation == ActionPoint2D.GetSceneOrientation()
    {
      data := pap;
      localPosition := ActionPoint2D.GetScenePosition(data.position, kinectPresent);
      localRotation := ActionPoint2D.GetSceneOrientation();
      var currentA: seq<string> := [];
      if data.orientations.None? {
        return Throws(NullReference);
      }
      ghost var os := pap.orientations.value;
      var i := 0;
      while i < |data.orientations.value|
        invariant data.orientations.Some? && |data.orientations.value| == |os|
        invariant 0 <= i <= |os|
        invariant data == pap.(orientations := Some(Sweep(os, i)))
        invariant localPosition == ActionPoint2D.GetScenePosition(pap.position, kinectPresent)
        invariant localRotation == ActionPoint2D.GetSceneOrientation()
      {
        ghost var p := Sweep(os, i);
        var o := data.orientations.value[i];
        assert o == p[i];
        SweepStep(p, i);
        assert FirstIndex(p, OrientationId, o.id) < |os| by {
          assert OrientationId(p[i]) == o.id;
        }
        var s := UpdateOrientation(o);
        assert s.Done? && data == pap.(orientations := Some(WithOrientation(p, o)));
        assert Sweep(os, i + 1) == WithOrientation(p, o);
        i := i + 1;
      }
      assert i == |os| && data.orientations.value == Sweep(os, |os|);
      var connections: map<string, string> := map[];
      return Ok((currentA, connections));
    }

    /** ActionPoint2D's `UpdateActionPoint` override: the base result, unchanged. */
    method UpdateActionPoint2D(pap: ProjectActionPoint, kinectPresent: bool) returns (r: Result<(seq<string>, map<string, string>)>)
      modifies this
      ensures pap.orientations.None? ==> r == Throws(NullReference) && data == pap
      ensures pap.orientations.Some? ==>
        r == Ok(([], map[])) &&
        data == pap.(orientations := Some(Sweep(pap.orientations.value, |pap.orientations.value|)))
      ensures localPosition == ActionPoint2D.GetScenePosition(pap.position, kinectPresent)
      ensures localRotation == ActionPoint2D.GetSceneOrientation()
    {
      var result := UpdateActionPoint(pap, kinectPresent);
      return result;
    }
  }

  /** With distinct orientation ids, UpdateActionPoint leaves the received record as it came. */
  lemma {:induction false} UpdateWithDistinctIds(pap: ProjectActionPoint)
    requires pap.orientations.Some? && DistinctIds(pap.orientations.value)
    ensures pap.(orientations := Some(Sweep(pap.orientations.value, |pap.orientations.value|))) == pap
  {
    SweepDistinct(pap.orientations.value, |pap.orientations.value|);
  }
}
