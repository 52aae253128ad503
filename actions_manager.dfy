/**
 * `Base.ActionsManager` (Assets/Scripts/ActionsManager.cs): the registry of
 * object types announced by the server, keyed by type name, with the
 * readiness flags other managers consult.
 *
 * `ActionObjectMetadata` objects are only reached through this registry, so
 * each entry is a `Metadata` value and an in-place flag update is a map
 * update. The walk up the `Base` chain returns unless it re-enters an entry
 * it has passed through, from where the recursion repeats forever; the
 * operations that walk report that as `StackOverflow`. On a registry
 * ranked by a ghost `rank` on type names, which every `Base` link of a
 * non-"Generic" type lowers, no walk repeats, and the answers are stated
 * there more simply.
 */
module ActionsManager {
  import opened Wrappers
  import opened Records

  /** The walk continues past `obj`: it is neither `kind` nor "Generic", and its base is a key. */
  predicate Continues(kind: string, obj: ObjectTypeMeta, types: map<string, Metadata>) {
    obj.typeName != kind && obj.typeName != "Generic" && obj.baseName in types
  }

  /**
   * The walk of `IsDescendantOfType(kind, obj)` having passed through the
   * entries keyed by `seen`: its answer, or `None` when the next base is one
   * of those entries, from where the same calls repeat for ever.
   */
  function Walk(kind: string, obj: ObjectTypeMeta, types: map<string, Metadata>, seen: set<string>): Option<bool>
    requires seen <= types.Keys
    decreases types.Keys - seen
  {
    if obj.typeName == kind then Some(true)
    else if obj.typeName == "Generic" then Some(false)
    else if obj.baseName !in types then Some(false)
    else if obj.baseName in seen then None
    else Walk(kind, types[obj.baseName].meta, types, seen + {obj.baseName})
  }

  /**
   * `IsDescendantOfType(kind, obj)`: true at a type named `kind`, false at
   * "Generic", otherwise the answer for the entry keyed by `obj`'s base, and
   * false when no key is that base; `None` when the recursion never returns.
   */
  function IsDescendantOfType(kind: string, obj: ObjectTypeMeta, types: map<string, Metadata>): Option<bool> {
    Walk(kind, obj, types, {})
  }

  /**
   * The source's recursion cut off after `calls` nested calls: its answer,
   * or `None` when it is still recursing.
   */
  function Unrolled(kind: string, obj: ObjectTypeMeta, types: map<string, Metadata>, calls: nat): Option<bool>
    decreases calls
  {
    if obj.typeName == kind then Some(true)
    else if obj.typeName == "Generic" then Some(false)
    else if obj.baseName !in types then Some(false)
    else if calls == 0 then None
    else Unrolled(kind, types[obj.baseName].meta, types, calls - 1)
  }

  /** `path` lists, in order, the keys of the entries the walk has continued through to reach `obj`. */
  ghost predicate Passed(kind: string, obj: ObjectTypeMeta, types: map<string, Metadata>, path: seq<string>) {
    (forall i :: 0 <= i < |path| ==> path[i] in types) &&
    (|path| > 0 ==> obj == types[path[|path| - 1]].meta) &&
    (forall i :: 0 <= i < |path| - 1 ==> Continues(kind, types[path[i]].meta, types) && types[path[i]].meta.baseName == path[i + 1])
  }

  /** Once the walk continues from the end of `path` back into it, the recursion never returns. */
  lemma {:induction false} CycleDiverges(kind: string, obj: ObjectTypeMeta, types: map<string, Metadata>, path: seq<string>, i: nat, j: nat, calls: nat)
    requires Passed(kind, obj, types, path) && Continues(kind, obj, types)
    requires i <= j < |path| && obj.baseName == path[i]
    ensures Unrolled(kind, types[path[j]].meta, types, calls) == None
    decreases calls
  {
    if calls > 0 {
      if j < |path| - 1 {
        CycleDiverges(kind, obj, types, path, i, j + 1, calls - 1);
      } else {
        CycleDiverges(kind, obj, types, path, i, i, calls - 1);
      }
    }
  }

  /** When the cut-off recursion has returned, the walk returns the same answer. */
  lemma {:induction false} UnrolledWalk(kind: string, obj: ObjectTypeMeta, types: map<string, Metadata>, path: seq<string>, calls: nat)
    requires Passed(kind, obj, types, path)
    ensures (set x | x in path) <= types.Keys
    ensures Unrolled(kind, obj, types, calls).Some? ==> Walk(kind, obj, types, set x | x in path) == Unrolled(kind, obj, types, calls)
    decreases calls
  {
    var seen := set x | x in path;
    if Continues(kind, obj, types) && calls > 0 {
      var b := obj.baseName;
      if b in seen {
        var i :| 0 <= i < |path| && path[i] == b;
        CycleDiverges(kind, obj, types, path, i, i, calls - 1);
      } else {
        var path' := path + [b];
        assert (set x | x in path') == seen + {b};
        UnrolledWalk(kind, types[b].meta, types, path', calls - 1);
      }
    }
  }

  /** A walk that returns does so within as many nested calls as there are entries it has not passed. */
  lemma {:induction false} WalkReturns(kind: string, obj: ObjectTypeMeta, types: map<string, Metadata>, seen: set<string>, calls: nat)
    requires seen <= types.Keys && calls >= |types.Keys - seen|
    ensures Walk(kind, obj, types, seen).Some? ==> Unrolled(kind, obj, types, calls) == Walk(kind, obj, types, seen)
    decreases types.Keys - seen
  {
    if Continues(kind, obj, types) && obj.baseName !in seen {
      var b := obj.baseName;
      assert types.Keys - seen == (types.Keys - (seen + {b})) + {b};
      WalkReturns(kind, types[b].meta, types, seen + {b}, calls - 1);
    }
  }

  /**
   * `IsDescendantOfType` is the source's recursion: when it answers, the
   * recursion returns that answer within |types| nested calls, and when it
   * is `None` the recursion is still going after any number of calls.
   */
  lemma {:induction false} DescendantIsRecursion(kind: string, obj: ObjectTypeMeta, types: map<string, Metadata>, calls: nat)
    ensures IsDescendantOfType(kind, obj, types).Some? ==> Unrolled(kind, obj, types, |types|) == IsDescendantOfType(kind, obj, types)
    ensures IsDescendantOfType(kind, obj, types).None? ==> Unrolled(kind, obj, types, calls) == None
    ensures Unrolled(kind, obj, types, calls).Some? ==> Unrolled(kind, obj, types, calls) == IsDescendantOfType(kind, obj, types)
  {
    assert types.Keys - {} == types.Keys;
    WalkReturns(kind, obj, types, {}, |types|);
    var none: seq<string> := [];
    UnrolledWalk(kind, obj, types, none, calls);
    assert (set x | x in none) == {};
  }

  /** The walk reads only the announced types: the derived flags never change its answer. */
  lemma {:induction false} WalkMetasOnly(kind: string, obj: ObjectTypeMeta, a: map<string, Metadata>, b: map<string, Metadata>, seen: set<string>)
    requires seen <= a.Keys && SameMetas(a, b)
    ensures Walk(kind, obj, a, seen) == Walk(kind, obj, b, seen)
    decreases a.Keys - seen
  {
    if Continues(kind, obj, a) && obj.baseName !in seen {
      WalkMetasOnly(kind, a[obj.baseName].meta, a, b, seen + {obj.baseName});
    }
  }

  /** The `Base` link of a non-"Generic" type goes to a lower rank. */
  predicate BaseRanked(obj: ObjectTypeMeta, rank: string -> nat) {
    obj.typeName != "Generic" ==> rank(obj.baseName) < rank(obj.typeName)
  }

  /** Every entry is keyed by its own type name and its `Base` link is ranked. */
  predicate Ranked(types: map<string, Metadata>, rank: string -> nat) {
    forall k :: k in types ==> types[k].meta.typeName == k && BaseRanked(types[k].meta, rank)
  }

  /** The walk's answer on a ranked registry, where it always returns. */
  function RankedDescendant(kind: string, obj: ObjectTypeMeta, types: map<string, Metadata>, ghost rank: string -> nat): bool
    requires Ranked(types, rank) && BaseRanked(obj, rank)
    decreases rank(obj.typeName)
  {
    if obj.typeName == kind then true
    else if obj.typeName == "Generic" then false
    else if obj.baseName in types then RankedDescendant(kind, types[obj.baseName].meta, types, rank)
    else false
  }

  /** On a ranked registry no walk re-enters an entry, and it answers as `RankedDescendant`. */
  lemma {:induction false} WalkRanked(kind: string, obj: ObjectTypeMeta, types: map<string, Metadata>, seen: set<string>, rank: string -> nat)
    requires Ranked(types, rank) && BaseRanked(obj, rank) && seen <= types.Keys
    requires forall s :: s in seen ==> rank(obj.typeName) <= rank(s)
    ensures Walk(kind, obj, types, seen) == Some(RankedDescendant(kind, obj, types, rank))
    decreases rank(obj.typeName)
  {
    if Continues(kind, obj, types) {
      WalkRanked(kind, types[obj.baseName].meta, types, seen + {obj.baseName}, rank);
    }
  }

  /**
   * The type names met walking up from `obj`: `obj` itself, then the entry of
   * its base, ending at "Generic" or at a base that is not a key.
   */
  ghost function Ancestry(obj: ObjectTypeMeta, types: map<string, Metadata>, rank: string -> nat): (r: seq<string>)
    requires Ranked(types, rank) && BaseRanked(obj, rank)
    ensures r != [] && r[0] == obj.typeName
    decreases rank(obj.typeName)
  {
    [obj.typeName] + (if obj.typeName != "Generic" && obj.baseName in types then Ancestry(types[obj.baseName].meta, types, rank) else [])
  }

  /** A type descends from `kind` exactly when `kind` is on its chain of bases. */
  lemma {:induction false} DescendantIffAncestor(kind: string, obj: ObjectTypeMeta, types: map<string, Metadata>, rank: string -> nat)
    requires Ranked(types, rank) && BaseRanked(obj, rank)
    ensures RankedDescendant(kind, obj, types, rank) <==> kind in Ancestry(obj, types, rank)
    decreases rank(obj.typeName)
  {
    if obj.typeName != kind && obj.typeName != "Generic" && obj.baseName in types {
      DescendantIffAncestor(kind, types[obj.baseName].meta, types, rank);
    }
  }

  /**
   * A type descends from itself, and from nothing but itself and registered
   * types, none of them of a higher rank.
   */
  lemma {:induction false} DescendantRegistered(kind: string, obj: ObjectTypeMeta, types: map<string, Metadata>, rank: string -> nat)
    requires Ranked(types, rank) && BaseRanked(obj, rank)
    ensures obj.typeName == kind ==> RankedDescendant(kind, obj, types, rank)
    ensures RankedDescendant(kind, obj, types, rank) ==> kind == obj.typeName || kind in types
    ensures RankedDescendant(kind, obj, types, rank) ==> rank(kind) <= rank(obj.typeName)
    decreases rank(obj.typeName)
  {
    if obj.typeName != kind && obj.typeName != "Generic" && obj.baseName in types {
      DescendantRegistered(kind, types[obj.baseName].meta, types, rank);
    }
  }

  /** Two registries with the same keys and the same announced types under them. */
  predicate SameMetas(a: map<string, Metadata>, b: map<string, Metadata>) {
    a.Keys == b.Keys && forall k :: k in a ==> a[k].meta == b[k].meta
  }

  /** The walk reads only the announced types: the derived flags never change its answer. */
  lemma {:induction false} DescendantMetasOnly(kind: string, obj: ObjectTypeMeta,
                                               a: map<string, Metadata>, b: map<string, Metadata>, rank: string -> nat)
    requires Ranked(a, rank) && BaseRanked(obj, rank) && SameMetas(a, b)
    ensures Ranked(b, rank)
    ensures RankedDescendant(kind, obj, a, rank) == RankedDescendant(kind, obj, b, rank)
    decreases rank(obj.typeName)
  {
    if obj.typeName != kind && obj.typeName != "Generic" && obj.baseName in a {
      DescendantMetasOnly(kind, a[obj.baseName].meta, a, b, rank);
    }
  }

  /**
   * `new ActionObjectMetadata(meta: obj)` with `ActionsLoaded` set for
   * abstract and built-in types; the kind flags start false.
   */
  function Announced(obj: ObjectTypeMeta): Metadata {
    Metadata(obj, false, false, false, obj.isAbstract || obj.builtIn)
  }

  /** The `Robot`, `Camera` and `CollisionObject` flags, computed against `types`. */
  function WithKinds(m: Metadata, types: map<string, Metadata>, ghost rank: string -> nat): Metadata
    requires Ranked(types, rank) && BaseRanked(m.meta, rank)
  {
    m.(robot := RankedDescendant("Robot", m.meta, types, rank),
       camera := RankedDescendant("Camera", m.meta, types, rank),
       collisionObject := RankedDescendant("VirtualCollisionObject", m.meta, types, rank))
  }

  /**
   * The `Robot`, `Camera` and `CollisionObject` flags of `m`, computed
   * against `types`; `None` when one of the three walks never returns.
   */
  function KindsOf(m: Metadata, types: map<string, Metadata>): Option<Metadata> {
    var robot := IsDescendantOfType("Robot", m.meta, types);
    var camera := IsDescendantOfType("Camera", m.meta, types);
    var collision := IsDescendantOfType("VirtualCollisionObject", m.meta, types);
    if robot.Some? && camera.Some? && collision.Some? then
      Some(m.(robot := robot.value, camera := camera.value, collisionObject := collision.value))
    else None
  }

  /** On a ranked registry the three walks return, with the ranked answers. */
  lemma {:induction false} KindsRanked(m: Metadata, types: map<string, Metadata>, rank: string -> nat)
    requires Ranked(types, rank) && BaseRanked(m.meta, rank)
    ensures KindsOf(m, types) == Some(WithKinds(m, types, rank))
  {
    WalkRanked("Robot", m.meta, types, {}, rank);
    WalkRanked("Camera", m.meta, types, {}, rank);
    WalkRanked("VirtualCollisionObject", m.meta, types, {}, rank);
  }

  /** The kinds read only the announced types of the registry. */
  lemma {:induction false} KindsMetasOnly(m: Metadata, a: map<string, Metadata>, b: map<string, Metadata>)
    requires SameMetas(a, b)
    ensures KindsOf(m, a) == KindsOf(m, b)
  {
    WalkMetasOnly("Robot", m.meta, a, b, {});
    WalkMetasOnly("Camera", m.meta, a, b, {});
    WalkMetasOnly("VirtualCollisionObject", m.meta, a, b, {});
  }

  /** The names of the first n announced types, in order. */
  function TypeNames(metas: seq<ObjectTypeMeta>, n: nat): (r: seq<string>)
    requires n <= |metas|
    ensures |r| == n && forall i :: 0 <= i < n ==> r[i] == metas[i].typeName
  {
    if n == 0 then [] else TypeNames(metas, n - 1) + [metas[n - 1].typeName]
  }

  /** The set of names of the first n announced types. */
  function TypeSet(metas: seq<ObjectTypeMeta>, n: nat): (r: set<string>)
    requires n <= |metas|
    ensures forall i :: 0 <= i < n ==> metas[i].typeName in r
  {
    if n == 0 then {} else TypeSet(metas, n - 1) + {metas[n - 1].typeName}
  }

  /** A name is among the first n announcements exactly when one of them carries it. */
  lemma {:induction false} TypeSetIff(metas: seq<ObjectTypeMeta>, n: nat, x: string)
    requires n <= |metas|
    ensures x in TypeSet(metas, n) <==> exists i :: 0 <= i < n && metas[i].typeName == x
  {
    if n > 0 {
      TypeSetIff(metas, n - 1, x);
    }
  }

  /** None of the first n announced names is already a key, and no two of them are equal. */
  predicate NewTypes(keys: set<string>, metas: seq<ObjectTypeMeta>, n: nat)
    requires n <= |metas|
  {
    n == 0 || (NewTypes(keys, metas, n - 1) && metas[n - 1].typeName !in keys + TypeSet(metas, n - 1))
  }

  /** `NewTypes` is exactly: fresh names, pairwise distinct. */
  lemma {:induction false} NewTypesIff(keys: set<string>, metas: seq<ObjectTypeMeta>, n: nat)
    requires n <= |metas|
    ensures NewTypes(keys, metas, n) <==>
      (forall i :: 0 <= i < n ==> metas[i].typeName !in keys) &&
      (forall i, j :: 0 <= i < j < n ==> metas[i].typeName != metas[j].typeName)
  {
    if n > 0 {
      NewTypesIff(keys, metas, n - 1);
      TypeSetIff(metas, n - 1, metas[n - 1].typeName);
    }
  }

  /** A shorter prefix of fresh, distinct announcements is fresh and distinct. */
  lemma {:induction false} NewTypesPrefix(keys: set<string>, metas: seq<ObjectTypeMeta>, m: nat, n: nat)
    requires m <= n <= |metas|
    ensures NewTypes(keys, metas, n) ==> NewTypes(keys, metas, m)
    decreases n
  {
    if m < n {
      NewTypesPrefix(keys, metas, m, n - 1);
    }
  }

  /**
   * How many announcements are registered before the first repeated or
   * already present name: the longest prefix of the first n that is fresh
   * and distinct.
   */
  function FreshLength(keys: set<string>, metas: seq<ObjectTypeMeta>, n: nat): (r: nat)
    requires n <= |metas|
    ensures r <= n && NewTypes(keys, metas, r)
    ensures r < n ==> !NewTypes(keys, metas, r + 1)
  {
    if n == 0 || NewTypes(keys, metas, n) then n else FreshLength(keys, metas, n - 1)
  }

  /** A fresh prefix whose next announcement is not fresh (or that is everything) is the longest one. */
  lemma {:induction false} FreshLengthIs(keys: set<string>, metas: seq<ObjectTypeMeta>, n: nat, j: nat)
    requires j <= n <= |metas| && NewTypes(keys, metas, j) && (j < n ==> !NewTypes(keys, metas, j + 1))
    ensures FreshLength(keys, metas, n) == j
    decreases n
  {
    if j < n {
      NewTypesPrefix(keys, metas, j + 1, n);
      FreshLengthIs(keys, metas, n - 1, j);
    }
  }

  /** Every announced type's `Base` link is ranked. */
  predicate MetasRanked(metas: seq<ObjectTypeMeta>, rank: string -> nat) {
    forall i :: 0 <= i < |metas| ==> BaseRanked(metas[i], rank)
  }

  /** The first n announcements are abstract. */
  predicate AllAbstract(metas: seq<ObjectTypeMeta>, n: nat)
    requires n <= |metas|
  {
    n == 0 || (AllAbstract(metas, n - 1) && metas[n - 1].isAbstract)
  }

  /** `AllAbstract` is exactly: each of the first n announcements is abstract. */
  lemma {:induction false} AllAbstractIff(metas: seq<ObjectTypeMeta>, n: nat)
    requires n <= |metas|
    ensures AllAbstract(metas, n) <==> forall i :: 0 <= i < n ==> metas[i].isAbstract
  {
    if n > 0 {
      AllAbstractIff(metas, n - 1);
    }
  }

  /** The first loop of `UpdateObjects`: the first n announced types by name, kinds not yet computed. */
  function Collect(metas: seq<ObjectTypeMeta>, n: nat): (r: map<string, Metadata>)
    requires n <= |metas|
    ensures r.Keys == TypeSet(metas, n)
  {
    if n == 0 then map[] else Collect(metas, n - 1)[metas[n - 1].typeName := Announced(metas[n - 1])]
  }

  /** With distinct names the collected registry holds every announced type under its own name. */
  lemma {:induction false} CollectEntry(metas: seq<ObjectTypeMeta>, n: nat, i: nat)
    requires i < n <= |metas| && NewTypes({}, metas, n)
    ensures Collect(metas, n)[metas[i].typeName] == Announced(metas[i])
  {
    if i < n - 1 {
      CollectEntry(metas, n - 1, i);
      assert metas[i].typeName in TypeSet(metas, n - 1);
    }
  }

  /** Collected ranked announcements form a ranked registry. */
  lemma {:induction false} CollectRanked(metas: seq<ObjectTypeMeta>, n: nat, rank: string -> nat)
    requires n <= |metas| && MetasRanked(metas, rank)
    ensures Ranked(Collect(metas, n), rank)
  {
    if n > 0 {
      CollectRanked(metas, n - 1, rank);
      var c, m := Collect(metas, n - 1), metas[n - 1];
      assert BaseRanked(m, rank);
      assert Collect(metas, n) == c[m.typeName := Announced(m)];
    }
  }

  /** The second loop of `UpdateObjects`: every entry's kinds computed on the whole registry. */
  function Derived(types: map<string, Metadata>, ghost rank: string -> nat): map<string, Metadata>
    requires Ranked(types, rank)
  {
    map k | k in types :: WithKinds(types[k], types, rank)
  }

  /**
   * The registry `UpdateObjects` leaves is self-consistent: each entry's
   * flags are the walk's answers on that very registry.
   */
  lemma {:induction false} DerivedConsistent(types: map<string, Metadata>, rank: string -> nat)
    requires Ranked(types, rank)
    ensures SameMetas(types, Derived(types, rank)) && Ranked(Derived(types, rank), rank)
    ensures forall k :: k in Derived(types, rank) ==>
      Derived(types, rank)[k] == WithKinds(Derived(types, rank)[k], Derived(types, rank), rank)
  {
    var d := Derived(types, rank);
    assert SameMetas(types, d);
    forall k | k in d
      ensures d[k] == WithKinds(d[k], d, rank)
    {
      DescendantMetasOnly("Robot", types[k].meta, types, d, rank);
      DescendantMetasOnly("Camera", types[k].meta, types, d, rank);
      DescendantMetasOnly("VirtualCollisionObject", types[k].meta, types, d, rank);
    }
  }

  /** What a registering operation leaves: the registry, the `AbstractOnlyObjects` flag, and its result. */
  datatype Outcome<R> = Outcome(types: map<string, Metadata>, abstractOnly: bool, result: R)

  /**
   * The loop of `ObjectTypeAdded` after its first n turns on the registry
   * `t0` and the flag `only0`: the registry, the flag and the names added,
   * or the outcome it ended in. A turn lowers the flag at a concrete type,
   * computes the kinds on the registry so far, where a walk that never
   * returns ends everything, and then adds the entry, which throws on a
   * name that is already a key.
   */
  function AddLoop(t0: map<string, Metadata>, only0: bool, metas: seq<ObjectTypeMeta>, n: nat): Outcome<Result<seq<string>>>
    requires n <= |metas|
  {
    if n == 0 then Outcome(t0, only0, Ok([])) else AddTurn(AddLoop(t0, only0, metas, n - 1), metas[n - 1])
  }

  /** One turn of that loop on the announcement `obj`, after the loop has reached `o`. */
  function AddTurn(o: Outcome<Result<seq<string>>>, obj: ObjectTypeMeta): Outcome<Result<seq<string>>> {
    if o.result.Throws? then o
    else
      var only := o.abstractOnly && obj.isAbstract;
      var m := KindsOf(Announced(obj), o.types);
      if m.None? then Outcome(o.types, only, Throws(StackOverflow))
      else if obj.typeName in o.types then Outcome(o.types, only, Throws(DuplicateKey))
      else Outcome(o.types[obj.typeName := m.value], only, Ok(o.result.value + [obj.typeName]))
  }

  /** Once the loop has thrown, later turns change nothing. */
  lemma {:induction false} AddLoopStops(t0: map<string, Metadata>, only0: bool, metas: seq<ObjectTypeMeta>, n: nat, n': nat)
    requires n <= n' <= |metas| && AddLoop(t0, only0, metas, n).result.Throws?
    ensures AddLoop(t0, only0, metas, n') == AddLoop(t0, only0, metas, n)
    decreases n'
  {
    if n < n' {
      AddLoopStops(t0, only0, metas, n, n' - 1);
    }
  }

  /**
   * The additions report every name in order only when all are fresh and
   * distinct, and the keys are then the old ones plus those names.
   */
  lemma {:induction false} AddLoopOk(t0: map<string, Metadata>, only0: bool, metas: seq<ObjectTypeMeta>, n: nat)
    requires n <= |metas|
    ensures var o := AddLoop(t0, only0, metas, n);
      o.result.Ok? ==> NewTypes(t0.Keys, metas, n) && o.result.value == TypeNames(metas, n) &&
                       o.types.Keys == t0.Keys + TypeSet(metas, n)
  {
    if n > 0 {
      AddLoopOk(t0, only0, metas, n - 1);
      var o, obj := AddLoop(t0, only0, metas, n - 1), metas[n - 1];
      assert AddLoop(t0, only0, metas, n) == AddTurn(o, obj);
    }
  }

  /**
   * A repeated or present name makes the additions throw, and the
   * duplicate-key exception comes only from one; a walk that never returns
   * is the one other way they end.
   */
  lemma {:induction false} AddLoopThrows(t0: map<string, Metadata>, only0: bool, metas: seq<ObjectTypeMeta>, n: nat)
    requires n <= |metas|
    ensures var o := AddLoop(t0, only0, metas, n);
      (!NewTypes(t0.Keys, metas, n) ==> o.result.Throws?) &&
      (o.result == Throws(DuplicateKey) ==> !NewTypes(t0.Keys, metas, n)) &&
      (o.result.Throws? ==> o.result.error == DuplicateKey || o.result.error == StackOverflow)
  {
    if n > 0 {
      AddLoopThrows(t0, only0, metas, n - 1);
      AddLoopOk(t0, only0, metas, n - 1);
      var o, obj := AddLoop(t0, only0, metas, n - 1), metas[n - 1];
      assert AddLoop(t0, only0, metas, n) == AddTurn(o, obj);
      if o.result.Ok? {
        assert !NewTypes(t0.Keys, metas, n) <==> obj.typeName in o.types;
      }
    }
  }

  /** Every old entry stays as it was, even when a name repeats, and the flag only falls. */
  lemma {:induction false} AddLoopKeeps(t0: map<string, Metadata>, only0: bool, metas: seq<ObjectTypeMeta>, n: nat)
    requires n <= |metas|
    ensures var o := AddLoop(t0, only0, metas, n);
      (forall k :: k in t0 ==> k in o.types && o.types[k] == t0[k]) && (o.abstractOnly ==> only0)
  {
    if n > 0 {
      AddLoopKeeps(t0, only0, metas, n - 1);
      var o, obj := AddLoop(t0, only0, metas, n - 1), metas[n - 1];
      assert AddLoop(t0, only0, metas, n) == AddTurn(o, obj);
    }
  }

  /**
   * After additions that all succeeded, the entry of the i-th announcement
   * is that announcement with its kinds computed on the registry it
   * arrived at.
   */
  lemma {:induction false} AddLoopEntry(t0: map<string, Metadata>, only0: bool, metas: seq<ObjectTypeMeta>, n: nat, i: nat)
    requires i < n <= |metas| && AddLoop(t0, only0, metas, n).result.Ok?
    ensures metas[i].typeName in AddLoop(t0, only0, metas, n).types
    ensures KindsOf(Announced(metas[i]), AddLoop(t0, only0, metas, i).types).Some?
    ensures AddLoop(t0, only0, metas, n).types[metas[i].typeName] == KindsOf(Announced(metas[i]), AddLoop(t0, only0, metas, i).types).value
  {
    AddLoopLast(t0, only0, metas, n);
    if i < n - 1 {
      AddLoopOk(t0, only0, metas, n - 1);
      AddLoopEntry(t0, only0, metas, n - 1, i);
      assert metas[i].typeName in TypeSet(metas, n - 1);
    }
  }

  /** A turn that succeeds adds its announcement with the kinds it computed, and keeps the rest. */
  lemma AddLoopLast(t0: map<string, Metadata>, only0: bool, metas: seq<ObjectTypeMeta>, n: nat)
    requires 0 < n <= |metas| && AddLoop(t0, only0, metas, n).result.Ok?
    ensures var o, k := AddLoop(t0, only0, metas, n - 1), KindsOf(Announced(metas[n - 1]), AddLoop(t0, only0, metas, n - 1).types);
      o.result.Ok? && k.Some? && AddLoop(t0, only0, metas, n).types == o.types[metas[n - 1].typeName := k.value]
  {
    var o, obj := AddLoop(t0, only0, metas, n - 1), metas[n - 1];
    assert AddLoop(t0, only0, metas, n) == AddTurn(o, obj);
  }

  /** On a ranked registry with ranked announcements no walk repeats, and the registry stays ranked. */
  lemma {:induction false} AddLoopRanked(t0: map<string, Metadata>, only0: bool, metas: seq<ObjectTypeMeta>, n: nat, rank: string -> nat)
    requires Ranked(t0, rank) && MetasRanked(metas, rank) && n <= |metas|
    ensures Ranked(AddLoop(t0, only0, metas, n).types, rank)
    ensures AddLoop(t0, only0, metas, n).result != Throws(StackOverflow)
  {
    if n > 0 {
      AddLoopRanked(t0, only0, metas, n - 1, rank);
      var o, obj := AddLoop(t0, only0, metas, n - 1), metas[n - 1];
      assert AddLoop(t0, only0, metas, n) == AddTurn(o, obj);
      if o.result.Ok? {
        assert BaseRanked(obj, rank);
        KindsRanked(Announced(obj), o.types, rank);
        var m := WithKinds(Announced(obj), o.types, rank);
        assert m.meta == obj;
        if obj.typeName !in o.types {
          assert AddTurn(o, obj).types == o.types[obj.typeName := m];
        }
      }
    }
  }

  /**
   * Without a walk that never returns, the additions register exactly the
   * longest fresh prefix, and the name that threw is a key.
   */
  lemma {:induction false} AddLoopFresh(t0: map<string, Metadata>, only0: bool, metas: seq<ObjectTypeMeta>, n: nat)
    requires n <= |metas| && AddLoop(t0, only0, metas, n).result != Throws(StackOverflow)
    ensures var o := AddLoop(t0, only0, metas, n);
      o.types.Keys == t0.Keys + TypeSet(metas, FreshLength(t0.Keys, metas, n)) &&
      (o.result.Throws? ==> FreshLength(t0.Keys, metas, n) < n && metas[FreshLength(t0.Keys, metas, n)].typeName in o.types)
  {
    if n > 0 {
      var o := AddLoop(t0, only0, metas, n - 1);
      if o.result.Ok? {
        AddLoopOk(t0, only0, metas, n - 1);
        AddFreshTurn(t0, only0, metas, n);
      } else {
        AddLoopStops(t0, only0, metas, n - 1, n);
        AddLoopFresh(t0, only0, metas, n - 1);
        assert !NewTypes(t0.Keys, metas, n);
      }
    }
  }

  /** The turn of `AddLoopFresh` after additions that all succeeded. */
  lemma {:induction false} AddFreshTurn(t0: map<string, Metadata>, only0: bool, metas: seq<ObjectTypeMeta>, n: nat)
    requires 0 < n <= |metas| && AddLoop(t0, only0, metas, n).result != Throws(StackOverflow)
    requires var o := AddLoop(t0, only0, metas, n - 1);
      o.result.Ok? && NewTypes(t0.Keys, metas, n - 1) && o.types.Keys == t0.Keys + TypeSet(metas, n - 1)
    ensures var o := AddLoop(t0, only0, metas, n);
      o.types.Keys == t0.Keys + TypeSet(metas, FreshLength(t0.Keys, metas, n)) &&
      (o.result.Throws? ==> FreshLength(t0.Keys, metas, n) == n - 1 && metas[n - 1].typeName in o.types)
  {
    var o, obj := AddLoop(t0, only0, metas, n - 1), metas[n - 1];
    assert AddLoop(t0, only0, metas, n) == AddTurn(o, obj);
    if NewTypes(t0.Keys, metas, n) {
      assert FreshLength(t0.Keys, metas, n) == n;
    } else {
      FreshLengthIs(t0.Keys, metas, n, n - 1);
    }
  }

  /**
   * An announcement whose base closes a cycle through the registry is
   * registered: with "A" based on "B" registered, "B" based on "A" is added,
   * its walk stopping at "A", whose base is not a key yet; every later walk
   * from "A" through the registry never returns.
   */
  lemma CycleClosingAdded()
    ensures var a := ObjectTypeMeta("A", "B", false, false, false, true, None);
      var b := ObjectTypeMeta("B", "A", false, false, false, true, None);
      var o := AddLoop(map["A" := Announced(a)], false, [b], 1);
      o.result == Ok(["B"]) && o.types.Keys == {"A", "B"} &&
      IsDescendantOfType("Robot", a, o.types) == None
  {
    var a := ObjectTypeMeta("A", "B", false, false, false, true, None);
    var b := ObjectTypeMeta("B", "A", false, false, false, true, None);
    var t0 := map["A" := Announced(a)];
    assert {} + {"A"} == {"A"};
    assert IsDescendantOfType("Robot", b, t0) == Walk("Robot", a, t0, {"A"}) == Some(false);
    assert IsDescendantOfType("Camera", b, t0) == Walk("Camera", a, t0, {"A"}) == Some(false);
    assert IsDescendantOfType("VirtualCollisionObject", b, t0) == Walk("VirtualCollisionObject", a, t0, {"A"}) == Some(false);
    var k := KindsOf(Announced(b), t0);
    assert k.Some? && k.value.meta == b;
    var o0 := Outcome(t0, false, Ok([]));
    assert AddLoop(t0, false, [b], 0) == o0;
    assert "B" !in t0 && [] + ["B"] == ["B"];
    assert AddTurn(o0, b) == Outcome(t0["B" := k.value], false, Ok(["B"]));
    var t := t0["B" := k.value];
    assert {} + {"B"} == {"B"} && {"B"} + {"A"} == {"B", "A"};
    assert Walk("Robot", a, t, {"B", "A"}) == None;
    assert Walk("Robot", b, t, {"B"}) == None;
    assert IsDescendantOfType("Robot", a, t) == None;
  }

  /**
   * The first loop of `UpdateObjects`: the announcements up to the first
   * repeated name are collected, kinds not yet computed; the repeated name
   * throws after the flag has seen it.
   */
  function Collection(only0: bool, metas: seq<ObjectTypeMeta>): Outcome<Status> {
    var j := FreshLength({}, metas, |metas|);
    if j == |metas| then Outcome(Collect(metas, j), only0 && AllAbstract(metas, j), Done)
    else Outcome(Collect(metas, j), only0 && AllAbstract(metas, j + 1), Threw(DuplicateKey))
  }

  /** Collected ranked announcements form a ranked registry. */
  lemma {:induction false} CollectionRanked(only0: bool, metas: seq<ObjectTypeMeta>, rank: string -> nat)
    requires MetasRanked(metas, rank)
    ensures Ranked(Collection(only0, metas).types, rank)
  {
    CollectRanked(metas, FreshLength({}, metas, |metas|), rank);
  }

  /**
   * `UpdateObjects`: the registry is replaced by the collection; when no
   * name repeats, every entry's kinds are then computed on the whole
   * registry.
   */
  function Replacement(only0: bool, metas: seq<ObjectTypeMeta>, ghost rank: string -> nat): Outcome<Status>
    requires MetasRanked(metas, rank)
  {
    var c := Collection(only0, metas);
    if c.result == Done then
      CollectionRanked(only0, metas, rank);
      Outcome(Derived(c.types, rank), c.abstractOnly, Done)
    else c
  }

  /**
   * The replacement succeeds exactly when the announced names are
   * distinct; then the registry's keys are exactly those names and it is
   * ranked, otherwise the name that threw is already registered.
   */
  lemma {:induction false} ReplacementSpec(only0: bool, metas: seq<ObjectTypeMeta>, rank: string -> nat)
    requires MetasRanked(metas, rank)
    ensures var o := Replacement(only0, metas, rank);
      (o.result == Done <==> NewTypes({}, metas, |metas|)) &&
      (o.abstractOnly ==> only0) &&
      o.types.Keys == TypeSet(metas, FreshLength({}, metas, |metas|)) &&
      Ranked(o.types, rank) &&
      (o.result != Done ==> o.result == Threw(DuplicateKey) && metas[FreshLength({}, metas, |metas|)].typeName in o.types)
  {
    var j := FreshLength({}, metas, |metas|);
    CollectRanked(metas, j, rank);
    CollectionRanked(only0, metas, rank);
    if j == |metas| {
      assert NewTypes({}, metas, |metas|);
      DerivedConsistent(Collect(metas, j), rank);
    } else {
      NewTypesPrefix({}, metas, j + 1, |metas|);
    }
  }

  /**
   * After a successful replacement each announced type is registered under
   * its own name, with its kinds computed on the final registry.
   */
  lemma {:induction false} ReplacementEntry(only0: bool, metas: seq<ObjectTypeMeta>, i: nat, rank: string -> nat)
    requires MetasRanked(metas, rank) && i < |metas| && NewTypes({}, metas, |metas|)
    ensures var o := Replacement(only0, metas, rank);
      Ranked(o.types, rank) && o.types[metas[i].typeName] == WithKinds(Announced(metas[i]), o.types, rank)
  {
    var c := Collect(metas, |metas|);
    CollectRanked(metas, |metas|, rank);
    CollectEntry(metas, |metas|, i);
    DerivedConsistent(c, rank);
    assert FreshLength({}, metas, |metas|) == |metas|;
  }

  /** Every entry's three walks return on the registry. */
  predicate KindsReturn(types: map<string, Metadata>) {
    forall k :: k in types ==> KindsOf(types[k], types).Some?
  }

  /** The second loop of `UpdateObjects` when every walk returns: each entry's kinds computed on the registry. */
  function Rederived(types: map<string, Metadata>): map<string, Metadata>
    requires KindsReturn(types)
  {
    map k | k in types :: KindsOf(types[k], types).value
  }

  /**
   * `UpdateObjects`: the registry is replaced by the collection; when no
   * name repeats, every entry's kinds are then computed on the whole
   * registry, unless one of those walks never returns.
   */
  function Replace(only0: bool, metas: seq<ObjectTypeMeta>): Outcome<Status> {
    var c := Collection(only0, metas);
    if c.result != Done then c
    else if KindsReturn(c.types) then Outcome(Rederived(c.types), c.abstractOnly, Done)
    else Outcome(c.types, c.abstractOnly, Threw(StackOverflow))
  }

  /**
   * On any announcement: the replacement throws `ArgumentException` exactly
   * when a name repeats; otherwise its keys are exactly the announced
   * names, and when it completes each entry's kinds are the walks' answers
   * on the final registry; the flag never rises.
   */
  lemma {:induction false} ReplaceSpec(only0: bool, metas: seq<ObjectTypeMeta>)
    ensures var o := Replace(only0, metas);
      (o.result == Threw(DuplicateKey) <==> !NewTypes({}, metas, |metas|)) &&
      (o.result != Threw(DuplicateKey) ==> o.types.Keys == TypeSet(metas, |metas|)) &&
      (o.result.Threw? ==> o.result.error == DuplicateKey || o.result.error == StackOverflow) &&
      (o.result == Done ==> forall k :: k in o.types ==> KindsOf(o.types[k], o.types) == Some(o.types[k])) &&
      (o.abstractOnly ==> only0)
  {
    var j := FreshLength({}, metas, |metas|);
    var c := Collection(only0, metas);
    if j == |metas| {
      assert NewTypes({}, metas, |metas|);
      if KindsReturn(c.types) {
        var d := Rederived(c.types);
        assert SameMetas(c.types, d);
        forall k | k in d
          ensures KindsOf(d[k], d) == Some(d[k])
        {
          KindsMetasOnly(d[k], c.types, d);
        }
      }
    } else {
      NewTypesPrefix({}, metas, j + 1, |metas|);
    }
  }

  /** With ranked announcements no walk repeats, and the replacement is what `Replacement` states. */
  lemma {:induction false} ReplaceRanked(only0: bool, metas: seq<ObjectTypeMeta>, rank: string -> nat)
    requires MetasRanked(metas, rank)
    ensures Replace(only0, metas) == Replacement(only0, metas, rank)
  {
    var c := Collection(only0, metas);
    CollectionRanked(only0, metas, rank);
    if c.result == Done {
      forall k | k in c.types
        ensures KindsOf(c.types[k], c.types) == Some(WithKinds(c.types[k], c.types, rank))
      {
        KindsRanked(c.types[k], c.types, rank);
      }
      assert Rederived(c.types) == Derived(c.types, rank);
    }
  }

  /** The entries `Update` waits for: every type not disabled has its actions loaded. */
  predicate AllLoaded(types: map<string, Metadata>) {
    forall k :: k in types ==> types[k].meta.disabled || types[k].actionsLoaded
  }

  /**
   * The removals reported by `ObjectTypeRemoved`: each requested key that is
   * present and not requested before, in request order.
   */
  function FirstHits(data: seq<string>, keys: set<string>): seq<string>
    decreases |data|
  {
    if data == [] then []
    else
      var init, last := data[..|data| - 1], data[|data| - 1];
      FirstHits(init, keys) + (if last in keys && last !in init then [last] else [])
  }

  /** The reported removals are exactly the requested keys that were present, each once. */
  lemma {:induction false} FirstHitsSpec(data: seq<string>, keys: set<string>)
    ensures forall x :: x in FirstHits(data, keys) <==> x in data && x in keys
    ensures forall i, j :: 0 <= i < j < |FirstHits(data, keys)| ==> FirstHits(data, keys)[i] != FirstHits(data, keys)[j]
    decreases |data|
  {
    if data != [] {
      var init, last := data[..|data| - 1], data[|data| - 1];
      FirstHitsSpec(init, keys);
      assert data == init + [last];
    }
  }

  class ActionsManager {
    var types: map<string, Metadata>
    var actionsReady: bool
    var actionObjectsLoaded: bool
    var abstractOnlyObjects: bool
    /** The behaviour's `enabled` flag: Unity calls `Update` only while it is set. */
    var enabled: bool

    /** The field initializers followed by `Awake()`. */
    constructor ()
      ensures types == map[] && !actionsReady && !actionObjectsLoaded && !abstractOnlyObjects && enabled
    {
      types := map[];
      actionsReady := false;
      actionObjectsLoaded := false;
      abstractOnlyObjects := false;
      enabled := true;
    }

    /** `Init()`, which `Start` and `OnDisconnected` call. */
    method Init()
      modifies this
      ensures types == map[] && abstractOnlyObjects && !actionsReady && !actionObjectsLoaded
      ensures enabled == old(enabled)
    {
      types := map[];
      abstractOnlyObjects := true;
      actionsReady := false;
      actionObjectsLoaded := false;
    }

    /**
     * `Update()`: once the object types are loaded and every enabled type
     * has its actions, the manager becomes ready and disables itself.
     */
    method Update()
      modifies this
      ensures types == old(types) && actionObjectsLoaded == old(actionObjectsLoaded)
      ensures abstractOnlyObjects == old(abstractOnlyObjects)
      ensures var fires := !old(actionsReady) && old(actionObjectsLoaded) && AllLoaded(old(types));
        actionsReady == (old(actionsReady) || fires) && enabled == (if fires then false else old(enabled))
    {
      if !actionsReady && actionObjectsLoaded {
        var loaded := EveryActionLoaded(types);
        if !loaded {
          return;
        }
        actionsReady := true;
        enabled := false;
      }
    }

    /** The scan in `Update`, which returns at the first enabled type without its actions. */
    static method EveryActionLoaded(types: map<string, Metadata>) returns (loaded: bool)
      ensures loaded == AllLoaded(types)
    {
      var keys := types.Keys;
      while keys != {}
        invariant keys <= types.Keys
        invariant forall k :: k in types && k !in keys ==> types[k].meta.disabled || types[k].actionsLoaded
        decreases |keys|
      {
        var k :| k in keys;
        if !types[k].meta.disabled && !types[k].actionsLoaded {
          return false;
        }
        keys := keys - {k};
      }
      return true;
    }

    /**
     * `ObjectTypeRemoved(type)`: the present keys among `data` are removed;
     * for a nonempty request the removed keys are reported and
     * `AbstractOnlyObjects` is recomputed over what remains.
     */
    method ObjectTypeRemoved(data: seq<string>) returns (removed: Option<seq<string>>)
      modifies this
      ensures types == map k | k in old(types) && k !in data :: old(types)[k]
      ensures removed.Some? <==> data != []
      ensures removed.Some? ==> removed.value == FirstHits(data, old(types).Keys)
      ensures abstractOnlyObjects == if data == [] then old(abstractOnlyObjects) else forall k :: k in types ==> types[k].meta.isAbstract
      ensures actionsReady == old(actionsReady) && actionObjectsLoaded == old(actionObjectsLoaded) && enabled == old(enabled)
    {
      var remaining, hits := RemoveKeys(types, data);
      types := remaining;
      removed := None;
      if |data| > 0 {
        abstractOnlyObjects := OnlyAbstract(types);
        removed := Some(hits);
      }
    }

    /** The removal loop of `ObjectTypeRemoved`. */
    static method RemoveKeys(t: map<string, Metadata>, data: seq<string>) returns (remaining: map<string, Metadata>, hits: seq<string>)
      ensures remaining == map k | k in t && k !in data :: t[k]
      ensures hits == FirstHits(data, t.Keys)
    {
      remaining, hits := t, [];
      var i := 0;
      while i < |data|
        invariant i <= |data|
        invariant remaining == map k | k in t && k !in data[..i] :: t[k]
        invariant hits == FirstHits(data[..i], t.Keys)
      {
        var item := data[i];
        assert data[..i + 1][..i] == data[..i];
        if item in remaining {
          remaining := remaining - {item};
          hits := hits + [item];
        }
        i := i + 1;
      }
      assert data[..i] == data;
    }

    /** The scan of `ObjectTypeRemoved` that recomputes `AbstractOnlyObjects`. */
    static method OnlyAbstract(t: map<string, Metadata>) returns (only: bool)
      ensures only == forall k :: k in t ==> t[k].meta.isAbstract
    {
      only := true;
      var keys := t.Keys;
      while keys != {}
        invariant keys <= t.Keys
        invariant only == forall k :: k in t && k !in keys ==> t[k].meta.isAbstract
        decreases |keys|
      {
        var k :| k in keys;
        if only && !t[k].meta.isAbstract {
          only := false;
        }
        keys := keys - {k};
      }
    }

    /**
     * `ObjectTypeAdded(args)`: the manager stops being ready and wakes up,
     * and the announced types are registered as `AddLoop` says.
     */
    method ObjectTypeAdded(metas: seq<ObjectTypeMeta>) returns (r: Result<seq<string>>)
      modifies this
      ensures Outcome(types, abstractOnlyObjects, r) == AddLoop(old(types), old(abstractOnlyObjects), metas, |metas|)
      ensures !actionsReady && enabled && actionObjectsLoaded == old(actionObjectsLoaded)
    {
      var t, only;
      t, only, r := AddTypes(types, abstractOnlyObjects, metas);
      types, abstractOnlyObjects, actionsReady, enabled := t, only, false, true;
    }

    /** The loop of `ObjectTypeAdded`, on the registry `t0` and the flag `only0`. */
    static method AddTypes(t0: map<string, Metadata>, only0: bool, metas: seq<ObjectTypeMeta>)
      returns (t: map<string, Metadata>, only: bool, r: Result<seq<string>>)
      ensures Outcome(t, only, r) == AddLoop(t0, only0, metas, |metas|)
    {
      t, only := t0, only0;
      var added: seq<string> := [];
      var i := 0;
      while i < |metas|
        invariant i <= |metas| && AddLoop(t0, only0, metas, i) == Outcome(t, only, Ok(added))
      {
        var obj := metas[i];
        ghost var o := Outcome(t, only, Ok(added));
        assert AddLoop(t0, only0, metas, i + 1) == AddTurn(o, obj);
        var m := Announced(obj);
        if only && !obj.isAbstract {
          only := false;
        }
        var kinds := KindsOf(m, t);
        if kinds.None? {
          AddLoopStops(t0, only0, metas, i + 1, |metas|);
          return t, only, Throws(StackOverflow);
        }
        if obj.typeName in t {
          AddLoopStops(t0, only0, metas, i + 1, |metas|);
          return t, only, Throws(DuplicateKey);
        }
        t := t[obj.typeName := kinds.value];
        added := added + [obj.typeName];
        i := i + 1;
      }
      r := Ok(added);
    }

    /**
     * `UpdateObjects(list)`: the manager stops being ready and the registry
     * is replaced as `Replace` says; only a replacement that does not throw
     * wakes the manager and marks the object types loaded. When a walk
     * never returns, the registry holds the collected types with some of
     * their kinds computed.
     */
    method UpdateObjects(metas: seq<ObjectTypeMeta>) returns (r: Status)
      modifies this
      ensures r == Replace(old(abstractOnlyObjects), metas).result
      ensures r != Threw(StackOverflow) ==> Outcome(types, abstractOnlyObjects, r) == Replace(old(abstractOnlyObjects), metas)
      ensures r == Threw(StackOverflow) ==>
        SameMetas(types, Replace(old(abstractOnlyObjects), metas).types) &&
        abstractOnlyObjects == Replace(old(abstractOnlyObjects), metas).abstractOnly
      ensures !actionsReady
      ensures r == Done ==> actionObjectsLoaded && enabled
      ensures r != Done ==> actionObjectsLoaded == old(actionObjectsLoaded) && enabled == old(enabled)
    {
      var t, only;
      t, only, r := CollectTypes(abstractOnlyObjects, metas);
      if r == Done {
        t, r := DeriveKinds(t);
      }
      if r == Done {
        types, abstractOnlyObjects, actionsReady, enabled, actionObjectsLoaded := t, only, false, true, true;
      } else {
        types, abstractOnlyObjects, actionsReady := t, only, false;
      }
    }

    /** The first loop of `UpdateObjects`, from an empty registry. */
    static method CollectTypes(only0: bool, metas: seq<ObjectTypeMeta>) returns (t: map<string, Metadata>, only: bool, r: Status)
      ensures Outcome(t, only, r) == Collection(only0, metas)
    {
      t, only := map[], only0;
      var i := 0;
      while i < |metas|
        invariant i <= |metas| && NewTypes({}, metas, i) && t == Collect(metas, i)
        invariant only == (only0 && AllAbstract(metas, i))
      {
        var obj := metas[i];
        var m := Announced(obj);
        if only && !obj.isAbstract {
          only := false;
        }
        if obj.typeName in t {
          FreshLengthIs({}, metas, |metas|, i);
          return t, only, Threw(DuplicateKey);
        }
        t := t[obj.typeName := m];
        i := i + 1;
      }
      FreshLengthIs({}, metas, |metas|, |metas|);
      return t, only, Done;
    }

    /**
     * The second loop of `UpdateObjects`: each entry's kinds, computed on
     * the registry as it is updated, which has the same announced types.
     */
    static method DeriveKinds(t0: map<string, Metadata>) returns (t: map<string, Metadata>, r: Status)
      ensures SameMetas(t0, t)
      ensures r == if KindsReturn(t0) then Done else Threw(StackOverflow)
      ensures r == Done ==> t == Rederived(t0)
    {
      t := t0;
      var keys := t.Keys;
      while keys != {}
        invariant keys <= t0.Keys && SameMetas(t0, t)
        invariant forall k :: k in keys ==> t[k] == t0[k]
        invariant forall k :: k in t && k !in keys ==> KindsOf(t0[k], t0) == Some(t[k])
        decreases |keys|
      {
        var k :| k in keys;
        KindsMetasOnly(t[k], t0, t);
        var m := KindsOf(t[k], t);
        if m.None? {
          return t, Threw(StackOverflow);
        }
        t := t[k := m.value];
        keys := keys - {k};
      }
      assert KindsReturn(t0);
      assert forall k :: k in t ==> t[k] == Rederived(t0)[k];
      r := Done;
    }
  }
}
