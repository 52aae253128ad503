/**
 * `Base.ProjectManager`: the table of action points of the open project,
 * spawning and removing entries, and `UpdateActionPoints`, which walks the
 * project's action points parent-first from a growing worklist.
 *
 * The keys of `SceneManager.ActionObjects` and the projection environment
 * are parameters. `ActionPoint` here is `Objects/ActionPoint.cs`, the class
 * the file's alias names.
 */
module ProjectManager {
  import opened Wrappers
  import opened Linear
  import opened Records
  import opened ArActionPoint
  import SceneManager

  // ---------------------------------------------------------------------
  // Grouping by parent

  /** The group of an action point: its parent, or "global" for a null or empty parent. */
  function ParentKey(ap: ProjectActionPoint): string {
    if ap.parent.None? || ap.parent.value == "" then "global" else ap.parent.value
  }

  /** The keys processed without being action points: "global" and the action objects. */
  predicate IsRoot(k: string, aoKeys: set<string>) {
    k == "global" || k in aoKeys
  }

  predicate UniqueIds(s: seq<ProjectActionPoint>) {
    forall i, j :: 0 <= i < j < |s| ==> s[i].id != s[j].id
  }

  /** The action points of `s` grouped under `k`, in list order. */
  function Members(s: seq<ProjectActionPoint>, k: string): seq<ProjectActionPoint>
    decreases |s|
  {
    if s == [] then []
    else Members(s[..|s| - 1], k) + (if ParentKey(s[|s| - 1]) == k then [s[|s| - 1]] else [])
  }

  /** Adding a point to its group keeps the groups equal to the members of the longer list. */
  lemma {:induction false} GroupsStep(s: seq<ProjectActionPoint>, groups: map<string, seq<ProjectActionPoint>>, ap: ProjectActionPoint)
    requires forall k :: k in groups ==> groups[k] == Members(s, k) && groups[k] != []
    requires forall p :: p in s ==> ParentKey(p) in groups
    ensures var k := ParentKey(ap);
      var g := groups[k := (if k in groups then groups[k] else []) + [ap]];
      (forall k' :: k' in g ==> g[k'] == Members(s + [ap], k') && g[k'] != []) &&
      (forall p :: p in s + [ap] ==> ParentKey(p) in g)
  {
    var k := ParentKey(ap);
    var g := groups[k := (if k in groups then groups[k] else []) + [ap]];
    if k !in groups {
      MembersShape(s, k);
      if Members(s, k) != [] {
        assert Members(s, k)[0] in Members(s, k);
      }
    }
    forall k' | k' in g
      ensures g[k'] == Members(s + [ap], k')
    {
      MembersAppend(s, ap, k');
    }
  }

  /** Appending a point extends the group of its key and no other. */
  lemma {:induction false} MembersAppend(s: seq<ProjectActionPoint>, ap: ProjectActionPoint, k: string)
    ensures Members(s + [ap], k) == Members(s, k) + (if ParentKey(ap) == k then [ap] else [])
  {
    assert (s + [ap])[..|s + [ap]| - 1] == s;
  }


  lemma {:induction false} AoParentsExtend(s: seq<ProjectActionPoint>, aoKeys: set<string>, ap: ProjectActionPoint)
    ensures AoParents(s + [ap], aoKeys) == AoParents(s, aoKeys) + (if ParentKey(ap) in aoKeys then [ParentKey(ap)] else [])
  {
    assert (s + [ap])[..|s + [ap]| - 1] == s;
  }

  /** `actionPointsWithParents` and `processedParents` after the points of `s`. */
  predicate Grouped(s: seq<ProjectActionPoint>, aoKeys: set<string>, groups: map<string, seq<ProjectActionPoint>>, processed: seq<string>) {
    (forall k :: k in groups ==> groups[k] == Members(s, k) && groups[k] != []) &&
    (forall p :: p in s ==> ParentKey(p) in groups) &&
    processed == ["global"] + AoParents(s, aoKeys)
  }

  /** One step of the grouping loop. */
  lemma {:induction false} GroupedStep(s: seq<ProjectActionPoint>, aoKeys: set<string>, groups: map<string, seq<ProjectActionPoint>>,
                                       processed: seq<string>, ap: ProjectActionPoint)
    requires Grouped(s, aoKeys, groups, processed)
    ensures var k := ParentKey(ap);
      Grouped(s + [ap], aoKeys, groups[k := (if k in groups then groups[k] else []) + [ap]],
              processed + (if k in aoKeys then [k] else []))
  {
    GroupsStep(s, groups, ap);
    AoParentsExtend(s, aoKeys, ap);
  }

  /** One worklist entry per action point whose group is an action object, in list order. */
  function AoParents(s: seq<ProjectActionPoint>, aoKeys: set<string>): seq<string>
    decreases |s|
  {
    if s == [] then []
    else
      var last := s[|s| - 1];
      AoParents(s[..|s| - 1], aoKeys) + (if ParentKey(last) in aoKeys then [ParentKey(last)] else [])
  }

  /**
   * A group holds exactly the action points with that key, and with unique
   * ids in the project its ids are unique too.
   */
  lemma {:induction false} MembersShape(s: seq<ProjectActionPoint>, k: string)
    ensures forall m :: m in Members(s, k) <==> m in s && ParentKey(m) == k
    ensures UniqueIds(s) ==> UniqueIds(Members(s, k))
    decreases |s|
  {
    if s != [] {
      var init, last := s[..|s| - 1], s[|s| - 1];
      assert s == init + [last];
      MembersShape(init, k);
      if UniqueIds(s) {
        assert UniqueIds(init);
        forall m | m in Members(init, k)
          ensures m.id != last.id
        {
          var x :| 0 <= x < |init| && init[x] == m;
          assert s[x] == m && s[|s| - 1] == last;
        }
      }
    }
  }

  /** The action-object entries are action objects, one at least for each such parent. */
  lemma {:induction false} AoParentsShape(s: seq<ProjectActionPoint>, aoKeys: set<string>)
    ensures forall k :: k in AoParents(s, aoKeys) ==> k in aoKeys
    ensures forall p :: p in s && ParentKey(p) in aoKeys ==> ParentKey(p) in AoParents(s, aoKeys)
    decreases |s|
  {
    if s != [] {
      assert s == s[..|s| - 1] + [s[|s| - 1]];
      AoParentsShape(s[..|s| - 1], aoKeys);
    }
  }

  // ---------------------------------------------------------------------
  // Lookup by id

  predicate HasId(s: seq<ProjectActionPoint>, id: string) {
    exists t :: 0 <= t < |s| && s[t].id == id
  }

  /** The position of the first action point with this id. */
  function IndexOfId(s: seq<ProjectActionPoint>, id: string): (r: nat)
    requires HasId(s, id)
    ensures r < |s| && s[r].id == id
    ensures forall j :: 0 <= j < r ==> s[j].id != id
  {
    IndexFrom(s, id, 0)
  }

  function IndexFrom(s: seq<ProjectActionPoint>, id: string, from: nat): (r: nat)
    requires exists t :: from <= t < |s| && s[t].id == id
    ensures from <= r < |s| && s[r].id == id
    ensures forall j :: from <= j < r ==> s[j].id != id
    decreases |s| - from
  {
    if s[from].id == id then from
    else
      assert exists t :: from + 1 <= t < |s| && s[t].id == id by {
        var t :| from <= t < |s| && s[t].id == id;
        assert t != from;
      }
      IndexFrom(s, id, from + 1)
  }

  function ById(s: seq<ProjectActionPoint>, id: string): ProjectActionPoint
    requires HasId(s, id)
  {
    s[IndexOfId(s, id)]
  }

  /** With unique ids an action point is the one its id finds. */
  lemma {:induction false} ByIdFinds(s: seq<ProjectActionPoint>, p: ProjectActionPoint)
    requires UniqueIds(s) && p in s
    ensures HasId(s, p.id) && ById(s, p.id) == p
  {
    var x :| 0 <= x < |s| && s[x] == p;
    assert s[x].id == p.id;
    var r := IndexOfId(s, p.id);
    assert !(r < x) && !(x < r);
  }

  /** The action points of a list by id. */
  ghost function IdIndex(s: seq<ProjectActionPoint>): map<string, ProjectActionPoint>
    requires UniqueIds(s)
  {
    map t | 0 <= t < |s| :: s[t].id := s[t]
  }

  lemma {:induction false} IdIndexFinds(s: seq<ProjectActionPoint>, p: ProjectActionPoint)
    requires UniqueIds(s) && p in s
    ensures p.id in IdIndex(s) && IdIndex(s)[p.id] == p
  {
    var x :| 0 <= x < |s| && s[x] == p;
    assert s[x].id in IdIndex(s);
  }

  // ---------------------------------------------------------------------
  // Which action points are processed

  /** The parent chain of `p` reaches "global" or an action object within `d` steps. */
  ghost predicate GroundedIn(s: seq<ProjectActionPoint>, aoKeys: set<string>, p: ProjectActionPoint, d: nat)
    decreases d
  {
    IsRoot(ParentKey(p), aoKeys) ||
    (d > 0 && exists q :: q in s && q.id == ParentKey(p) && GroundedIn(s, aoKeys, q, d - 1))
  }

  ghost predicate Grounded(s: seq<ProjectActionPoint>, aoKeys: set<string>, p: ProjectActionPoint) {
    exists d: nat :: GroundedIn(s, aoKeys, p, d)
  }

  /** The ids of the action points whose parent chain reaches "global" or an action object. */
  ghost function ProcessedIds(s: seq<ProjectActionPoint>, aoKeys: set<string>): set<string> {
    set p | p in s && Grounded(s, aoKeys, p) :: p.id
  }

  // ---------------------------------------------------------------------
  // The worklist

  /**
   * Each entry at or past n0 names the worklist position `pp[x]` whose
   * visit appended it; those lie strictly earlier.
   */
  predicate Backward(pp: seq<nat>, n0: nat) {
    forall x :: n0 <= x < |pp| ==> pp[x] < x
  }

  /** The initial entry an appended entry descends from. */
  function Root(pp: seq<nat>, n0: nat, x: nat): (r: nat)
    requires Backward(pp, n0) && n0 <= x < |pp|
    ensures r < n0
    decreases x
  {
    if pp[x] < n0 then pp[x] else Root(pp, n0, pp[x])
  }

  lemma {:induction false} RootAppend(pp: seq<nat>, n0: nat, v: nat, x: nat)
    requires Backward(pp, n0) && Backward(pp + [v], n0) && n0 <= x < |pp|
    ensures Root(pp + [v], n0, x) == Root(pp, n0, x)
    decreases x
  {
    assert (pp + [v])[x] == pp[x];
    if pp[x] >= n0 {
      RootAppend(pp, n0, v, pp[x]);
    }
  }

  /**
   * The worklist `L` after its n0 initial entries: initial entries are
   * roots, appended entries are action point ids appended while visiting
   * an entry that names their group, and an id never appears twice under
   * the same initial entry.
   */
  ghost predicate WorkInv(s: seq<ProjectActionPoint>, aoKeys: set<string>, L: seq<string>, pp: seq<nat>, n0: nat) {
    n0 <= |L| == |pp| && Backward(pp, n0) &&
    (forall x :: 0 <= x < n0 ==> IsRoot(L[x], aoKeys)) &&
    (forall x :: n0 <= x < |L| ==> HasId(s, L[x])) &&
    (forall x {:trigger pp[x]} :: n0 <= x < |L| ==> HasId(s, L[x]) && L[pp[x]] == ParentKey(ById(s, L[x]))) &&
    (forall x, y :: n0 <= x < y < |L| && L[x] == L[y] ==> Root(pp, n0, x) != Root(pp, n0, y))
  }

  /** The ids of a list of action points, in order. */
  function IdsOf(g: seq<ProjectActionPoint>): (r: seq<string>)
    ensures |r| == |g|
    decreases |g|
  {
    if g == [] then [] else IdsOf(g[..|g| - 1]) + [g[|g| - 1].id]
  }

  lemma {:induction false} IdsOfIndex(g: seq<ProjectActionPoint>)
    ensures forall t :: 0 <= t < |g| ==> IdsOf(g)[t] == g[t].id
    decreases |g|
  {
    if g != [] {
      IdsOfIndex(g[..|g| - 1]);
    }
  }

  /** The ids appended for the first j members of a group are the ids of those members, not of member j. */
  lemma {:induction false} GroupSoFar(s: seq<ProjectActionPoint>, L: seq<string>, start: nat, group: seq<ProjectActionPoint>, j: nat)
    requires start <= |L| && j <= |group| && UniqueIds(group)
    requires L[start..] == IdsOf(group[..j])
    ensures j < |group| ==> forall x :: start <= x < |L| ==> L[x] != group[j].id
    ensures forall t :: 0 <= t < j ==> group[t].id in L
  {
    IdsOfIndex(group[..j]);
    forall x | start <= x < |L| && j < |group|
      ensures L[x] != group[j].id
    {
      assert L[x] == L[start..][x - start] == group[x - start].id;
    }
    forall t | 0 <= t < j
      ensures group[t].id in L
    {
      assert L[start + t] == L[start..][t];
    }
  }

  /**
   * One step of the inner loop of `UpdateActionPoints` on the worklist:
   * member j of the group visited at position i is appended, the invariant
   * holds of the longer worklist and the new entry is grounded.
   */
  lemma {:induction false} WorkStep(s: seq<ProjectActionPoint>, aoKeys: set<string>, L: seq<string>, pp: seq<nat>,
                                    n0: nat, i: nat, start: nat, group: seq<ProjectActionPoint>, j: nat)
    requires WorkInv(s, aoKeys, L, pp, n0) && UniqueIds(s)
    requires forall p :: p in s ==> !IsRoot(p.id, aoKeys)
    requires i < start <= |L| && |L| == start + j && j < |group|
    requires group == Members(s, L[i])
    requires L[start..] == IdsOf(group[..j])
    requires forall x :: start <= x < |L| ==> pp[x] == i
    requires forall x :: n0 <= x < start ==> pp[x] < i
    requires i >= n0 ==> Grounded(s, aoKeys, ById(s, L[i]))
    ensures WorkInv(s, aoKeys, L + [group[j].id], pp + [i], n0)
    ensures group[j] in s && HasId(s, group[j].id) && Grounded(s, aoKeys, ById(s, group[j].id))
    ensures (L + [group[j].id])[start..] == IdsOf(group[..j + 1])
  {
    AppendKeeps(s, aoKeys, L, pp, n0, i, start, group, j);
    MemberGrounded(s, aoKeys, L, pp, n0, i, group, j);
    assert group[..j + 1][..j] == group[..j];
    assert (L + [group[j].id])[start..] == L[start..] + [group[j].id];
  }

  /** A member of the group visited at a grounded position is grounded, and its id finds it. */
  lemma {:induction false} MemberGrounded(s: seq<ProjectActionPoint>, aoKeys: set<string>, L: seq<string>, pp: seq<nat>,
                                          n0: nat, i: nat, group: seq<ProjectActionPoint>, j: nat)
    requires WorkInv(s, aoKeys, L, pp, n0) && UniqueIds(s)
    requires i < |L| && j < |group| && group == Members(s, L[i])
    requires i >= n0 ==> Grounded(s, aoKeys, ById(s, L[i]))
    ensures group[j] in s && HasId(s, group[j].id) && Grounded(s, aoKeys, ById(s, group[j].id))
  {
    MembersShape(s, L[i]);
    assert group[j] in group;
    ByIdFinds(s, group[j]);
    GroundStep(s, aoKeys, L, pp, n0, i, group[j]);
  }

  /**
   * Appending the j-th member of the group visited at position i keeps the
   * worklist invariant.
   */
  lemma {:induction false} AppendKeeps(s: seq<ProjectActionPoint>, aoKeys: set<string>, L: seq<string>, pp: seq<nat>,
                                       n0: nat, i: nat, start: nat, group: seq<ProjectActionPoint>, j: nat)
    requires WorkInv(s, aoKeys, L, pp, n0) && UniqueIds(s)
    requires forall p :: p in s ==> !IsRoot(p.id, aoKeys)
    requires i < start <= |L| && |L| == start + j && j < |group|
    requires group == Members(s, L[i])
    requires L[start..] == IdsOf(group[..j])
    requires forall x :: start <= x < |L| ==> pp[x] == i
    requires forall x :: n0 <= x < start ==> pp[x] < i
    ensures WorkInv(s, aoKeys, L + [group[j].id], pp + [i], n0)
  {
    var m := group[j];
    var L', pp' := L + [m.id], pp + [i];
    MembersShape(s, L[i]);
    assert m in group;
    ByIdFinds(s, m);
    assert Backward(pp', n0);
    forall x | n0 <= x < |L'|
      ensures HasId(s, L'[x]) && L'[pp'[x]] == ParentKey(ById(s, L'[x]))
    {
      if x < |L| {
        assert L'[x] == L[x] && pp'[x] == pp[x] && L'[pp[x]] == L[pp[x]];
      }
    }
    AppendRoots(s, aoKeys, L, pp, n0, i, start, group, j);
  }

  /** After the append, equal ids still sit under different initial entries. */
  lemma {:induction false} AppendRoots(s: seq<ProjectActionPoint>, aoKeys: set<string>, L: seq<string>, pp: seq<nat>,
                                       n0: nat, i: nat, start: nat, group: seq<ProjectActionPoint>, j: nat)
    requires WorkInv(s, aoKeys, L, pp, n0) && UniqueIds(s)
    requires forall p :: p in s ==> !IsRoot(p.id, aoKeys)
    requires i < start <= |L| && |L| == start + j && j < |group|
    requires group == Members(s, L[i])
    requires L[start..] == IdsOf(group[..j])
    requires forall x :: start <= x < |L| ==> pp[x] == i
    requires forall x :: n0 <= x < start ==> pp[x] < i
    ensures var L', pp' := L + [group[j].id], pp + [i];
      forall x, y :: n0 <= x < y < |L'| && L'[x] == L'[y] ==> Root(pp', n0, x) != Root(pp', n0, y)
  {
    var L', pp' := L + [group[j].id], pp + [i];
    assert Backward(pp', n0);
    forall x, y | n0 <= x < y < |L'| && L'[x] == L'[y]
      ensures Root(pp', n0, x) != Root(pp', n0, y)
    {
      RootAppend(pp, n0, i, x);
      if y < |L| {
        RootAppend(pp, n0, i, y);
      } else {
        NewEntryDistinct(s, aoKeys, L, pp, n0, i, start, group, j, x);
      }
    }
  }

  /** The entry appended for member j does not repeat an earlier entry's id under the same root. */
  lemma {:induction false} NewEntryDistinct(s: seq<ProjectActionPoint>, aoKeys: set<string>, L: seq<string>, pp: seq<nat>,
                                            n0: nat, i: nat, start: nat, group: seq<ProjectActionPoint>, j: nat, x: nat)
    requires WorkInv(s, aoKeys, L, pp, n0) && UniqueIds(s)
    requires forall p :: p in s ==> !IsRoot(p.id, aoKeys)
    requires i < start <= |L| && |L| == start + j && j < |group|
    requires group == Members(s, L[i])
    requires L[start..] == IdsOf(group[..j])
    requires forall x :: start <= x < |L| ==> pp[x] == i
    requires forall x :: n0 <= x < start ==> pp[x] < i
    requires n0 <= x < |L| && L[x] == group[j].id
    ensures Backward(pp + [i], n0)
    ensures Root(pp + [i], n0, |L|) != Root(pp, n0, x)
  {
    var m := group[j];
    var pp' := pp + [i];
    assert Backward(pp', n0);
    MembersShape(s, L[i]);
    assert m in group;
    ByIdFinds(s, m);
    GroupSoFar(s, L, start, group, j);
    assert x < start;
    assert L[pp[x]] == L[i];
    if i < n0 {
      AppendedNotRoot(s, aoKeys, L, pp, n0);
      assert pp[x] < n0;
      assert Root(pp', n0, |L|) == i;
    } else {
      var q := ById(s, L[i]);
      assert q in s && !IsRoot(L[i], aoKeys);
      assert pp[x] >= n0;
      RootAppend(pp, n0, i, i);
      assert Root(pp', n0, |L|) == Root(pp, n0, i);
      assert Root(pp, n0, pp[x]) != Root(pp, n0, i);
    }
  }

  /** No appended entry is a root, since no action point has a root's id. */
  lemma {:induction false} AppendedNotRoot(s: seq<ProjectActionPoint>, aoKeys: set<string>, L: seq<string>, pp: seq<nat>, n0: nat)
    requires WorkInv(s, aoKeys, L, pp, n0)
    requires forall p :: p in s ==> !IsRoot(p.id, aoKeys)
    ensures forall y :: n0 <= y < |L| ==> !IsRoot(L[y], aoKeys)
  {
    forall y | n0 <= y < |L|
      ensures !IsRoot(L[y], aoKeys)
    {
      assert HasId(s, L[y]);
      var t :| 0 <= t < |s| && s[t].id == L[y];
      assert s[t] in s;
    }
  }

  /** Multiplication by repeated addition, so that the worklist bound stays linear arithmetic. */
  function Times(a: nat, n: nat): nat {
    if a == 0 then 0 else Times(a - 1, n) + n
  }

  lemma {:induction false} TimesMono(a: nat, b: nat, n: nat)
    requires a < b
    ensures Times(a, n) + n <= Times(b, n)
    decreases b
  {
    if a < b - 1 {
      TimesMono(a, b - 1, n);
    }
  }

  /** The worklist never outgrows n0 initial entries plus one per (initial entry, action point) pair. */
  lemma {:induction false} WorkBound(s: seq<ProjectActionPoint>, aoKeys: set<string>, L: seq<string>, pp: seq<nat>, n0: nat)
    requires WorkInv(s, aoKeys, L, pp, n0)
    ensures |L| <= n0 + Times(n0, |s|)
  {
    RangeCard(Times(n0, |s|));
    CodesCard(s, aoKeys, L, pp, n0, |L|);
    var codes, range := Codes(s, L, pp, n0, |L|), Range(Times(n0, |s|));
    forall c | c in codes
      ensures c in range
    {
      assert 0 <= c < Times(n0, |s|);
    }
    SubsetCard(codes, range);
  }

  /** An appended entry numbered by its initial entry and the position of its action point. */
  function Code(s: seq<ProjectActionPoint>, L: seq<string>, pp: seq<nat>, n0: nat, x: nat): int
    requires Backward(pp, n0) && n0 <= x < |L| == |pp|
  {
    Times(Root(pp, n0, x), |s|) + if HasId(s, L[x]) then IndexOfId(s, L[x]) else 0
  }

  /** The codes of the appended entries before position m. */
  function Codes(s: seq<ProjectActionPoint>, L: seq<string>, pp: seq<nat>, n0: nat, m: nat): set<int>
    requires Backward(pp, n0) && n0 <= m <= |L| == |pp|
    decreases m
  {
    if m == n0 then {} else Codes(s, L, pp, n0, m - 1) + {Code(s, L, pp, n0, m - 1)}
  }

  lemma {:induction false} CodesCard(s: seq<ProjectActionPoint>, aoKeys: set<string>, L: seq<string>, pp: seq<nat>, n0: nat, m: nat)
    requires WorkInv(s, aoKeys, L, pp, n0) && n0 <= m <= |L|
    ensures |Codes(s, L, pp, n0, m)| == m - n0
    ensures forall c :: c in Codes(s, L, pp, n0, m) ==> 0 <= c < Times(n0, |s|)
    ensures forall c :: c in Codes(s, L, pp, n0, m) ==> exists x :: n0 <= x < m && c == Code(s, L, pp, n0, x)
    decreases m
  {
    if m > n0 {
      CodesCard(s, aoKeys, L, pp, n0, m - 1);
      forall x | n0 <= x < m - 1
        ensures Code(s, L, pp, n0, x) != Code(s, L, pp, n0, m - 1)
      {
        CodeInjective(s, aoKeys, L, pp, n0, x, m - 1);
      }
      assert HasId(s, L[m - 1]);
      TimesMono(Root(pp, n0, m - 1), n0, |s|);
    }
  }

  lemma {:induction false} CodeInjective(s: seq<ProjectActionPoint>, aoKeys: set<string>, L: seq<string>, pp: seq<nat>, n0: nat, x: nat, y: nat)
    requires WorkInv(s, aoKeys, L, pp, n0) && n0 <= x < y < |L|
    ensures Code(s, L, pp, n0, x) != Code(s, L, pp, n0, y)
  {
    var a, c := Root(pp, n0, x), Root(pp, n0, y);
    assert HasId(s, L[x]) && HasId(s, L[y]);
    if a < c {
      TimesMono(a, c, |s|);
    } else if c < a {
      TimesMono(c, a, |s|);
    } else {
      assert L[x] != L[y];
    }
  }

  lemma {:induction false} SubsetCard(a: set<int>, b: set<int>)
    requires a <= b
    ensures |a| <= |b|
  {
    assert b == a + (b - a);
    assert a * (b - a) == {};
  }

  /** The integers 0 .. M - 1. */
  function Range(M: nat): set<int>
    decreases M
  {
    if M == 0 then {} else Range(M - 1) + {M - 1}
  }

  lemma {:induction false} RangeCard(M: nat)
    ensures |Range(M)| == M
    ensures forall v :: v in Range(M) <==> 0 <= v < M
    decreases M
  {
    if M > 0 {
      RangeCard(M - 1);
    }
  }

  /** A member of a group visited from a grounded key is grounded. */
  lemma {:induction false} GroundStep(s: seq<ProjectActionPoint>, aoKeys: set<string>, L: seq<string>, pp: seq<nat>,
                                      n0: nat, i: nat, m: ProjectActionPoint)
    requires WorkInv(s, aoKeys, L, pp, n0) && i < |L|
    requires i >= n0 ==> Grounded(s, aoKeys, ById(s, L[i]))
    requires m in s && ParentKey(m) == L[i]
    ensures Grounded(s, aoKeys, m)
  {
    if i < n0 {
      assert GroundedIn(s, aoKeys, m, 0);
    } else {
      var q := ById(s, L[i]);
      var d: nat :| GroundedIn(s, aoKeys, q, d);
      assert q in s && q.id == ParentKey(m);
      assert GroundedIn(s, aoKeys, m, d + 1);
    }
  }

  /**
   * When every listed group has been walked, every grounded action point's
   * id is on the worklist.
   */
  lemma {:induction false} Complete(s: seq<ProjectActionPoint>, aoKeys: set<string>, groups: map<string, seq<ProjectActionPoint>>,
                                    L: seq<string>, p: ProjectActionPoint, d: nat)
    requires p in s && GroundedIn(s, aoKeys, p, d)
    requires forall q :: q in s ==> ParentKey(q) in groups && groups[ParentKey(q)] == Members(s, ParentKey(q))
    requires "global" in L && forall q :: q in s && ParentKey(q) in aoKeys ==> ParentKey(q) in L
    requires forall x :: 0 <= x < |L| && L[x] in groups ==> forall m :: m in groups[L[x]] ==> m.id in L
    ensures p.id in L
    decreases d
  {
    var k := ParentKey(p);
    if !IsRoot(k, aoKeys) {
      var q :| q in s && q.id == k && GroundedIn(s, aoKeys, q, d - 1);
      Complete(s, aoKeys, groups, L, q, d - 1);
    }
    assert k in L;
    var x :| 0 <= x < |L| && L[x] == k;
    MembersShape(s, k);
    assert p in groups[L[x]];
  }

  /** Every group visited before position i has all its ids on the worklist. */
  ghost predicate Closed(groups: map<string, seq<ProjectActionPoint>>, L: seq<string>, i: nat) {
    forall x :: 0 <= x < i && x < |L| && L[x] in groups ==> forall m :: m in groups[L[x]] ==> m.id in L
  }

  lemma {:induction false} InSuffix(L: seq<string>, n0: nat, x: nat)
    requires n0 <= x < |L|
    ensures L[x] in L[n0..]
  {
    assert L[n0..][x - n0] == L[x];
  }

  /** Every id appended to the worklist belongs to a grounded action point. */
  lemma {:induction false} ListedProcessed(s: seq<ProjectActionPoint>, aoKeys: set<string>, L: seq<string>, pp: seq<nat>, n0: nat)
    requires WorkInv(s, aoKeys, L, pp, n0)
    requires forall x :: n0 <= x < |L| ==> Grounded(s, aoKeys, ById(s, L[x]))
    ensures forall k :: k in L[n0..] ==> k in ProcessedIds(s, aoKeys)
  {
    forall k | k in L[n0..]
      ensures k in ProcessedIds(s, aoKeys)
    {
      var t :| 0 <= t < |L| - n0 && L[n0..][t] == k;
      assert L[n0 + t] == k;
      var q := ById(s, k);
      assert q in s && Grounded(s, aoKeys, q);
    }
  }

  /** Lengthening the worklist keeps the visited groups closed. */
  lemma {:induction false} ClosedGrow(groups: map<string, seq<ProjectActionPoint>>, L: seq<string>, L': seq<string>, i: nat)
    requires i <= |L| <= |L'| && L'[..|L|] == L && Closed(groups, L, i)
    ensures Closed(groups, L', i)
  {
    forall x | 0 <= x < i && x < |L'| && L'[x] in groups
      ensures forall m :: m in groups[L'[x]] ==> m.id in L'
    {
      assert L'[x] == L[x];
      forall m | m in groups[L[x]]
        ensures m.id in L'
      {
        var y :| 0 <= y < |L| && L[y] == m.id;
        assert L'[y] == L[y];
      }
    }
  }

  /** Once the group at position i is all on the worklist, the first i + 1 positions are closed. */
  lemma {:induction false} ClosedNext(groups: map<string, seq<ProjectActionPoint>>, L: seq<string>, i: nat)
    requires i < |L| && Closed(groups, L, i)
    requires L[i] in groups ==> forall m :: m in groups[L[i]] ==> m.id in L
    ensures Closed(groups, L, i + 1)
  {
  }

  /**
   * Once the whole worklist is visited, every grounded action point's id
   * has been appended to it.
   */
  lemma {:induction false} ProcessedListed(s: seq<ProjectActionPoint>, aoKeys: set<string>, groups: map<string, seq<ProjectActionPoint>>,
                                           L: seq<string>, pp: seq<nat>, n0: nat)
    requires WorkInv(s, aoKeys, L, pp, n0)
    requires forall p :: p in s ==> !IsRoot(p.id, aoKeys)
    requires L[..n0] == ["global"] + AoParents(s, aoKeys)
    requires forall k :: k in groups ==> groups[k] == Members(s, k)
    requires forall p :: p in s ==> ParentKey(p) in groups
    requires Closed(groups, L, |L|)
    ensures forall k :: k in ProcessedIds(s, aoKeys) ==> k in L[n0..]
  {
    AoParentsShape(s, aoKeys);
    assert L[0] == "global";
    forall q | q in s && ParentKey(q) in aoKeys
      ensures ParentKey(q) in L
    {
      assert ParentKey(q) in L[..n0];
    }
    forall k | k in ProcessedIds(s, aoKeys)
      ensures k in L[n0..]
    {
      var p :| p in s && Grounded(s, aoKeys, p) && p.id == k;
      var d: nat :| GroundedIn(s, aoKeys, p, d);
      Complete(s, aoKeys, groups, L, p, d);
      var x :| 0 <= x < |L| && L[x] == k;
      if x < n0 {
        assert false;
      }
      InSuffix(L, n0, x);
    }
  }

  /**
   * The state of the outer loop of `UpdateActionPoints` before visiting
   * position i: the worklist invariant, the initial entries, the entries
   * appended so far grounded, the groups of positions before i all listed,
   * and `currentAP` the appended entries.
   */
  ghost predicate Walk(s: seq<ProjectActionPoint>, aoKeys: set<string>, groups: map<string, seq<ProjectActionPoint>>,
                       L: seq<string>, pp: seq<nat>, n0: nat, i: nat, current: seq<string>) {
    i <= |L| && WorkInv(s, aoKeys, L, pp, n0) &&
    L[..n0] == ["global"] + AoParents(s, aoKeys) &&
    (forall k :: k in groups ==> groups[k] == Members(s, k)) &&
    (forall p :: p in s ==> ParentKey(p) in groups) &&
    (forall x :: n0 <= x < |L| ==> pp[x] < i) &&
    (forall x :: n0 <= x < |L| ==> Grounded(s, aoKeys, ById(s, L[x]))) &&
    Closed(groups, L, i) &&
    current == L[n0..]
  }

  /**
   * The state of the inner loop after the first j members of the group of
   * position i: the worklist before the group is kept and the members'
   * ids follow it.
   */
  ghost predicate GroupWalk(s: seq<ProjectActionPoint>, aoKeys: set<string>, L: seq<string>, pp: seq<nat>, n0: nat,
                            i: nat, Lstart: seq<string>, group: seq<ProjectActionPoint>, j: nat, current: seq<string>) {
    var start := |Lstart|;
    i < start && j <= |group| && |L| == start + j && L[..start] == Lstart && n0 <= start &&
    group == Members(s, Lstart[i]) &&
    WorkInv(s, aoKeys, L, pp, n0) &&
    L[start..] == IdsOf(group[..j]) &&
    (forall x :: start <= x < |L| ==> pp[x] == i) &&
    (forall x :: n0 <= x < start ==> pp[x] < i) &&
    (forall x :: n0 <= x < |L| ==> Grounded(s, aoKeys, ById(s, L[x]))) &&
    current == L[n0..]
  }

  /** The walk's position stays below the bound on the worklist's length. */
  lemma {:induction false} WalkBound(s: seq<ProjectActionPoint>, aoKeys: set<string>, groups: map<string, seq<ProjectActionPoint>>,
                                     L: seq<string>, pp: seq<nat>, n0: nat, i: nat, current: seq<string>)
    requires Walk(s, aoKeys, groups, L, pp, n0, i, current) && i < |L|
    ensures i < n0 + Times(n0, |s|)
  {
    WorkBound(s, aoKeys, L, pp, n0);
  }

  /** The walk starts with the initial entries and nothing appended. */
  lemma {:induction false} WalkInit(s: seq<ProjectActionPoint>, aoKeys: set<string>, groups: map<string, seq<ProjectActionPoint>>,
                                    L: seq<string>, pp: seq<nat>)
    requires L == ["global"] + AoParents(s, aoKeys) && |pp| == |L|
    requires forall k :: k in groups ==> groups[k] == Members(s, k)
    requires forall p :: p in s ==> ParentKey(p) in groups
    ensures Walk(s, aoKeys, groups, L, pp, |L|, 0, [])
  {
    AoParentsShape(s, aoKeys);
    forall x | 0 <= x < |L|
      ensures IsRoot(L[x], aoKeys)
    {
      if x > 0 {
        assert L[x] in AoParents(s, aoKeys);
      }
    }
    assert L[|L|..] == [];
  }

  /** A position whose key has no group is visited without appending. */
  lemma {:induction false} WalkSkip(s: seq<ProjectActionPoint>, aoKeys: set<string>, groups: map<string, seq<ProjectActionPoint>>,
                                    L: seq<string>, pp: seq<nat>, n0: nat, i: nat, current: seq<string>)
    requires Walk(s, aoKeys, groups, L, pp, n0, i, current) && i < |L| && L[i] !in groups
    ensures Walk(s, aoKeys, groups, L, pp, n0, i + 1, current)
  {
    ClosedNext(groups, L, i);
  }

  /** The inner loop starts at the end of the worklist with no member visited. */
  lemma {:induction false} GroupWalkInit(s: seq<ProjectActionPoint>, aoKeys: set<string>, groups: map<string, seq<ProjectActionPoint>>,
                                         L: seq<string>, pp: seq<nat>, n0: nat, i: nat, current: seq<string>)
    requires Walk(s, aoKeys, groups, L, pp, n0, i, current) && i < |L| && L[i] in groups
    ensures GroupWalk(s, aoKeys, L, pp, n0, i, L, groups[L[i]], 0, current)
  {
    assert groups[L[i]][..0] == [];
    assert L[|L|..] == [];
    assert L[..|L|] == L;
  }

  /** Visiting member j of the group appends its id to the worklist and to `currentAP`. */
  lemma {:induction false} GroupWalkStep(s: seq<ProjectActionPoint>, aoKeys: set<string>, L: seq<string>, pp: seq<nat>, n0: nat,
                                         i: nat, Lstart: seq<string>, group: seq<ProjectActionPoint>, j: nat, current: seq<string>)
    requires GroupWalk(s, aoKeys, L, pp, n0, i, Lstart, group, j, current) && j < |group|
    requires UniqueIds(s) && forall p :: p in s ==> !IsRoot(p.id, aoKeys)
    ensures group[j] in s
    ensures GroupWalk(s, aoKeys, L + [group[j].id], pp + [i], n0, i, Lstart, group, j + 1, current + [group[j].id])
  {
    var start := |Lstart|;
    assert L[i] == Lstart[i];
    WorkStep(s, aoKeys, L, pp, n0, i, start, group, j);
    var L' := L + [group[j].id];
    assert L'[..start] == L[..start];
    assert L'[n0..] == L[n0..] + [group[j].id];
  }

  /** After the whole group the walk moves on to position i + 1. */
  lemma {:induction false} GroupWalkDone(s: seq<ProjectActionPoint>, aoKeys: set<string>, groups: map<string, seq<ProjectActionPoint>>,
                                         Lstart: seq<string>, ppStart: seq<nat>, n0: nat, i: nat, currentStart: seq<string>,
                                         L: seq<string>, pp: seq<nat>, current: seq<string>)
    requires Walk(s, aoKeys, groups, Lstart, ppStart, n0, i, currentStart) && i < |Lstart| && Lstart[i] in groups
    requires GroupWalk(s, aoKeys, L, pp, n0, i, Lstart, groups[Lstart[i]], |groups[Lstart[i]]|, current)
    requires UniqueIds(s)
    ensures Walk(s, aoKeys, groups, L, pp, n0, i + 1, current)
  {
    var group := groups[Lstart[i]];
    MembersShape(s, Lstart[i]);
    assert group[..|group|] == group;
    GroupSoFar(s, L, |Lstart|, group, |group|);
    forall m | m in group
      ensures m.id in L
    {
      var t :| 0 <= t < |group| && group[t] == m;
    }
    assert L[..n0] == Lstart[..n0];
    ClosedGrow(groups, Lstart, L, i);
    assert L[i] == Lstart[i];
    ClosedNext(groups, L, i);
  }

  /** When the whole worklist is visited, `currentAP` lists exactly the grounded points. */
  lemma {:induction false} WalkDone(s: seq<ProjectActionPoint>, aoKeys: set<string>, groups: map<string, seq<ProjectActionPoint>>,
                                    L: seq<string>, pp: seq<nat>, n0: nat, current: seq<string>)
    requires Walk(s, aoKeys, groups, L, pp, n0, |L|, current)
    requires forall p :: p in s ==> !IsRoot(p.id, aoKeys)
    ensures forall k :: k in current <==> k in ProcessedIds(s, aoKeys)
  {
    ListedProcessed(s, aoKeys, L, pp, n0);
    ProcessedListed(s, aoKeys, groups, L, pp, n0);
  }

  // ---------------------------------------------------------------------
  // The manager

  /**
   * The state `UpdateActionPoints` asks of the table for an id it listed:
   * a point that already existed keeps its record with the project's
   * position, a new one holds the project's record, and both are placed at
   * that position.
   */
  ghost predicate Refreshed(a: ActionPoint, oldData: map<string, ProjectActionPoint>,
                            byId: map<string, ProjectActionPoint>, view: SceneView, k: string)
    reads a
  {
    k in byId &&
    var p := byId[k];
    a.localPosition == ScenePosition(p.position, view) &&
    a.data == (if k in oldData then oldData[k].(position := p.position) else p)
  }

  /** The records of the table's action points. */
  ghost function DataOf(table: ActionPointTable): map<string, ProjectActionPoint>
    reads table, table.entries.Values
  {
    map k | k in table.entries :: table.entries[k].data
  }

  /** The local positions of the table's action points. */
  ghost function PositionsOf(table: ActionPointTable): map<string, Vec3>
    reads table, table.entries.Values
  {
    map k | k in table.entries :: table.entries[k].localPosition
  }

  /**
   * What `UpdateActionPoints` keeps of the table while it walks the
   * worklist: nothing is removed, new keys are listed, listed keys are
   * refreshed and the others are as they were.
   */
  ghost predicate TableInv(table: ActionPointTable, oldEntries: map<string, ActionPoint>, oldData: map<string, ProjectActionPoint>,
                           oldPos: map<string, Vec3>, byId: map<string, ProjectActionPoint>, view: SceneView, currentAP: seq<string>)
    reads table, table.entries.Values
  {
    table.Valid() && oldData.Keys == oldEntries.Keys && oldPos.Keys == oldEntries.Keys &&
    (forall k :: k in oldEntries ==> k in table.entries && table.entries[k] == oldEntries[k]) &&
    (forall k :: k in table.entries ==> k in oldEntries || k in currentAP) &&
    (forall k :: k in currentAP ==> k in table.entries && Refreshed(table.entries[k], oldData, byId, view, k)) &&
    (forall k :: k in table.entries && k !in currentAP && k in oldEntries ==>
       table.entries[k].data == oldData[k] && table.entries[k].localPosition == oldPos[k])
  }

  class ProjectManager {
    /** `ActionPoints`, shared with the action points that remove themselves from it. */
    const actionPoints: ActionPointTable
    /** The calls made into `ProjectionManager`, in order. */
    var projection: seq<SceneManager.ProjectionCall>

    constructor ()
      ensures fresh(actionPoints) && actionPoints.entries == map[] && projection == []
    {
      actionPoints := new ActionPointTable();
      projection := [];
    }

    /** `CreateProject(project, allowEdit)`: the action points are synchronised; the result is always true. */
    method CreateProject(project: Project, allowEdit: bool, aoKeys: set<string>, view: SceneView) returns (created: bool)
      requires actionPoints.Valid()
      requires UniqueIds(project.actionPoints)
      requires forall p :: p in project.actionPoints ==> !IsRoot(p.id, aoKeys)
      modifies actionPoints, actionPoints.entries.Values
      ensures created
      ensures actionPoints.Valid()
      ensures forall k :: k in actionPoints.entries <==> k in ProcessedIds(project.actionPoints, aoKeys)
      ensures forall k :: k in actionPoints.entries ==> Refreshed(actionPoints.entries[k], old(DataOf(actionPoints)), IdIndex(project.actionPoints), view, k)
      ensures forall k :: k in actionPoints.entries && k in old(actionPoints.entries) ==> actionPoints.entries[k] == old(actionPoints.entries[k])
      ensures forall k :: k in actionPoints.entries && k !in old(actionPoints.entries) ==> fresh(actionPoints.entries[k])
    {
      UpdateActionPoints(project, aoKeys, view);
      created := true;
    }

    /**
     * `DestroyProject()`: no point removes itself; the table is cleared
     * afterwards and the projection is destroyed.
     */
    method DestroyProject() returns (destroyed: bool)
      modifies this, actionPoints
      ensures destroyed && actionPoints.entries == map[]
      ensures projection == old(projection) + [SceneManager.DestroyProjection]
    {
      var values := actionPoints.entries.Values;
      while values != {}
        invariant values <= old(actionPoints.entries.Values)
        invariant actionPoints.entries == old(actionPoints.entries) && projection == old(projection)
        decreases |values|
      {
        var ap :| ap in values;
        ap.DeleteAP(false, actionPoints);
        values := values - {ap};
      }
      actionPoints.entries := map[];
      projection := projection + [SceneManager.DestroyProjection];
      destroyed := true;
    }

    /**
     * `SpawnActionPoint(apData)`: a new point holding the record, placed at
     * its position and added under its id; `Dictionary.Add` throws when
     * the id is already present, leaving the table as it was.
     */
    method SpawnActionPoint(apData: ProjectActionPoint, view: SceneView) returns (r: Result<ActionPoint>)
      requires actionPoints.Valid()
      modifies actionPoints
      ensures actionPoints.Valid()
      ensures apData.id in old(actionPoints.entries) ==>
        r == Throws(DuplicateKey) && actionPoints.entries == old(actionPoints.entries)
      ensures apData.id !in old(actionPoints.entries) ==>
        r.Ok? && fresh(r.value) && actionPoints.entries == old(actionPoints.entries)[apData.id := r.value] &&
        r.value.data == apData && r.value.localPosition == ScenePosition(apData.position, view)
    {
      var actionPoint := new ActionPoint();
      actionPoint.InitAP(apData, view);
      if actionPoint.data.id in actionPoints.entries {
        return Throws(DuplicateKey);
      }
      actionPoints.entries := actionPoints.entries[actionPoint.data.id := actionPoint];
      return Ok(actionPoint);
    }

    /** `RemoveActionPoint(Id)`: the point under the id, if any, deletes itself from the table. */
    method RemoveActionPoint(id: string)
      requires actionPoints.Valid()
      modifies actionPoints
      ensures actionPoints.Valid()
      ensures actionPoints.entries == old(actionPoints.entries) - {id}
    {
      if id in actionPoints.entries {
        var actionPoint := actionPoints.entries[id];
        actionPoint.DeleteAP(true, actionPoints);
      }
    }

    /** `GetActionPoint(id)`: the point under the id, or `KeyNotFoundException`. */
    function GetActionPoint(id: string): (r: Result<ActionPoint>)
      reads actionPoints, actionPoints.entries.Values
      ensures r.Ok? <==> id in actionPoints.entries
      ensures r.Ok? ==> r.value in actionPoints.entries.Values
      ensures r.Ok? && actionPoints.Valid() ==> r.value.data.id == id
      ensures !r.Ok? ==> r == Throws(KeyNotFound)
    {
      if id in actionPoints.entries then Ok(actionPoints.entries[id]) else Throws(KeyNotFound)
    }

    /**
     * `OnActionPointBaseUpdated`: the named point takes the new position;
     * a missing one raises the "not found" notification instead.
     */
    method OnActionPointBaseUpdated(apData: BareActionPoint, view: SceneView) returns (notified: bool)
      requires actionPoints.Valid()
      modifies actionPoints.entries.Values
      ensures actionPoints.Valid()
      ensures notified <==> apData.id !in actionPoints.entries
      ensures !notified ==>
        actionPoints.entries[apData.id].data == old(actionPoints.entries[apData.id].data).(position := apData.position) &&
        actionPoints.entries[apData.id].localPosition == ScenePosition(apData.position, view)
      ensures forall k :: k in actionPoints.entries && k != apData.id ==>
        actionPoints.entries[k].data == old(actionPoints.entries[k].data) &&
        actionPoints.entries[k].localPosition == old(actionPoints.entries[k].localPosition)
    {
      var r := GetActionPoint(apData.id);
      if r.Throws? {
        return true;
      }
      r.value.ActionPointBaseUpdate(apData, view);
      return false;
    }

    /**
     * One step of `UpdateActionPoints`' inner loop: the point with this id
     * takes the project's position if it exists, and is spawned from the
     * project's record otherwise.
     */
    method Refresh(p: ProjectActionPoint, view: SceneView) returns (actionPoint: ActionPoint)
      requires actionPoints.Valid()
      modifies actionPoints, actionPoints.entries.Values
      ensures actionPoints.Valid()
      ensures actionPoint.data.id == p.id && p.id in actionPoints.entries && actionPoints.entries[p.id] == actionPoint
      ensures actionPoints.entries.Keys == old(actionPoints.entries.Keys) + {p.id}
      ensures forall k :: k in old(actionPoints.entries) ==> actionPoints.entries[k] == old(actionPoints.entries[k])
      ensures p.id in old(actionPoints.entries) ==> actionPoint.data == old(actionPoint.data).(position := p.position)
      ensures p.id !in old(actionPoints.entries) ==> fresh(actionPoint) && actionPoint.data == p
      ensures actionPoint.localPosition == ScenePosition(p.position, view)
      ensures forall k :: k in actionPoints.entries && k != p.id ==>
        actionPoints.entries[k].data == old(actionPoints.entries[k].data) &&
        actionPoints.entries[k].localPosition == old(actionPoints.entries[k].localPosition)
    {
      if p.id in actionPoints.entries {
        actionPoint := actionPoints.entries[p.id];
        actionPoint.ActionPointBaseUpdate(ToBare(p), view);
      } else {
        var r := SpawnActionPoint(p, view);
        actionPoint := r.value;
      }
    }

    /**
     * `Refresh` inside `UpdateActionPoints`: the table invariant of the
     * walk holds with the visited id appended to `currentAP`.
     */
    method VisitPoint(p: ProjectActionPoint, view: SceneView, ghost byId: map<string, ProjectActionPoint>, ghost currentAP: seq<string>,
                      ghost oldEntries: map<string, ActionPoint>, ghost oldData: map<string, ProjectActionPoint>, ghost oldPos: map<string, Vec3>)
      returns (actionPoint: ActionPoint)
      requires p.id in byId && byId[p.id] == p
      requires TableInv(actionPoints, oldEntries, oldData, oldPos, byId, view, currentAP)
      modifies actionPoints, actionPoints.entries.Values
      ensures actionPoint.data.id == p.id
      ensures TableInv(actionPoints, oldEntries, oldData, oldPos, byId, view, currentAP + [p.id])
      ensures forall k :: k in old(actionPoints.entries) ==> k in actionPoints.entries && actionPoints.entries[k] == old(actionPoints.entries[k])
      ensures forall k :: k in actionPoints.entries && k !in old(actionPoints.entries) ==> fresh(actionPoints.entries[k])
    {
      actionPoint := Refresh(p, view);
      forall k | k in currentAP + [p.id]
        ensures k in actionPoints.entries && Refreshed(actionPoints.entries[k], oldData, byId, view, k)
      {
        if k != p.id {
          assert k in currentAP;
        }
      }
    }

    /**
     * The inner loop of `UpdateActionPoints` for the worklist entry at
     * position i: each point of its group is visited, and its id appended to
     * `currentAP` and to the worklist.
     */
    method VisitGroup(projectActionPoints: seq<ProjectActionPoint>, view: SceneView, processedParents: seq<string>, currentAP: seq<string>,
                      ghost i: nat, ghost pp: seq<nat>, ghost n0: nat, ghost aps: seq<ProjectActionPoint>, ghost aoKeys: set<string>,
                      ghost groups: map<string, seq<ProjectActionPoint>>, ghost byId: map<string, ProjectActionPoint>,
                      ghost oldEntries: map<string, ActionPoint>, ghost oldData: map<string, ProjectActionPoint>, ghost oldPos: map<string, Vec3>)
      returns (parents: seq<string>, current: seq<string>, ghost pp': seq<nat>)
      requires UniqueIds(aps) && forall p :: p in aps ==> !IsRoot(p.id, aoKeys)
      requires byId == IdIndex(aps)
      requires Walk(aps, aoKeys, groups, processedParents, pp, n0, i, currentAP) && i < |processedParents|
      requires processedParents[i] in groups && projectActionPoints == groups[processedParents[i]]
      requires TableInv(actionPoints, oldEntries, oldData, oldPos, byId, view, currentAP)
      modifies actionPoints, actionPoints.entries.Values
      ensures Walk(aps, aoKeys, groups, parents, pp', n0, i + 1, current)
      ensures TableInv(actionPoints, oldEntries, oldData, oldPos, byId, view, current)
      ensures forall k :: k in old(actionPoints.entries) ==> k in actionPoints.entries && actionPoints.entries[k] == old(actionPoints.entries[k])
      ensures forall k :: k in actionPoints.entries && k !in old(actionPoints.entries) ==> fresh(actionPoints.entries[k])
    {
      parents, current, pp' := processedParents, currentAP, pp;
      GroupWalkInit(aps, aoKeys, groups, processedParents, pp, n0, i, currentAP);
      var j := 0;
      while j < |projectActionPoints|
        invariant GroupWalk(aps, aoKeys, parents, pp', n0, i, processedParents, projectActionPoints, j, current)
        invariant TableInv(actionPoints, oldEntries, oldData, oldPos, byId, view, current)
        invariant forall k :: k in old(actionPoints.entries) ==> k in actionPoints.entries && actionPoints.entries[k] == old(actionPoints.entries[k])
        invariant forall k :: k in actionPoints.entries && k !in old(actionPoints.entries) ==> fresh(actionPoints.entries[k])
      {
        var projectActionPoint := projectActionPoints[j];
        var actionPoint := VisitMember(projectActionPoints, j, view, aps, aoKeys, parents, pp', n0, i, processedParents,
                                       current, byId, oldEntries, oldData, oldPos);
        current := current + [actionPoint.data.id];
        parents := parents + [projectActionPoint.id];
        pp' := pp' + [i];
        j := j + 1;
      }
      GroupWalkDone(aps, aoKeys, groups, processedParents, pp, n0, i, currentAP, parents, pp', current);
    }

    /** The points of one group, one at a time: `group[j]` is refreshed and its id queued. */
    method VisitMember(group: seq<ProjectActionPoint>, j: nat, view: SceneView, ghost aps: seq<ProjectActionPoint>,
                       ghost aoKeys: set<string>, ghost L: seq<string>, ghost pp: seq<nat>, ghost n0: nat, ghost i: nat,
                       ghost Lstart: seq<string>, ghost current: seq<string>, ghost byId: map<string, ProjectActionPoint>,
                       ghost oldEntries: map<string, ActionPoint>, ghost oldData: map<string, ProjectActionPoint>, ghost oldPos: map<string, Vec3>)
      returns (actionPoint: ActionPoint)
      requires UniqueIds(aps) && forall p :: p in aps ==> !IsRoot(p.id, aoKeys)
      requires byId == IdIndex(aps)
      requires GroupWalk(aps, aoKeys, L, pp, n0, i, Lstart, group, j, current) && j < |group|
      requires TableInv(actionPoints, oldEntries, oldData, oldPos, byId, view, current)
      modifies actionPoints, actionPoints.entries.Values
      ensures actionPoint.data.id == group[j].id
      ensures GroupWalk(aps, aoKeys, L + [group[j].id], pp + [i], n0, i, Lstart, group, j + 1, current + [group[j].id])
      ensures TableInv(actionPoints, oldEntries, oldData, oldPos, byId, view, current + [group[j].id])
      ensures forall k :: k in old(actionPoints.entries) ==> k in actionPoints.entries && actionPoints.entries[k] == old(actionPoints.entries[k])
      ensures forall k :: k in actionPoints.entries && k !in old(actionPoints.entries) ==> fresh(actionPoints.entries[k])
    {
      GroupWalkStep(aps, aoKeys, L, pp, n0, i, Lstart, group, j, current);
      IdIndexFinds(aps, group[j]);
      actionPoint := VisitPoint(group[j], view, byId, current, oldEntries, oldData, oldPos);
    }

    /** `actionPointsWithParents` and the initial `processedParents` of `UpdateActionPoints`. */
    static method GroupByParent(aps: seq<ProjectActionPoint>, aoKeys: set<string>)
      returns (groups: map<string, seq<ProjectActionPoint>>, processedParents: seq<string>)
      ensures forall k :: k in groups ==> groups[k] == Members(aps, k) && groups[k] != []
      ensures forall p :: p in aps ==> ParentKey(p) in groups
      ensures processedParents == ["global"] + AoParents(aps, aoKeys)
    {
      groups, processedParents := GroupAll(aps, aoKeys);
    }

    /** The loop of `GroupByParent`, over the whole list. */
    static method GroupAll(aps: seq<ProjectActionPoint>, aoKeys: set<string>)
      returns (groups: map<string, seq<ProjectActionPoint>>, processedParents: seq<string>)
      ensures Grouped(aps, aoKeys, groups, processedParents)
    {
      groups := map[];
      processedParents := ["global"];
      var n := 0;
      while n < |aps|
        invariant n <= |aps|
        invariant Grouped(aps[..n], aoKeys, groups, processedParents)
      {
        assert aps[..n + 1] == aps[..n] + [aps[n]];
        groups, processedParents := Group(aps[..n], aps[n], aoKeys, groups, processedParents);
        n := n + 1;
      }
      assert aps[..n] == aps;
    }

    /** One turn of the grouping loop: `ap` joins the group of its parent key. */
    static method Group(ghost s: seq<ProjectActionPoint>, ap: ProjectActionPoint, aoKeys: set<string>,
                        groups: map<string, seq<ProjectActionPoint>>, processed: seq<string>)
      returns (groups': map<string, seq<ProjectActionPoint>>, processed': seq<string>)
      requires Grouped(s, aoKeys, groups, processed)
      ensures Grouped(s + [ap], aoKeys, groups', processed')
    {
      var parent := ParentKey(ap);
      GroupedStep(s, aoKeys, groups, processed, ap);
      groups' := groups[parent := (if parent in groups then groups[parent] else []) + [ap]];
      processed' := processed + (if parent in aoKeys then [parent] else []);
    }

    /**
     * `UpdateActionPoints(project)`: the action points are visited parent
     * first from the worklist `processedParents` ("global", then one entry
     * per point whose parent is an action object, then every visited id);
     * each visited point is updated or spawned, and afterwards every point
     * that was not visited is removed. The table ends up holding exactly
     * the points whose parent chain reaches "global" or an action object.
     */
    method UpdateActionPoints(project: Project, aoKeys: set<string>, view: SceneView)
      requires actionPoints.Valid()
      requires UniqueIds(project.actionPoints)
      requires forall p :: p in project.actionPoints ==> !IsRoot(p.id, aoKeys)
      modifies actionPoints, actionPoints.entries.Values
      ensures actionPoints.Valid()
      ensures forall k :: k in actionPoints.entries <==> k in ProcessedIds(project.actionPoints, aoKeys)
      ensures forall k :: k in actionPoints.entries ==> Refreshed(actionPoints.entries[k], old(DataOf(actionPoints)), IdIndex(project.actionPoints), view, k)
      ensures forall k :: k in actionPoints.entries && k in old(actionPoints.entries) ==> actionPoints.entries[k] == old(actionPoints.entries[k])
      ensures forall k :: k in actionPoints.entries && k !in old(actionPoints.entries) ==> fresh(actionPoints.entries[k])
    {
      var aps := project.actionPoints;
      ghost var oldData := DataOf(actionPoints);
      ghost var oldPos := PositionsOf(actionPoints);
      var actionPointsWithParents, processedParents := GroupByParent(aps, aoKeys);
      var currentAP := WalkWorklist(aps, aoKeys, actionPointsWithParents, processedParents, view,
                                    IdIndex(aps), actionPoints.entries, oldData, oldPos);
      RemoveNotIn(currentAP);
    }

    /**
     * The worklist loop of `UpdateActionPoints`: every position of
     * `processedParents` is visited in order while the list grows, and
     * `currentAP` ends up listing the ids of the grounded points.
     */
    method WalkWorklist(aps: seq<ProjectActionPoint>, aoKeys: set<string>, actionPointsWithParents: map<string, seq<ProjectActionPoint>>,
                        processedParents: seq<string>, view: SceneView, ghost byId: map<string, ProjectActionPoint>,
                        ghost oldEntries: map<string, ActionPoint>, ghost oldData: map<string, ProjectActionPoint>, ghost oldPos: map<string, Vec3>)
      returns (currentAP: seq<string>)
      requires UniqueIds(aps) && forall p :: p in aps ==> !IsRoot(p.id, aoKeys)
      requires byId == IdIndex(aps) && oldEntries == actionPoints.entries
      requires forall k :: k in actionPointsWithParents ==> actionPointsWithParents[k] == Members(aps, k)
      requires forall p :: p in aps ==> ParentKey(p) in actionPointsWithParents
      requires processedParents == ["global"] + AoParents(aps, aoKeys)
      requires TableInv(actionPoints, oldEntries, oldData, oldPos, byId, view, [])
      modifies actionPoints, actionPoints.entries.Values
      ensures TableInv(actionPoints, oldEntries, oldData, oldPos, byId, view, currentAP)
      ensures forall k :: k in currentAP <==> k in ProcessedIds(aps, aoKeys)
      ensures forall k :: k in actionPoints.entries && k !in oldEntries ==> fresh(actionPoints.entries[k])
    {
      currentAP := [];
      var processedParents := processedParents;
      ghost var n0 := |processedParents|;
      ghost var pp: seq<nat> := seq(n0, x => 0);
      WalkInit(aps, aoKeys, actionPointsWithParents, processedParents, pp);
      var i := 0;
      while i < |processedParents|
        invariant i <= |processedParents|
        invariant Walk(aps, aoKeys, actionPointsWithParents, processedParents, pp, n0, i, currentAP)
        invariant TableInv(actionPoints, oldEntries, oldData, oldPos, byId, view, currentAP)
        invariant forall k :: k in actionPoints.entries && k !in oldEntries ==> fresh(actionPoints.entries[k])
        decreases n0 + Times(n0, |aps|) - i
      {
        WalkBound(aps, aoKeys, actionPointsWithParents, processedParents, pp, n0, i, currentAP);
        processedParents, currentAP, pp := WalkStep(view, processedParents, currentAP, i, pp, n0, aps, aoKeys,
                                                    actionPointsWithParents, byId, oldEntries, oldData, oldPos);
        i := i + 1;
      }
      WalkDone(aps, aoKeys, actionPointsWithParents, processedParents, pp, n0, currentAP);
    }

    /** One turn of the worklist loop: the group of `processedParents[i]`, if any, is visited. */
    method WalkStep(view: SceneView, processedParents: seq<string>, currentAP: seq<string>,
                    i: nat, ghost pp: seq<nat>, ghost n0: nat, ghost aps: seq<ProjectActionPoint>, ghost aoKeys: set<string>,
                    actionPointsWithParents: map<string, seq<ProjectActionPoint>>, ghost byId: map<string, ProjectActionPoint>,
                    ghost oldEntries: map<string, ActionPoint>, ghost oldData: map<string, ProjectActionPoint>, ghost oldPos: map<string, Vec3>)
      returns (parents: seq<string>, current: seq<string>, ghost pp': seq<nat>)
      requires UniqueIds(aps) && forall p :: p in aps ==> !IsRoot(p.id, aoKeys)
      requires byId == IdIndex(aps)
      requires Walk(aps, aoKeys, actionPointsWithParents, processedParents, pp, n0, i, currentAP) && i < |processedParents|
      requires TableInv(actionPoints, oldEntries, oldData, oldPos, byId, view, currentAP)
      modifies actionPoints, actionPoints.entries.Values
      ensures Walk(aps, aoKeys, actionPointsWithParents, parents, pp', n0, i + 1, current)
      ensures TableInv(actionPoints, oldEntries, oldData, oldPos, byId, view, current)
      ensures forall k :: k in old(actionPoints.entries) ==> k in actionPoints.entries && actionPoints.entries[k] == old(actionPoints.entries[k])
      ensures forall k :: k in actionPoints.entries && k !in old(actionPoints.entries) ==> fresh(actionPoints.entries[k])
    {
      if processedParents[i] in actionPointsWithParents {
        var projectActionPoints := actionPointsWithParents[processedParents[i]];
        parents, current, pp' := VisitGroup(projectActionPoints, view, processedParents, currentAP,
                                            i, pp, n0, aps, aoKeys, actionPointsWithParents, byId, oldEntries, oldData, oldPos);
      } else {
        WalkSkip(aps, aoKeys, actionPointsWithParents, processedParents, pp, n0, i, currentAP);
        parents, current, pp' := processedParents, currentAP, pp;
      }
    }

    /** The final loop of `UpdateActionPoints`: every point whose id is not kept is removed. */
    method RemoveNotIn(keep: seq<string>)
      requires actionPoints.Valid()
      modifies actionPoints
      ensures actionPoints.Valid()
      ensures actionPoints.entries == map k | k in old(actionPoints.entries) && k in keep :: old(actionPoints.entries)[k]
    {
      var keys := actionPoints.entries.Keys;
      while keys != {}
        invariant keys <= old(actionPoints.entries.Keys)
        invariant actionPoints.Valid()
        invariant actionPoints.entries == map k | k in old(actionPoints.entries) && (k in keep || k in keys) :: old(actionPoints.entries)[k]
        decreases |keys|
      {
        var actionPointId :| actionPointId in keys;
        if actionPointId !in keep {
          RemoveActionPoint(actionPointId);
        }
        keys := keys - {actionPointId};
      }
    }
  }
}
