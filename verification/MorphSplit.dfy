/** Grouping the retained faces and splitting their vertices into parts
    (crates/audio2face3d-gui/src/obj2morph/convert.rs, `geometry`).
    A name is represented by its rank in string order; rank 0 is the empty string. */
module Splits {
  import opened Common
  import opened Transforms

  type Name = nat

  datatype SplitBy = ByMaterial | ByObjectGroupMaterial

  /** `diagonal` is the choice the triangulation makes for a quad: true cuts from corner 0 to corner 2. */
  datatype Face = Face(owner: Name, group: Name, material: Name, corners: seq<nat>, diagonal: bool)

  datatype Key = Key(owner: Name, group: Name, material: Name)

  datatype Group = Group(key: Key, indices: seq<nat>)

  datatype GeometryError = MeshCount | NoHeight | NoNormals | VertexLimit

  predicate Shaped(faces: seq<Face>) { forall f | 0 <= f < |faces| :: 3 <= |faces[f].corners| <= 4 }

  /** What the parser guarantees of every face. */
  predicate Parsed(faces: seq<Face>, vertices: nat) {
    Shaped(faces)
    && forall f | 0 <= f < |faces| :: forall c | 0 <= c < |faces[f].corners| :: faces[f].corners[c] < vertices
  }

  function TriangleCount(face: Face): nat { if |face.corners| == 3 then 1 else 2 }

  function Triangulated(face: Face): (r: seq<nat>)
    requires 3 <= |face.corners| <= 4
    ensures |r| == 3 * TriangleCount(face) && forall i | 0 <= i < |r| :: r[i] in face.corners
  {
    var v := face.corners;
    if |v| == 3 then v
    else if face.diagonal then [v[0], v[1], v[2], v[0], v[2], v[3]]
    else [v[0], v[1], v[3], v[1], v[2], v[3]]
  }

  function KeyOf(face: Face, split: SplitBy): Key {
    match split
    case ByMaterial => Key(0, 0, face.material)
    case ByObjectGroupMaterial => Key(face.owner, face.group, face.material)
  }

  predicate Less(a: Key, b: Key) {
    a.owner < b.owner || (a.owner == b.owner && (a.group < b.group || (a.group == b.group && a.material < b.material)))
  }

  // ---------------------------------------------------------------- what the split must produce

  /** The corners of the first n faces that are kept and have the key, in source order. */
  function Kept(faces: seq<Face>, split: SplitBy, excluded: set<Name>, key: Option<Key>, n: nat): seq<nat>
    requires n <= |faces| && Shaped(faces)
  {
    if n == 0 then []
    else
      Kept(faces, split, excluded, key, n - 1)
      + (if Selects(faces[n - 1], split, excluded, key) then Triangulated(faces[n - 1]) else [])
  }

  predicate Selects(face: Face, split: SplitBy, excluded: set<Name>, key: Option<Key>) {
    face.material !in excluded && (key.None? || key.value == KeyOf(face, split))
  }

  function KeptCount(faces: seq<Face>, split: SplitBy, excluded: set<Name>, key: Option<Key>, n: nat): nat
    requires n <= |faces|
  {
    if n == 0 then 0
    else
      KeptCount(faces, split, excluded, key, n - 1)
      + (if Selects(faces[n - 1], split, excluded, key) then TriangleCount(faces[n - 1]) else 0)
  }

  lemma {:induction false} KeptIsTriangles(faces: seq<Face>, split: SplitBy, excluded: set<Name>, key: Option<Key>,
                                           n: nat)
    requires n <= |faces| && Shaped(faces)
    ensures |Kept(faces, split, excluded, key, n)| == 3 * KeptCount(faces, split, excluded, key, n)
  {
    if n > 0 {
      KeptIsTriangles(faces, split, excluded, key, n - 1);
    }
  }

  ghost function KeysOf(faces: seq<Face>, split: SplitBy, excluded: set<Name>, n: nat): set<Key>
    requires n <= |faces|
  {
    set f | 0 <= f < n && faces[f].material !in excluded :: KeyOf(faces[f], split)
  }

  function CountExcluded(faces: seq<Face>, excluded: set<Name>, material: Name, n: nat): nat
    requires n <= |faces|
  {
    if n == 0 then 0
    else
      CountExcluded(faces, excluded, material, n - 1)
      + (if faces[n - 1].material == material && material in excluded then 1 else 0)
  }

  /** That is the number of faces with this material, if it is an excluded one, and else nothing. */
  lemma {:induction false} CountExcludedMeans(faces: seq<Face>, excluded: set<Name>, material: Name, n: nat)
    requires n <= |faces|
    ensures CountExcluded(faces, excluded, material, n)
         == if material in excluded then |set f | 0 <= f < n && faces[f].material == material| else 0
  {
    var found := set f | 0 <= f < n && faces[f].material == material;
    if n > 0 {
      CountExcludedMeans(faces, excluded, material, n - 1);
      var before := set f | 0 <= f < n - 1 && faces[f].material == material;
      assert found == if faces[n - 1].material == material then before + {n - 1} else before;
    } else {
      assert found == {};
    }
  }

  ghost predicate Filled(g: Group, faces: seq<Face>, split: SplitBy, excluded: set<Name>, n: nat)
    requires n <= |faces| && Shaped(faces)
  {
    g.key in KeysOf(faces, split, excluded, n) && g.indices == Kept(faces, split, excluded, Some(g.key), n)
  }

  ghost predicate Ascending(groups: seq<Group>) {
    forall i, j | 0 <= i < j < |groups| :: Less(groups[i].key, groups[j].key)
  }

  ghost predicate HasGroup(groups: seq<Group>, key: Key) { exists i :: 0 <= i < |groups| && groups[i].key == key }

  /** The groups are in key order, one for each key, and each holds exactly its faces' triangles in source order. */
  ghost predicate GroupsAre(groups: seq<Group>, faces: seq<Face>, split: SplitBy, excluded: set<Name>, n: nat)
    requires n <= |faces| && Shaped(faces)
  {
    && Ascending(groups)
    && (forall i | 0 <= i < |groups| :: Filled(groups[i], faces, split, excluded, n))
    && (forall key | key in KeysOf(faces, split, excluded, n) :: HasGroup(groups, key))
  }

  lemma {:induction false} KeptInside(faces: seq<Face>, vertices: nat, split: SplitBy, excluded: set<Name>,
                                      key: Option<Key>, n: nat)
    requires Parsed(faces, vertices) && n <= |faces|
    ensures forall i | 0 <= i < |Kept(faces, split, excluded, key, n)| ::
              Kept(faces, split, excluded, key, n)[i] < vertices
  {
    if n > 0 {
      KeptInside(faces, vertices, split, excluded, key, n - 1);
    }
  }

  /** A face whose key has not appeared contributes the first triangles of a new group. */
  lemma {:induction false} NothingKeptBefore(faces: seq<Face>, split: SplitBy, excluded: set<Name>, key: Key, n: nat)
    requires n <= |faces| && Shaped(faces)
    requires key !in KeysOf(faces, split, excluded, n)
    ensures Kept(faces, split, excluded, Some(key), n) == []
  {
    if n > 0 {
      assert KeysOf(faces, split, excluded, n - 1) <= KeysOf(faces, split, excluded, n);
      if faces[n - 1].material !in excluded {
        assert KeyOf(faces[n - 1], split) in KeysOf(faces, split, excluded, n);
      }
      NothingKeptBefore(faces, split, excluded, key, n - 1);
    }
  }

  // ---------------------------------------------------------------- conservation

  /** How often the triangle occurs among the first n of a corner list. */
  function Copies(s: seq<nat>, triangle: (nat, nat, nat), n: nat): nat
    requires 3 * n <= |s|
  {
    if n == 0 then 0
    else Copies(s, triangle, n - 1) + (if (s[3 * n - 3], s[3 * n - 2], s[3 * n - 1]) == triangle then 1 else 0)
  }

  function AllCopies(s: seq<nat>, triangle: (nat, nat, nat)): nat { Copies(s, triangle, |s| / 3) }

  lemma {:induction false} CopiesOfPrefix(s: seq<nat>, t: seq<nat>, triangle: (nat, nat, nat), n: nat)
    requires 3 * n <= |s|
    ensures Copies(s + t, triangle, n) == Copies(s, triangle, n)
  {
    if n > 0 {
      CopiesOfPrefix(s, t, triangle, n - 1);
    }
  }

  lemma {:induction false} CopiesAppend(s: seq<nat>, t: seq<nat>, triangle: (nat, nat, nat), m: nat, n: nat)
    requires |s| == 3 * m && 3 * n <= |t|
    ensures Copies(s + t, triangle, m + n) == Copies(s, triangle, m) + Copies(t, triangle, n)
  {
    if n == 0 {
      CopiesOfPrefix(s, t, triangle, m);
    } else {
      CopiesAppend(s, t, triangle, m, n - 1);
      var last := 3 * (m + n);
      assert (s + t)[last - 3] == t[3 * n - 3] && (s + t)[last - 2] == t[3 * n - 2]
          && (s + t)[last - 1] == t[3 * n - 1];
    }
  }

  /** How often a key's faces among the first n have the triangle. */
  function KeptCopies(faces: seq<Face>, split: SplitBy, excluded: set<Name>, key: Option<Key>,
                      triangle: (nat, nat, nat), n: nat): nat
    requires n <= |faces| && Shaped(faces)
  {
    AllCopies(Kept(faces, split, excluded, key, n), triangle)
  }

  lemma CopiesOfTriangles(s: seq<nat>, triangle: (nat, nat, nat), m: nat)
    requires |s| == 3 * m
    ensures AllCopies(s, triangle) == Copies(s, triangle, m)
  {
  }

  lemma KeptCopiesMore(faces: seq<Face>, split: SplitBy, excluded: set<Name>, key: Option<Key>,
                       triangle: (nat, nat, nat), n: nat)
    requires 0 < n <= |faces| && Shaped(faces)
    ensures KeptCopies(faces, split, excluded, key, triangle, n)
         == KeptCopies(faces, split, excluded, key, triangle, n - 1)
            + (if Selects(faces[n - 1], split, excluded, key) then AllCopies(Triangulated(faces[n - 1]), triangle)
               else 0)
  {
    var before := Kept(faces, split, excluded, key, n - 1);
    if Selects(faces[n - 1], split, excluded, key) {
      KeptIsTriangles(faces, split, excluded, key, n - 1);
      AllCopiesAppend(before, Triangulated(faces[n - 1]), triangle, KeptCount(faces, split, excluded, key, n - 1),
                      TriangleCount(faces[n - 1]));
    } else {
      assert Kept(faces, split, excluded, key, n) == before;
    }
  }

  lemma AllCopiesAppend(s: seq<nat>, t: seq<nat>, triangle: (nat, nat, nat), m: nat, n: nat)
    requires |s| == 3 * m && |t| == 3 * n
    ensures AllCopies(s + t, triangle) == AllCopies(s, triangle) + AllCopies(t, triangle)
  {
    CopiesOfTriangles(s, triangle, m);
    CopiesOfTriangles(t, triangle, n);
    CopiesOfTriangles(s + t, triangle, m + n);
    CopiesAppend(s, t, triangle, m, n);
  }

  /** How often the triangle occurs in the first m groups together. */
  function GroupCopies(groups: seq<Group>, triangle: (nat, nat, nat), m: nat): nat
    requires m <= |groups|
  {
    if m == 0 then 0 else GroupCopies(groups, triangle, m - 1) + AllCopies(groups[m - 1].indices, triangle)
  }

  /** The same for what the keys of the groups have among the first n faces. */
  function Held(groups: seq<Group>, faces: seq<Face>, split: SplitBy, excluded: set<Name>, triangle: (nat, nat, nat),
                m: nat, n: nat): nat
    requires m <= |groups| && n <= |faces| && Shaped(faces)
  {
    if m == 0 then 0
    else
      Held(groups, faces, split, excluded, triangle, m - 1, n)
      + KeptCopies(faces, split, excluded, Some(groups[m - 1].key), triangle, n)
  }

  ghost predicate Takes(groups: seq<Group>, m: nat, face: Face, split: SplitBy, excluded: set<Name>)
    requires m <= |groups|
  {
    exists i :: 0 <= i < m && Selects(face, split, excluded, Some(groups[i].key))
  }

  /** One more face adds its triangles to one group at most. */
  lemma {:induction false} HeldMore(groups: seq<Group>, faces: seq<Face>, split: SplitBy, excluded: set<Name>,
                                    triangle: (nat, nat, nat), m: nat, n: nat)
    requires m <= |groups| && 0 < n <= |faces| && Shaped(faces) && Ascending(groups)
    ensures Held(groups, faces, split, excluded, triangle, m, n)
         == Held(groups, faces, split, excluded, triangle, m, n - 1)
            + (if Takes(groups, m, faces[n - 1], split, excluded) then AllCopies(Triangulated(faces[n - 1]), triangle)
               else 0)
  {
    if m > 0 {
      HeldMore(groups, faces, split, excluded, triangle, m - 1, n);
      KeptCopiesMore(faces, split, excluded, Some(groups[m - 1].key), triangle, n);
      TakenOnce(groups, m, faces[n - 1], split, excluded);
    }
  }

  lemma TakenOnce(groups: seq<Group>, m: nat, face: Face, split: SplitBy, excluded: set<Name>)
    requires 0 < m <= |groups| && Ascending(groups)
    ensures Takes(groups, m, face, split, excluded) <==>
              Takes(groups, m - 1, face, split, excluded) || Selects(face, split, excluded, Some(groups[m - 1].key))
    ensures !(Takes(groups, m - 1, face, split, excluded) && Selects(face, split, excluded, Some(groups[m - 1].key)))
  {
    if Takes(groups, m, face, split, excluded) {
      var i :| 0 <= i < m && Selects(face, split, excluded, Some(groups[i].key));
      assert i == m - 1 || Takes(groups, m - 1, face, split, excluded);
    }
    if Takes(groups, m - 1, face, split, excluded) {
      var i :| 0 <= i < m - 1 && Selects(face, split, excluded, Some(groups[i].key));
      assert Less(groups[i].key, groups[m - 1].key);
    }
  }

  lemma {:induction false} HeldNothing(groups: seq<Group>, faces: seq<Face>, split: SplitBy, excluded: set<Name>,
                                       triangle: (nat, nat, nat), m: nat)
    requires m <= |groups| && Shaped(faces)
    ensures Held(groups, faces, split, excluded, triangle, m, 0) == 0
  {
    if m > 0 {
      HeldNothing(groups, faces, split, excluded, triangle, m - 1);
    }
  }

  ghost predicate AllTaken(groups: seq<Group>, faces: seq<Face>, split: SplitBy, excluded: set<Name>) {
    forall f | 0 <= f < |faces| :: Takes(groups, |groups|, faces[f], split, excluded) <==>
        Selects(faces[f], split, excluded, None)
  }

  lemma HeldStep(groups: seq<Group>, faces: seq<Face>, split: SplitBy, excluded: set<Name>, triangle: (nat, nat, nat),
                 n: nat)
    requires 0 < n <= |faces| && Shaped(faces) && Ascending(groups)
    requires Takes(groups, |groups|, faces[n - 1], split, excluded) <==> Selects(faces[n - 1], split, excluded, None)
    ensures var m := |groups|;
            && Held(groups, faces, split, excluded, triangle, m, n)
               - Held(groups, faces, split, excluded, triangle, m, n - 1)
               == KeptCopies(faces, split, excluded, None, triangle, n)
                  - KeptCopies(faces, split, excluded, None, triangle, n - 1)
  {
    HeldMore(groups, faces, split, excluded, triangle, |groups|, n);
    KeptCopiesMore(faces, split, excluded, None, triangle, n);
  }

  lemma {:induction false} HeldIsKept(groups: seq<Group>, faces: seq<Face>, split: SplitBy, excluded: set<Name>,
                                      triangle: (nat, nat, nat), n: nat)
    requires n <= |faces| && Shaped(faces) && Ascending(groups)
    requires AllTaken(groups, faces, split, excluded)
    ensures Held(groups, faces, split, excluded, triangle, |groups|, n)
              == KeptCopies(faces, split, excluded, None, triangle, n)
  {
    if n == 0 {
      HeldNothing(groups, faces, split, excluded, triangle, |groups|);
    } else {
      HeldIsKept(groups, faces, split, excluded, triangle, n - 1);
      HeldStep(groups, faces, split, excluded, triangle, n);
    }
  }

  lemma {:induction false} GroupsHold(groups: seq<Group>, faces: seq<Face>, split: SplitBy, excluded: set<Name>,
                                      triangle: (nat, nat, nat), m: nat)
    requires m <= |groups| && Shaped(faces)
    requires forall i | 0 <= i < |groups| :: Filled(groups[i], faces, split, excluded, |faces|)
    ensures GroupCopies(groups, triangle, m) == Held(groups, faces, split, excluded, triangle, m, |faces|)
  {
    if m > 0 {
      GroupsHold(groups, faces, split, excluded, triangle, m - 1);
      GroupHolds(groups[m - 1], faces, split, excluded, triangle);
    }
  }

  lemma GroupHolds(g: Group, faces: seq<Face>, split: SplitBy, excluded: set<Name>, triangle: (nat, nat, nat))
    requires Shaped(faces) && Filled(g, faces, split, excluded, |faces|)
    ensures AllCopies(g.indices, triangle) == KeptCopies(faces, split, excluded, Some(g.key), triangle, |faces|)
  {
  }

  /** Every triangle is in the groups exactly as often as in the retained source faces. */
  lemma SplitConserves(groups: seq<Group>, faces: seq<Face>, split: SplitBy, excluded: set<Name>,
                       triangle: (nat, nat, nat))
    requires Shaped(faces) && GroupsAre(groups, faces, split, excluded, |faces|)
    ensures GroupCopies(groups, triangle, |groups|) == AllCopies(Kept(faces, split, excluded, None, |faces|), triangle)
  {
    forall f | 0 <= f < |faces|
      ensures Takes(groups, |groups|, faces[f], split, excluded) <==> Selects(faces[f], split, excluded, None)
    {
      if Selects(faces[f], split, excluded, None) {
        assert KeyOf(faces[f], split) in KeysOf(faces, split, excluded, |faces|);
        assert HasGroup(groups, KeyOf(faces[f], split));
        var i :| 0 <= i < |groups| && groups[i].key == KeyOf(faces[f], split);
        assert Selects(faces[f], split, excluded, Some(groups[i].key));
      }
    }
    HeldIsKept(groups, faces, split, excluded, triangle, |faces|);
    GroupsHold(groups, faces, split, excluded, triangle, |groups|);
  }

  // ---------------------------------------------------------------- grouping

  /** The position of the key, or where it belongs. */
  method Find(groups: seq<Group>, key: Key) returns (at: nat)
    requires Ascending(groups)
    ensures at <= |groups|
    ensures forall i | 0 <= i < at :: Less(groups[i].key, key)
    ensures forall i | at < i < |groups| :: Less(key, groups[i].key)
    ensures at < |groups| ==> groups[at].key == key || Less(key, groups[at].key)
  {
    at := 0;
    while at < |groups| && Less(groups[at].key, key)
      invariant at <= |groups|
      invariant forall i | 0 <= i < at :: Less(groups[i].key, key)
    {
      at := at + 1;
    }
  }

  lemma FilledStays(g: Group, faces: seq<Face>, split: SplitBy, excluded: set<Name>, n: nat)
    requires n < |faces| && Shaped(faces) && Filled(g, faces, split, excluded, n)
    requires !Selects(faces[n], split, excluded, Some(g.key))
    ensures Filled(g, faces, split, excluded, n + 1)
  {
    assert Kept(faces, split, excluded, Some(g.key), n + 1) == Kept(faces, split, excluded, Some(g.key), n);
  }

  /** The group of the next kept face, whether it is new or not. */
  lemma FilledGrows(faces: seq<Face>, split: SplitBy, excluded: set<Name>, n: nat)
    requires n < |faces| && Shaped(faces) && faces[n].material !in excluded
    ensures var key := KeyOf(faces[n], split);
            Filled(Group(key, Kept(faces, split, excluded, Some(key), n) + Triangulated(faces[n])), faces, split,
                   excluded, n + 1)
  {
    assert KeyOf(faces[n], split) in KeysOf(faces, split, excluded, n + 1);
  }

  lemma KeysGrow(faces: seq<Face>, split: SplitBy, excluded: set<Name>, n: nat)
    requires n < |faces|
    ensures KeysOf(faces, split, excluded, n + 1)
         == KeysOf(faces, split, excluded, n) + (if faces[n].material in excluded then {} else {KeyOf(faces[n], split)})
  {
  }

  lemma GroupsStay(groups: seq<Group>, faces: seq<Face>, split: SplitBy, excluded: set<Name>, n: nat)
    requires n < |faces| && Shaped(faces)
    requires GroupsAre(groups, faces, split, excluded, n) && faces[n].material in excluded
    ensures GroupsAre(groups, faces, split, excluded, n + 1)
  {
    KeysGrow(faces, split, excluded, n);
    forall i | 0 <= i < |groups|
      ensures Filled(groups[i], faces, split, excluded, n + 1)
    {
      FilledStays(groups[i], faces, split, excluded, n);
    }
  }

  /** `more` keeps every old group with another key and has the face's own group at `at`. */
  lemma GroupsGrow(groups: seq<Group>, more: seq<Group>, at: nat, faces: seq<Face>, split: SplitBy,
                   excluded: set<Name>, n: nat)
    requires n < |faces| && Shaped(faces)
    requires GroupsAre(groups, faces, split, excluded, n) && faces[n].material !in excluded && at < |more|
              && Ascending(more)
    requires more[at]
              == Group(KeyOf(faces[n], split),
                       Kept(faces, split, excluded, Some(KeyOf(faces[n], split)), n) + Triangulated(faces[n]))
    requires forall i | 0 <= i < |more| && i != at :: Filled(more[i], faces, split, excluded, n)
    requires forall key: Key | HasGroup(groups, key) :: HasGroup(more, key)
    ensures GroupsAre(more, faces, split, excluded, n + 1)
  {
    KeysGrow(faces, split, excluded, n);
    FilledGrows(faces, split, excluded, n);
    forall i | 0 <= i < |more|
      ensures Filled(more[i], faces, split, excluded, n + 1)
    {
      if i != at {
        assert more[i].key != more[at].key;
        FilledStays(more[i], faces, split, excluded, n);
      }
    }
    forall key | key in KeysOf(faces, split, excluded, n + 1)
      ensures HasGroup(more, key)
    {
      if key == KeyOf(faces[n], split) {
        assert more[at].key == key;
      } else {
        assert HasGroup(groups, key);
      }
    }
  }

  datatype Grouping = Grouping(groups: seq<Group>, indices: seq<nat>, excluded: map<Name, nat>)

  /** The face loop: fills the groups, the retained corners and the excluded counts. */
  method GroupFaces(faces: seq<Face>, vertices: nat, split: SplitBy, excludes: set<Name>)
      returns (r: Result<Grouping, GeometryError>)
    requires Parsed(faces, vertices)
    ensures r.Ok? <==> 1 <= |KeysOf(faces, split, excludes, |faces|)| <= 64
    ensures r.Ok? ==> GroupsAre(r.value.groups, faces, split, excludes, |faces|)
    ensures r.Ok? ==> 1 <= |r.value.groups| <= 64
    ensures r.Ok? ==> r.value.indices == Kept(faces, split, excludes, None, |faces|)
    ensures r.Ok? ==> forall m: Name :: m in r.value.excluded <==> CountExcluded(faces, excludes, m, |faces|) > 0
    ensures r.Ok? ==>
              forall m: Name | m in r.value.excluded ::
                  r.value.excluded[m] == CountExcluded(faces, excludes, m, |faces|)
  {
    var groups: seq<Group>, indices: seq<nat>, excluded: map<Name, nat> := [], [], map[];
    for n := 0 to |faces|
      invariant GroupsAre(groups, faces, split, excludes, n)
      invariant indices == Kept(faces, split, excludes, None, n)
      invariant forall m: Name :: m in excluded <==> CountExcluded(faces, excludes, m, n) > 0
      invariant forall m: Name | m in excluded :: excluded[m] == CountExcluded(faces, excludes, m, n)
    {
      var face := faces[n];
      if face.material in excludes {
        GroupsStay(groups, faces, split, excludes, n);
        excluded := excluded[face.material := (if face.material in excluded then excluded[face.material] else 0) + 1];
      } else {
        indices := indices + Triangulated(face);
        groups := Extend(groups, faces, split, excludes, n);
      }
    }
    KeysCounted(groups, faces, split, excludes);
    if |groups| == 0 || |groups| > 64 {
      return Err(MeshCount);
    }
    return Ok(Grouping(groups, indices, excluded));
  }

  lemma UpdatedGroups(groups: seq<Group>, at: nat, group: Group, key: Key)
    requires at < |groups| && groups[at].key == group.key && Ascending(groups)
    ensures Ascending(groups[at := group])
    ensures HasGroup(groups, key) ==> HasGroup(groups[at := group], key)
  {
    if HasGroup(groups, key) {
      var i :| 0 <= i < |groups| && groups[i].key == key;
      assert groups[at := group][i].key == key;
    }
  }

  lemma InsertedGroups(groups: seq<Group>, at: nat, group: Group, key: Key)
    requires at <= |groups| && Ascending(groups)
    requires forall i | 0 <= i < at :: Less(groups[i].key, group.key)
    requires forall i | at <= i < |groups| :: Less(group.key, groups[i].key)
    ensures var more := groups[..at] + [group] + groups[at..];
            && |more| == |groups| + 1 && more[at] == group && Ascending(more)
            && (forall i | 0 <= i < |more| && i != at :: more[i] == groups[if i < at then i else i - 1])
            && (HasGroup(groups, key) ==> HasGroup(more, key))
  {
    var more := groups[..at] + [group] + groups[at..];
    if HasGroup(groups, key) {
      var i :| 0 <= i < |groups| && groups[i].key == key;
      assert more[if i < at then i else i + 1].key == key;
    }
  }

  /** Puts the next kept face's triangles into its group. */
  method Extend(groups: seq<Group>, faces: seq<Face>, split: SplitBy, excludes: set<Name>, n: nat)
      returns (more: seq<Group>)
    requires n < |faces| && Shaped(faces)
    requires GroupsAre(groups, faces, split, excludes, n) && faces[n].material !in excludes
    ensures GroupsAre(more, faces, split, excludes, n + 1)
  {
    var key := KeyOf(faces[n], split);
    var at := Find(groups, key);
    var triangles := Triangulated(faces[n]);
    if at < |groups| && groups[at].key == key {
      assert Filled(groups[at], faces, split, excludes, n);
      var group := Group(key, groups[at].indices + triangles);
      more := groups[at := group];
      forall k: Key
        ensures Ascending(more) && (HasGroup(groups, k) ==> HasGroup(more, k))
      {
        UpdatedGroups(groups, at, group, k);
      }
    } else {
      var group := Group(key, [] + triangles);
      more := groups[..at] + [group] + groups[at..];
      assert !HasGroup(groups, key);
      NothingKeptBefore(faces, split, excludes, key, n);
      forall k: Key
        ensures Ascending(more) && (HasGroup(groups, k) ==> HasGroup(more, k))
      {
        InsertedGroups(groups, at, group, k);
      }
      InsertedGroups(groups, at, group, key);
    }
    GroupsGrow(groups, more, at, faces, split, excludes, n);
  }

  lemma KeysCounted(groups: seq<Group>, faces: seq<Face>, split: SplitBy, excluded: set<Name>)
    requires Shaped(faces)
    requires GroupsAre(groups, faces, split, excluded, |faces|)
    ensures |KeysOf(faces, split, excluded, |faces|)| == |groups|
  {
    KeysUpTo(groups, |groups|);
    forall key | key in KeysOf(faces, split, excluded, |faces|)
      ensures key in FirstKeys(groups, |groups|)
    {
      assert HasGroup(groups, key);
    }
    assert FirstKeys(groups, |groups|) == KeysOf(faces, split, excluded, |faces|);
  }

  ghost function FirstKeys(groups: seq<Group>, n: nat): set<Key>
    requires n <= |groups|
  {
    set i | 0 <= i < n :: groups[i].key
  }

  lemma {:induction false} KeysUpTo(groups: seq<Group>, n: nat)
    requires n <= |groups| && Ascending(groups)
    ensures |FirstKeys(groups, n)| == n
  {
    if n > 0 {
      KeysUpTo(groups, n - 1);
      assert FirstKeys(groups, n) == FirstKeys(groups, n - 1) + {groups[n - 1].key};
    } else {
      assert FirstKeys(groups, n) == {};
    }
  }

  // ---------------------------------------------------------------- parts

  datatype Target = Target(name: Name, positions: seq<Vec>, normals: seq<Vec>)

  datatype Part = Part(key: Key, positions: seq<Vec>, normals: seq<Vec>, indices: seq<nat>, original: seq<nat>,
                       targets: seq<Target>)

  predicate Increasing(s: seq<nat>) { forall i, j | 0 <= i < j < |s| :: s[i] < s[j] }

  /** `gathered` holds the values of the listed source vertices. */
  predicate Gathers(gathered: seq<Vec>, original: seq<nat>, values: nat -> Vec) {
    |gathered| == |original| && forall i | 0 <= i < |original| :: gathered[i] == values(original[i])
  }

  function At(positions: seq<Vec>): nat -> Vec { (v: nat) => if v < |positions| then positions[v] else ORIGIN }

  /** Reading the part's indices through its vertex list gives back the source triangles. */
  predicate Lifts(indices: seq<nat>, original: seq<nat>, source: seq<nat>) {
    && |indices| == |source|
    && forall j | 0 <= j < |source| :: indices[j] < |original| && original[indices[j]] == source[j]
  }

  /** The part is its group's surface with each used source vertex once, in source order. */
  ghost predicate PartOf(part: Part, group: Group, positions: nat -> Vec, normals: nat -> Vec) {
    && part.key == group.key
    && Increasing(part.original)
    && (forall v: nat :: v in part.original <==> v in group.indices)
    && Lifts(part.indices, part.original, group.indices)
    && Gathers(part.positions, part.original, positions)
    && Gathers(part.normals, part.original, normals)
  }

  /** A source vertex that several parts use has the same position and normal in each. */
  lemma SharedVerticesAgree(a: Part, b: Part, ga: Group, gb: Group, positions: nat -> Vec, normals: nat -> Vec, i: nat,
                            j: nat)
    requires PartOf(a, ga, positions, normals) && PartOf(b, gb, positions, normals)
    requires i < |ga.indices| && j < |gb.indices| && ga.indices[i] == gb.indices[j]
    ensures a.positions[a.indices[i]] == b.positions[b.indices[j]] == positions(ga.indices[i])
    ensures a.normals[a.indices[i]] == b.normals[b.indices[j]] == normals(ga.indices[i])
  {
  }

  /** Within one part two corners share a part vertex exactly when they share the source vertex. */
  lemma RemapIsInjective(part: Part, group: Group, positions: nat -> Vec, normals: nat -> Vec, i: nat, j: nat)
    requires PartOf(part, group, positions, normals) && i < |group.indices| && j < |group.indices|
    ensures part.indices[i] == part.indices[j] <==> group.indices[i] == group.indices[j]
  {
  }

  ghost function Distinct(s: seq<nat>): nat { |set v | v in s| }

  ghost function DistinctTotal(groups: seq<Group>, m: nat): nat
    requires m <= |groups|
  {
    if m == 0 then 0 else DistinctTotal(groups, m - 1) + Distinct(groups[m - 1].indices)
  }

  lemma {:induction false} DistinctGrows(groups: seq<Group>, m: nat, n: nat)
    requires m <= n <= |groups|
    ensures DistinctTotal(groups, m) <= DistinctTotal(groups, n)
    decreases n
  {
    if m < n {
      DistinctGrows(groups, m, n - 1);
    }
  }

  lemma {:induction false} IncreasingIsDistinct(s: seq<nat>, n: nat)
    requires n <= |s| && Increasing(s)
    ensures |set i | 0 <= i < n :: s[i]| == n
  {
    var elements := set i | 0 <= i < n :: s[i];
    if n > 0 {
      IncreasingIsDistinct(s, n - 1);
      var fewer := set i | 0 <= i < n - 1 :: s[i];
      assert s[n - 1] !in fewer;
      assert elements == fewer + {s[n - 1]};
    } else {
      assert elements == {};
    }
  }

  lemma SameElementsSameCount(s: seq<nat>, t: seq<nat>)
    requires Increasing(s) && forall v: nat :: v in s <==> v in t
    ensures |s| == Distinct(t)
  {
    IncreasingIsDistinct(s, |s|);
    assert (set i | 0 <= i < |s| :: s[i]) == set v | v in t;
  }

  /** The distinct elements in increasing order. */
  method Distinguish(s: seq<nat>) returns (r: seq<nat>)
    ensures Increasing(r) && forall v: nat :: v in r <==> v in s
  {
    r := [];
    for n := 0 to |s|
      invariant Increasing(r) && forall v: nat :: v in r <==> v in s[..n]
    {
      assert s[..n + 1] == s[..n] + [s[n]];
      r := InsertInOrder(r, s[n]);
    }
    assert s[..|s|] == s;
  }

  method InsertInOrder(s: seq<nat>, v: nat) returns (r: seq<nat>)
    requires Increasing(s)
    ensures Increasing(r) && forall w: nat :: w in r <==> w in s || w == v
  {
    var at := 0;
    while at < |s| && s[at] < v
      invariant at <= |s| && forall i | 0 <= i < at :: s[i] < v
    {
      at := at + 1;
    }
    if at < |s| && s[at] == v {
      return s;
    }
    Inserted(s, at, v);
    r := s[..at] + [v] + s[at..];
  }

  lemma Inserted(s: seq<nat>, at: nat, v: nat)
    requires Increasing(s) && at <= |s|
    requires (forall i | 0 <= i < at :: s[i] < v) && (at < |s| ==> v < s[at])
    ensures var r := s[..at] + [v] + s[at..]; Increasing(r) && forall w: nat :: w in r <==> w in s || w == v
  {
    assert s == s[..at] + s[at..];
  }

  /** Replaces each corner by its place in the vertex list. */
  method Remap(source: seq<nat>, original: seq<nat>) returns (indices: seq<nat>)
    requires Increasing(original) && forall v: nat :: v in original <==> v in source
    ensures Lifts(indices, original, source)
  {
    var remap: map<nat, nat> := map[];
    for i := 0 to |original|
      invariant forall k | 0 <= k < i :: original[k] in remap
      invariant forall v | v in remap :: remap[v] < |original| && original[remap[v]] == v
    {
      remap := remap[original[i] := i];
    }
    indices := [];
    for j := 0 to |source|
      invariant |indices| == j && forall k | 0 <= k < j :: indices[k] < |original| && original[indices[k]] == source[k]
    {
      assert source[j] in original;
      indices := indices + [remap[source[j]]];
    }
  }

  method Gather(original: seq<nat>, values: nat -> Vec) returns (r: seq<Vec>)
    ensures Gathers(r, original, values)
  {
    r := seq(|original|, i requires 0 <= i < |original| => values(original[i]));
  }

  /** The part loop. */
  method SplitParts(groups: seq<Group>, positions: nat -> Vec, normals: nat -> Vec)
      returns (r: Result<seq<Part>, GeometryError>)
    ensures r.Ok? <==> DistinctTotal(groups, |groups|) <= 100_000
    ensures r.Err? ==> r.error == VertexLimit
    ensures r.Ok? ==>
              |r.value| == |groups|
              && forall i | 0 <= i < |groups| :: PartOf(r.value[i], groups[i], positions, normals)
                   && r.value[i].targets == []
  {
    var parts: seq<Part> := [];
    var vertices := 0;
    for n := 0 to |groups|
      invariant |parts| == n && vertices == DistinctTotal(groups, n) <= 100_000
      invariant forall i | 0 <= i < n :: PartOf(parts[i], groups[i], positions, normals) && parts[i].targets == []
    {
      var source := groups[n].indices;
      var original := Distinguish(source);
      SameElementsSameCount(original, source);
      vertices := vertices + |original|;
      DistinctGrows(groups, n + 1, |groups|);
      if vertices > 100_000 {
        return Err(VertexLimit);
      }
      var indices := Remap(source, original);
      var moved := Gather(original, positions);
      var directions := Gather(original, normals);
      parts := parts + [Part(groups[n].key, moved, directions, indices, original, [])];
    }
    return Ok(parts);
  }

  // ---------------------------------------------------------------- the neutral geometry

  datatype Geometry = Geometry(parts: seq<Part>, transform: Transform, positions: seq<Vec>, indices: seq<nat>,
                               excluded: map<Name, nat>)

  /** Area-weighted normals per source vertex of a surface, or None where one is undefined. */
  type NormalRule = (seq<Vec>, seq<nat>) -> Option<nat -> Vec>

  function Corners(indices: seq<nat>, positions: seq<Vec>): (r: seq<Vec>)
    ensures |r| == |indices| && forall i | 0 <= i < |indices|
              && indices[i] < |positions| :: r[i] == positions[indices[i]]
  {
    seq(|indices|, i requires 0 <= i < |indices| => if indices[i] < |positions| then positions[indices[i]] else ORIGIN)
  }

  function MovedAll(t: Transform, positions: seq<Vec>): (r: seq<Vec>)
    ensures |r| == |positions| && forall v | 0 <= v < |positions| :: r[v] == t.Position(positions[v])
  {
    seq(|positions|, v requires 0 <= v < |positions| => t.Position(positions[v]))
  }

  /** The result is the retained surface, moved by one similarity fitted to it and split group by group. */
  ghost predicate GeometryOf(g: Geometry, groups: seq<Group>, config: Config, faces: seq<Face>, neutral: seq<Vec>,
                             split: SplitBy, excludes: set<Name>, normals: NormalRule)
    requires Parsed(faces, |neutral|)
  {
    && GroupsAre(groups, faces, split, excludes, |faces|) && 1 <= |groups| <= 64
    && g.indices == Kept(faces, split, excludes, None, |faces|)
    && (forall i | 0 <= i < |g.indices| :: g.indices[i] < |neutral|)
    && UsesBasis(g.transform, config) && g.transform.center == config.center
    && TransformFor(config, Corners(g.indices, neutral)) == Some(g.transform)
    && Fitted(g.transform, config.fitHeight, Corners(g.indices, neutral))
    && g.positions == MovedAll(g.transform, neutral)
    && normals(g.positions, g.indices).Some?
    && DistinctTotal(groups, |groups|) <= 100_000
    && PartsOf(g.parts, groups, At(g.positions), normals(g.positions, g.indices).value)
    && (forall m: Name :: m in g.excluded <==> CountExcluded(faces, excludes, m, |faces|) > 0)
    && (forall m: Name | m in g.excluded :: g.excluded[m] == CountExcluded(faces, excludes, m, |faces|))
  }

  /** The first reason, if any, for which there is no geometry. `groups` are the one grouping of the faces. */
  ghost function GeometryFault(config: Config, faces: seq<Face>, neutral: seq<Vec>, split: SplitBy, excludes: set<Name>,
                               normals: NormalRule, groups: seq<Group>): Option<GeometryError>
    requires Shaped(faces)
  {
    var indices := Kept(faces, split, excludes, None, |faces|);
    var t := TransformFor(config, Corners(indices, neutral));
    if !(1 <= |KeysOf(faces, split, excludes, |faces|)| <= 64) then Some(MeshCount)
    else if t.None? then Some(NoHeight)
    else if normals(MovedAll(t.value, neutral), indices).None? then Some(NoNormals)
    else if DistinctTotal(groups, |groups|) > 100_000 then Some(VertexLimit)
    else None
  }

  predicate AgreeUpTo(a: seq<Group>, b: seq<Group>, n: nat)
    requires n <= |a| && n <= |b|
  {
    forall i | 0 <= i < n :: a[i] == b[i]
  }

  lemma NotBefore(a: seq<Group>, b: seq<Group>, i: nat)
    requires i < |a| && i < |b| && AgreeUpTo(a, b, i) && Ascending(a) && Ascending(b) && HasGroup(a, b[i].key)
    ensures !Less(b[i].key, a[i].key)
  {
    var k :| 0 <= k < |a| && a[k].key == b[i].key;
    assert k >= i;
    if k > i {
      assert Less(a[i].key, a[k].key);
    }
  }

  lemma NextAgrees(a: seq<Group>, b: seq<Group>, faces: seq<Face>, split: SplitBy, excluded: set<Name>, n: nat, i: nat)
    requires n <= |faces| && Shaped(faces) && i < |a| && i < |b| && AgreeUpTo(a, b, i)
    requires GroupsAre(a, faces, split, excluded, n) && GroupsAre(b, faces, split, excluded, n)
    ensures a[i] == b[i]
  {
    var x, y := a[i], b[i];
    assert Filled(x, faces, split, excluded, n) && Filled(y, faces, split, excluded, n);
    NotBefore(a, b, i);
    NotBefore(b, a, i);
  }

  /** Sequences that agree wherever they agree before agree throughout. */
  lemma {:induction false} AgreeStepByStep(a: seq<Group>, b: seq<Group>, n: nat)
    requires n <= |a| && n <= |b|
    requires forall i | 0 <= i < n :: AgreeUpTo(a, b, i) ==> a[i] == b[i]
    ensures AgreeUpTo(a, b, n)
  {
    if n > 0 {
      AgreeStepByStep(a, b, n - 1);
    }
  }

  /** The faces have only one grouping. */
  lemma GroupsAreUnique(a: seq<Group>, b: seq<Group>, faces: seq<Face>, split: SplitBy, excluded: set<Name>)
    requires Shaped(faces)
    requires GroupsAre(a, faces, split, excluded, |faces|) && GroupsAre(b, faces, split, excluded, |faces|)
    ensures a == b
  {
    KeysCounted(a, faces, split, excluded);
    KeysCounted(b, faces, split, excluded);
    forall i | 0 <= i < |a| && AgreeUpTo(a, b, i)
      ensures a[i] == b[i]
    {
      NextAgrees(a, b, faces, split, excluded, |faces|, i);
    }
    AgreeStepByStep(a, b, |a|);
  }

  /** `geometry`, from the faces to the parts: it succeeds exactly when there is no fault, and else reports the
      first. */
  method MakeGeometry(config: Config, faces: seq<Face>, neutral: seq<Vec>, split: SplitBy, excludes: set<Name>,
                      normals: NormalRule)
    returns (r: Result<Geometry, GeometryError>, ghost groups: seq<Group>)
    requires config.Valid() && Parsed(faces, |neutral|)
    ensures r.Ok? ==> GeometryOf(r.value, groups, config, faces, neutral, split, excludes, normals)
    ensures r.Ok? ==> forall i | 0 <= i < |r.value.parts| :: r.value.parts[i].targets == []
    ensures 1 <= |KeysOf(faces, split, excludes, |faces|)| <= 64 ==> GroupsAre(groups, faces, split, excludes, |faces|)
    ensures var fault := GeometryFault(config, faces, neutral, split, excludes, normals, groups);
            (r.Ok? <==> fault.None?) && (r.Err? ==> fault == Some(r.error))
  {
    var grouped := GroupFaces(faces, |neutral|, split, excludes);
    groups := [];
    if grouped.Err? {
      return Err(MeshCount), groups;
    }
    var Grouping(found, indices, excluded) := grouped.value;
    groups := found;
    KeptInside(faces, |neutral|, split, excludes, None, |faces|);
    var transform := NewTransform(config, Corners(indices, neutral));
    if transform.None? {
      return Err(NoHeight), groups;
    }
    var t := transform.value;
    var positions := MovedAll(t, neutral);
    var directions := normals(positions, indices);
    if directions.None? {
      return Err(NoNormals), groups;
    }
    var parts := SplitParts(found, At(positions), directions.value);
    if parts.Err? {
      return Err(VertexLimit), groups;
    }
    return Ok(Geometry(parts.value, t, positions, indices, excluded)), groups;
  }

  // ---------------------------------------------------------------- the surface is preserved

  /** The part's corners as source vertices. */
  function Lifted(part: Part): (r: seq<nat>)
    requires forall j | 0 <= j < |part.indices| :: part.indices[j] < |part.original|
    ensures |r| == |part.indices| && forall j | 0 <= j < |r| :: r[j] == part.original[part.indices[j]]
  {
    seq(|part.indices|, j requires 0 <= j < |part.indices| => part.original[part.indices[j]])
  }

  ghost predicate InRange(parts: seq<Part>) {
    forall i | 0 <= i < |parts| :: forall j | 0 <= j < |parts[i].indices| :: parts[i].indices[j] < |parts[i].original|
  }

  function PartCopies(parts: seq<Part>, triangle: (nat, nat, nat), m: nat): nat
    requires m <= |parts| && InRange(parts)
  {
    if m == 0 then 0 else PartCopies(parts, triangle, m - 1) + AllCopies(Lifted(parts[m - 1]), triangle)
  }

  ghost predicate PartsOf(parts: seq<Part>, groups: seq<Group>, positions: nat -> Vec, normals: nat -> Vec) {
    |parts| == |groups| && forall i | 0 <= i < |groups| :: PartOf(parts[i], groups[i], positions, normals)
  }

  ghost predicate AllLifted(parts: seq<Part>, groups: seq<Group>)
    requires InRange(parts)
  {
    |parts| == |groups| && forall i | 0 <= i < |parts| :: Lifted(parts[i]) == groups[i].indices
  }

  lemma {:induction false} PartsLift(parts: seq<Part>, groups: seq<Group>, triangle: (nat, nat, nat), m: nat)
    requires m <= |parts| && InRange(parts) && AllLifted(parts, groups)
    ensures PartCopies(parts, triangle, m) == GroupCopies(groups, triangle, m)
  {
    if m > 0 {
      PartsLift(parts, groups, triangle, m - 1);
    }
  }

  lemma PartLifts(part: Part, group: Group, positions: nat -> Vec, normals: nat -> Vec)
    requires PartOf(part, group, positions, normals)
    ensures (forall j | 0 <= j < |part.indices| :: part.indices[j] < |part.original|) && Lifted(part) == group.indices
  {
  }

  /** Read through their vertex lists, the parts hold every retained source triangle exactly as often as the source,
      and nothing else; and each corner sits at the moved place of its source vertex. */
  lemma SurfaceIsPreserved(g: Geometry, groups: seq<Group>, config: Config, faces: seq<Face>, neutral: seq<Vec>,
                           split: SplitBy,
                           excludes: set<Name>, normals: NormalRule, triangle: (nat, nat, nat))
    requires Parsed(faces, |neutral|) && GeometryOf(g, groups, config, faces, neutral, split, excludes, normals)
    ensures InRange(g.parts)
    ensures PartCopies(g.parts, triangle, |g.parts|) == AllCopies(Kept(faces, split, excludes, None, |faces|), triangle)
    ensures forall i | 0 <= i < |g.parts| :: Sits(g.parts[i], g.transform, neutral)
  {
    var positions, directions := At(g.positions), normals(g.positions, g.indices).value;
    forall i | 0 <= i < |g.parts|
      ensures Sits(g.parts[i], g.transform, neutral)
      ensures forall j | 0 <= j < |g.parts[i].indices| :: g.parts[i].indices[j] < |g.parts[i].original|
      ensures Lifted(g.parts[i]) == groups[i].indices
    {
      assert PartOf(g.parts[i], groups[i], positions, directions);
      assert Filled(groups[i], faces, split, excludes, |faces|);
      KeptInside(faces, |neutral|, split, excludes, Some(groups[i].key), |faces|);
      PartSits(g.parts[i], groups[i], g.transform, neutral, directions);
      PartLifts(g.parts[i], groups[i], positions, directions);
    }
    PartsLift(g.parts, groups, triangle, |g.parts|);
    SplitConserves(groups, faces, split, excludes, triangle);
  }

  /** Each corner of the part lies where the similarity sends its source vertex. */
  predicate Sits(part: Part, t: Transform, neutral: seq<Vec>) {
    && |part.positions| == |part.original|
    && (forall j | 0 <= j < |part.indices| :: part.indices[j] < |part.original|)
    && (forall k | 0 <= k < |part.original| :: part.original[k] < |neutral|)
    && (forall k | 0 <= k < |part.original| :: part.positions[k] == t.Position(neutral[part.original[k]]))
  }

  lemma PartSits(part: Part, group: Group, t: Transform, neutral: seq<Vec>, normals: nat -> Vec)
    requires PartOf(part, group, At(MovedAll(t, neutral)), normals)
    requires forall i | 0 <= i < |group.indices| :: group.indices[i] < |neutral|
    ensures Sits(part, t, neutral)
  {
    forall k | 0 <= k < |part.original|
      ensures part.original[k] < |neutral| && part.positions[k] == t.Position(neutral[part.original[k]])
    {
      assert part.original[k] in group.indices;
    }
  }
}
