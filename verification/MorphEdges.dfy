/** What triangulating and splitting keep of the source faces
    (crates/audio2face3d-gui/src/obj2morph/topology.rs, convert.rs): their edges, their orientation, their area. */
module Edges {
  import opened Common
  import opened Transforms
  import opened Splits
  import opened Channels
  import opened Conversions

  // ---------------------------------------------------------------- directed edges

  function Side(x: nat, y: nat, a: nat, b: nat): nat { if x == a && y == b then 1 else 0 }

  /** How often the triangle x, y, z runs from a to b. */
  function Sides(x: nat, y: nat, z: nat, a: nat, b: nat): nat { Side(x, y, a, b) + Side(y, z, a, b) + Side(z, x, a, b) }

  /** The same for the first n triangles of a corner list. */
  function EdgeCount(s: seq<nat>, a: nat, b: nat, n: nat): nat
    requires 3 * n <= |s|
  {
    if n == 0 then 0 else EdgeCount(s, a, b, n - 1) + Sides(s[3 * n - 3], s[3 * n - 2], s[3 * n - 1], a, b)
  }

  function AllEdges(s: seq<nat>, a: nat, b: nat): nat { EdgeCount(s, a, b, |s| / 3) }

  /** How often the boundary of the face, corner by corner, runs from a to b. */
  function Around(face: Face, a: nat, b: nat): nat
    requires 3 <= |face.corners| <= 4
  {
    var v := face.corners;
    if |v| == 3 then Side(v[0], v[1], a, b) + Side(v[1], v[2], a, b) + Side(v[2], v[0], a, b)
    else Side(v[0], v[1], a, b) + Side(v[1], v[2], a, b) + Side(v[2], v[3], a, b) + Side(v[3], v[0], a, b)
  }

  /** A quad's diagonal in both directions. */
  function Across(face: Face, a: nat, b: nat): nat
    requires 3 <= |face.corners| <= 4
  {
    var v := face.corners;
    if |v| == 3 then 0
    else if face.diagonal then Side(v[0], v[2], a, b) + Side(v[2], v[0], a, b)
    else Side(v[1], v[3], a, b) + Side(v[3], v[1], a, b)
  }

  /** The triangles of a face have the edges of its boundary in its own direction, and those of the diagonal once each
      way: they cover the face, turn as it does and overlap nowhere. */
  lemma TriangulationCovers(face: Face, a: nat, b: nat)
    requires 3 <= |face.corners| <= 4
    ensures AllEdges(Triangulated(face), a, b) == Around(face, a, b) + Across(face, a, b)
  {
    var s := Triangulated(face);
    assert EdgeCount(s, a, b, 0) == 0;
    assert EdgeCount(s, a, b, 1) == Sides(s[0], s[1], s[2], a, b);
    if |s| == 6 {
      assert EdgeCount(s, a, b, 2) == EdgeCount(s, a, b, 1) + Sides(s[3], s[4], s[5], a, b);
    }
  }

  predicate AllDiffer(v: seq<nat>) { forall i, j | 0 <= i < j < |v| :: v[i] != v[j] }

  /** The corner after corner i. */
  function After(face: Face, i: nat): nat
    requires i < |face.corners|
  {
    if i + 1 == |face.corners| then face.corners[0] else face.corners[i + 1]
  }

  /** With distinct corners each boundary edge belongs to exactly one triangle, and none runs the other way. */
  lemma BoundaryOnce(face: Face, i: nat)
    requires 3 <= |face.corners| <= 4 && AllDiffer(face.corners) && i < |face.corners|
    ensures AllEdges(Triangulated(face), face.corners[i], After(face, i)) == 1
    ensures AllEdges(Triangulated(face), After(face, i), face.corners[i]) == 0
  {
    TriangulationCovers(face, face.corners[i], After(face, i));
    TriangulationCovers(face, After(face, i), face.corners[i]);
  }

  /** The only other edges are those of one diagonal, once each way: between the corners 0 and 2 exactly when the face
      says so, and otherwise between 1 and 3. */
  lemma DiagonalOnce(face: Face, a: nat, b: nat)
    requires 3 <= |face.corners| <= 4 && AllDiffer(face.corners)
    ensures var v := face.corners;
            var boundary := exists i: nat :: i < |v| && v[i] == a && After(face, i) == b;
            var (p, q) := if face.diagonal then (0, 2) else (1, 3);
            var across := |v| == 4 && ((a == v[p] && b == v[q]) || (a == v[q] && b == v[p]));
            AllEdges(Triangulated(face), a, b) == if boundary || across then 1 else 0
  {
    var v := face.corners;
    TriangulationCovers(face, a, b);
    assert After(face, 0) == v[1] && After(face, 1) == v[2] && After(face, |v| - 1) == v[0];
    assert |v| == 4 ==> After(face, 2) == v[3];
  }

  // ---------------------------------------------------------------- the edges of parts

  lemma {:induction false} EdgesOfPrefix(s: seq<nat>, t: seq<nat>, a: nat, b: nat, n: nat)
    requires 3 * n <= |s|
    ensures EdgeCount(s + t, a, b, n) == EdgeCount(s, a, b, n)
  {
    if n > 0 {
      EdgesOfPrefix(s, t, a, b, n - 1);
    }
  }

  lemma {:induction false} EdgesJoin(s: seq<nat>, t: seq<nat>, a: nat, b: nat, m: nat, n: nat)
    requires |s| == 3 * m && 3 * n <= |t|
    ensures EdgeCount(s + t, a, b, m + n) == EdgeCount(s, a, b, m) + EdgeCount(t, a, b, n)
  {
    if n == 0 {
      EdgesOfPrefix(s, t, a, b, m);
    } else {
      EdgesJoin(s, t, a, b, m, n - 1);
      var last := 3 * (m + n);
      assert (s + t)[last - 3] == t[3 * n - 3] && (s + t)[last - 2] == t[3 * n - 2]
          && (s + t)[last - 1] == t[3 * n - 1];
    }
  }

  lemma AllEdgesJoin(s: seq<nat>, t: seq<nat>, a: nat, b: nat, m: nat, n: nat)
    requires |s| == 3 * m && |t| == 3 * n
    ensures AllEdges(s + t, a, b) == AllEdges(s, a, b) + AllEdges(t, a, b)
  {
    EdgesJoin(s, t, a, b, m, n);
    assert |s| / 3 == m && |t| / 3 == n && |s + t| / 3 == m + n;
  }

  /** How often the retained faces with the key, among the first n, run from a to b. */
  function SurfaceEdges(faces: seq<Face>, split: SplitBy, excluded: set<Name>, key: Key, a: nat, b: nat, n: nat): nat
    requires n <= |faces| && Shaped(faces)
  {
    if n == 0 then 0
    else
      SurfaceEdges(faces, split, excluded, key, a, b, n - 1)
      + (if faces[n - 1].material !in excluded && KeyOf(faces[n - 1], split) == key
         then Around(faces[n - 1], a, b) + Across(faces[n - 1], a, b) else 0)
  }

  lemma {:induction false} KeptEdges(faces: seq<Face>, split: SplitBy, excluded: set<Name>, key: Key, a: nat, b: nat,
                                     n: nat)
    requires n <= |faces| && Shaped(faces)
    ensures AllEdges(Kept(faces, split, excluded, Some(key), n), a, b)
              == SurfaceEdges(faces, split, excluded, key, a, b, n)
  {
    if n > 0 {
      KeptEdges(faces, split, excluded, key, a, b, n - 1);
      var before, face := Kept(faces, split, excluded, Some(key), n - 1), faces[n - 1];
      if Selects(face, split, excluded, Some(key)) {
        KeptIsTriangles(faces, split, excluded, Some(key), n - 1);
        AllEdgesJoin(before, Triangulated(face), a, b, KeptCount(faces, split, excluded, Some(key), n - 1),
                     TriangleCount(face));
        TriangulationCovers(face, a, b);
      } else {
        assert Kept(faces, split, excluded, Some(key), n) == before;
      }
    }
  }

  /** The part of a retained face has each of its boundary edges. */
  lemma {:induction false} FaceEdgesCount(faces: seq<Face>, split: SplitBy, excluded: set<Name>, f: nat, i: nat, n: nat)
    requires f < n <= |faces| && Shaped(faces) && faces[f].material !in excluded && i < |faces[f].corners|
    ensures SurfaceEdges(faces, split, excluded, KeyOf(faces[f], split), faces[f].corners[i], After(faces[f], i), n) > 0
  {
    if f < n - 1 {
      FaceEdgesCount(faces, split, excluded, f, i, n - 1);
    }
  }

  /** Read through its vertex list, a part has exactly the edges of its retained faces and of their diagonals, in their
      direction and as often. */
  lemma PartEdges(g: Geometry, groups: seq<Group>, config: Config, faces: seq<Face>, neutral: seq<Vec>, split: SplitBy,
                  excludes: set<Name>, normals: NormalRule, p: nat, a: nat, b: nat)
    requires Parsed(faces, |neutral|) && GeometryOf(g, groups, config, faces, neutral, split, excludes, normals)
    requires p < |g.parts|
    ensures InRange(g.parts)
    ensures AllEdges(Lifted(g.parts[p]), a, b)
              == SurfaceEdges(faces, split, excludes, g.parts[p].key, a, b, |faces|)
  {
    SurfaceIsPreserved(g, groups, config, faces, neutral, split, excludes, normals, (0, 0, 0));
    assert PartOf(g.parts[p], groups[p], At(g.positions), normals(g.positions, g.indices).value);
    assert Filled(groups[p], faces, split, excludes, |faces|);
    PartLifts(g.parts[p], groups[p], At(g.positions), normals(g.positions, g.indices).value);
    KeptEdges(faces, split, excludes, groups[p].key, a, b, |faces|);
  }

  lemma OneGroupPerKey(groups: seq<Group>, p: nat, q: nat)
    requires Ascending(groups) && p < |groups| && q < |groups| && groups[p].key == groups[q].key
    ensures p == q
  {
  }

  /** No retained face has a hole: exactly one part has its key, and there each of its boundary edges is found. */
  lemma FaceInOnePart(g: Geometry, groups: seq<Group>, config: Config, faces: seq<Face>, neutral: seq<Vec>,
                      split: SplitBy, excludes: set<Name>, normals: NormalRule, f: nat) returns (p: nat)
    requires Parsed(faces, |neutral|) && GeometryOf(g, groups, config, faces, neutral, split, excludes, normals)
    requires f < |faces| && faces[f].material !in excludes
    ensures InRange(g.parts)
    ensures p < |g.parts| && g.parts[p].key == KeyOf(faces[f], split)
    ensures forall q: nat | q < |g.parts| && g.parts[q].key == KeyOf(faces[f], split) :: q == p
    ensures forall i: nat | i < |faces[f].corners| ::
              AllEdges(Lifted(g.parts[p]), faces[f].corners[i], After(faces[f], i)) > 0
  {
    var key := KeyOf(faces[f], split);
    assert key in KeysOf(faces, split, excludes, |faces|) && HasGroup(groups, key);
    p :| 0 <= p < |groups| && groups[p].key == key;
    forall q: nat | q < |g.parts|
      ensures g.parts[q].key == groups[q].key
    {
      assert PartOf(g.parts[q], groups[q], At(g.positions), normals(g.positions, g.indices).value);
    }
    forall q: nat | q < |g.parts| && g.parts[q].key == key
      ensures q == p
    {
      OneGroupPerKey(groups, p, q);
    }
    PartEdges(g, groups, config, faces, neutral, split, excludes, normals, p, 0, 0);
    forall i: nat | i < |faces[f].corners|
      ensures AllEdges(Lifted(g.parts[p]), faces[f].corners[i], After(faces[f], i)) > 0
    {
      PartEdges(g, groups, config, faces, neutral, split, excludes, normals, p, faces[f].corners[i],
                After(faces[f], i));
      FaceEdgesCount(faces, split, excludes, f, i, |faces|);
    }
  }

  /** Adding morph targets changes no edge. */
  lemma ConversionKeepsEdges(parts: seq<Part>, g: Geometry, groups: seq<Group>, config: Config, neutral: Obj,
                             split: SplitBy, excludes: set<Name>, channels: seq<Channel>, normals: NormalRule,
                             posed: NormalRule, p: nat, a: nat, b: nat)
    requires Parsed(neutral.faces, |neutral.positions|) && SameLengths(neutral, channels)
    requires GeometryOf(g, groups, config, neutral.faces, neutral.positions, split, excludes, normals)
    requires PartsMorph(parts, g, neutral, channels, normals, posed, |channels|) && p < |parts|
    ensures forall j | 0 <= j < |parts[p].indices| :: parts[p].indices[j] < |parts[p].original|
    ensures AllEdges(Lifted(parts[p]), a, b)
              == SurfaceEdges(neutral.faces, split, excludes, parts[p].key, a, b, |neutral.faces|)
  {
    PartEdges(g, groups, config, neutral.faces, neutral.positions, split, excludes, normals, p, a, b);
    assert parts[p].(targets := []) == g.parts[p];
    assert Lifted(parts[p]) == Lifted(g.parts[p]);
  }

  // ---------------------------------------------------------------- keys

  /** Which faces go together: those of one material, or those of one object, group and material. */
  lemma SameKeyIff(f: Face, h: Face, split: SplitBy)
    ensures KeyOf(f, split) == KeyOf(h, split) <==>
              f.material == h.material
              && (split.ByObjectGroupMaterial? ==> f.owner == h.owner && f.group == h.group)
    ensures KeyOf(f, split).material == f.material
    ensures split.ByObjectGroupMaterial? ==> KeyOf(f, split) == Key(f.owner, f.group, f.material)
  {
  }

  /** Keys are ordered by object, then group, then material. */
  lemma LessOrders(a: Key, b: Key, c: Key)
    ensures !Less(a, a) && (a != b ==> (Less(a, b) <==> !Less(b, a))) && (Less(a, b) && Less(b, c) ==> Less(a, c))
    ensures a.owner < b.owner ==> Less(a, b)
    ensures a.owner == b.owner && a.group < b.group ==> Less(a, b)
    ensures a.owner == b.owner && a.group == b.group && a.material < b.material ==> Less(a, b)
  {
  }

  // ---------------------------------------------------------------- area

  /** Twice the area of a triangle, along its normal. */
  function Area(x: Vec, y: Vec, z: Vec): Vec { Cross(Sub(y, x), Sub(z, x)) }

  function AreaSum(s: seq<nat>, at: nat -> Vec, n: nat): Vec
    requires 3 * n <= |s|
  {
    if n == 0 then ORIGIN else Add(AreaSum(s, at, n - 1), Area(at(s[3 * n - 3]), at(s[3 * n - 2]), at(s[3 * n - 1])))
  }

  lemma Spread(a: real, b: real, c: real)
    ensures a * (b - c) == a * b - a * c
  {
  }

  lemma CrossSub(a: Vec, b: Vec, c: Vec)
    ensures Cross(a, Sub(b, c)) == Sub(Cross(a, b), Cross(a, c))
  {
    Spread(a.y, b.z, c.z);
    Spread(a.z, b.y, c.y);
    Spread(a.z, b.x, c.x);
    Spread(a.x, b.z, c.z);
    Spread(a.x, b.y, c.y);
    Spread(a.y, b.x, c.x);
  }

  lemma CrossFlips(a: Vec, b: Vec)
    ensures Cross(b, a) == Sub(ORIGIN, Cross(a, b)) && Cross(a, a) == ORIGIN
  {
  }

  lemma FanArea(u: Vec, v: Vec, w: Vec)
    ensures Add(Cross(u, v), Cross(v, w)) == Cross(v, Sub(w, u))
  {
    CrossSub(v, w, u);
    CrossFlips(v, u);
  }

  lemma EarArea(u: Vec, v: Vec, w: Vec)
    ensures Add(Cross(u, w), Cross(Sub(v, u), Sub(w, u))) == Cross(v, Sub(w, u))
  {
    var d := Sub(w, u);
    CrossFlips(Sub(v, u), d);
    CrossSub(d, v, u);
    CrossFlips(d, v);
    CrossFlips(d, u);
    CrossSub(u, w, u);
    CrossFlips(u, u);
  }

  /** From one corner, `u`, `v` and `w` lead to the others. */
  lemma CornerArea(u: Vec, v: Vec, w: Vec)
    ensures Add(Cross(u, v), Cross(v, w)) == Cross(v, Sub(w, u))
    ensures Add(Cross(u, w), Cross(Sub(v, u), Sub(w, u))) == Cross(v, Sub(w, u))
  {
    FanArea(u, v, w);
    EarArea(u, v, w);
  }

  lemma SubSub(a: Vec, b: Vec, c: Vec)
    ensures Sub(Sub(c, a), Sub(b, a)) == Sub(c, b)
  {
  }

  lemma QuadArea(a: Vec, b: Vec, c: Vec, d: Vec)
    ensures Add(Area(a, b, c), Area(a, c, d)) == Cross(Sub(c, a), Sub(d, b))
    ensures Add(Area(a, b, d), Area(b, c, d)) == Cross(Sub(c, a), Sub(d, b))
  {
    CornerArea(Sub(b, a), Sub(c, a), Sub(d, a));
    SubSub(a, b, c);
    SubSub(a, b, d);
  }

  /** Whichever way a quad is cut, and even if it is not flat, its triangles together have the quad's own area vector:
      the cross product of its diagonals. */
  lemma TriangulationKeepsArea(face: Face, at: nat -> Vec)
    requires 3 <= |face.corners| <= 4
    ensures var v := face.corners;
            AreaSum(Triangulated(face), at, TriangleCount(face))
              == if |v| == 3 then Area(at(v[0]), at(v[1]), at(v[2]))
                 else Cross(Sub(at(v[2]), at(v[0])), Sub(at(v[3]), at(v[1])))
  {
    var v, s := face.corners, Triangulated(face);
    assert AreaSum(s, at, 0) == ORIGIN;
    assert AreaSum(s, at, 1) == Add(ORIGIN, Area(at(s[0]), at(s[1]), at(s[2])));
    if |v| == 4 {
      assert AreaSum(s, at, 2) == Add(AreaSum(s, at, 1), Area(at(s[3]), at(s[4]), at(s[5])));
      QuadArea(at(v[0]), at(v[1]), at(v[2]), at(v[3]));
    }
  }
}
