/** The similarity that moves source space into model space
    (crates/audio2face3d-gui/src/obj2morph/transform.rs), over `real`. */
module Transforms {
  import opened Common

  datatype Vec = Vec(x: real, y: real, z: real)

  const ORIGIN: Vec := Vec(0.0, 0.0, 0.0)

  function Add(a: Vec, b: Vec): Vec { Vec(a.x + b.x, a.y + b.y, a.z + b.z) }

  function Sub(a: Vec, b: Vec): Vec { Vec(a.x - b.x, a.y - b.y, a.z - b.z) }

  function Times(w: real, a: Vec): Vec { Vec(w * a.x, w * a.y, w * a.z) }

  function Dot(a: Vec, b: Vec): real { a.x * b.x + a.y * b.y + a.z * b.z }

  function Cross(a: Vec, b: Vec): Vec {
    Vec(a.y * b.z - a.z * b.y, a.z * b.x - a.x * b.z, a.x * b.y - a.y * b.x)
  }

  datatype Axis = X | NegX | Y | NegY | Z | NegZ

  function Vector(axis: Axis): Vec {
    match axis
    case X => Vec(1.0, 0.0, 0.0)
    case NegX => Vec(-1.0, 0.0, 0.0)
    case Y => Vec(0.0, 1.0, 0.0)
    case NegY => Vec(0.0, -1.0, 0.0)
    case Z => Vec(0.0, 0.0, 1.0)
    case NegZ => Vec(0.0, 0.0, -1.0)
  }

  predicate Apart(a: Vec, b: Vec) { a.x * b.x == 0.0 && a.y * b.y == 0.0 && a.z * b.z == 0.0 }

  datatype Config = Config(up: Axis, forward: Axis, fitHeight: real, center: Vec) {
    /** What the configuration check has established. */
    predicate Valid() { Apart(Vector(up), Vector(forward)) && fitHeight > 0.0 }
  }

  /** Where a height along one axis lands. */
  function Place(height: real, from: real, scale: real, to: real): real { (height - from) * scale + to }

  function Stretch(height: real, scale: real): real { height * scale }

  datatype Transform = Transform(right: Vec, up: Vec, forward: Vec, scale: real, sourceCenter: Vec, center: Vec) {
    function Along(p: Vec): Vec { Vec(Dot(right, p), Dot(up, p), Dot(forward, p)) }

    function Position(p: Vec): Vec {
      var a := Along(p);
      Vec(Place(a.x, sourceCenter.x, scale, center.x), Place(a.y, sourceCenter.y, scale, center.y),
          Place(a.z, sourceCenter.z, scale, center.z))
    }

    function Delta(d: Vec): Vec {
      var a := Along(d);
      Vec(Stretch(a.x, scale), Stretch(a.y, scale), Stretch(a.z, scale))
    }
  }

  // ---------------------------------------------------------------- linearity

  lemma Distribute(a: real, b: real, c: real)
    ensures a * (b + c) == a * b + a * c && (b + c) * a == b * a + c * a
  {
  }

  lemma DotAdd(a: Vec, p: Vec, q: Vec)
    ensures Dot(a, Add(p, q)) == Dot(a, p) + Dot(a, q)
  {
    Distribute(a.x, p.x, q.x);
    Distribute(a.y, p.y, q.y);
    Distribute(a.z, p.z, q.z);
  }

  lemma Associate(a: real, b: real, c: real)
    ensures a * (b * c) == b * (a * c) && (b * c) * a == b * (c * a)
  {
  }

  lemma DotTimes(a: Vec, w: real, p: Vec)
    ensures Dot(a, Times(w, p)) == w * Dot(a, p)
  {
    Associate(a.x, w, p.x);
    Associate(a.y, w, p.y);
    Associate(a.z, w, p.z);
    Distribute(w, a.x * p.x, a.y * p.y);
    Distribute(w, a.x * p.x + a.y * p.y, a.z * p.z);
  }

  lemma AlongAdd(t: Transform, p: Vec, q: Vec)
    ensures t.Along(Add(p, q)) == Add(t.Along(p), t.Along(q))
  {
    DotAdd(t.right, p, q);
    DotAdd(t.up, p, q);
    DotAdd(t.forward, p, q);
  }

  lemma PlaceMoves(a: real, b: real, from: real, scale: real, to: real)
    ensures Place(a + b, from, scale, to) == Place(a, from, scale, to) + Stretch(b, scale)
  {
    Distribute(scale, a - from, b);
  }

  /** Moving a point by a source displacement moves its image by the displacement's image. */
  lemma PositionMoves(t: Transform, p: Vec, d: Vec)
    ensures t.Position(Add(p, d)) == Add(t.Position(p), t.Delta(d))
  {
    AlongAdd(t, p, d);
    var a, b := t.Along(p), t.Along(d);
    PlaceMoves(a.x, b.x, t.sourceCenter.x, t.scale, t.center.x);
    PlaceMoves(a.y, b.y, t.sourceCenter.y, t.scale, t.center.y);
    PlaceMoves(a.z, b.z, t.sourceCenter.z, t.scale, t.center.z);
  }

  lemma DeltaAdds(t: Transform, d: Vec, e: Vec)
    ensures t.Delta(Add(d, e)) == Add(t.Delta(d), t.Delta(e))
  {
    AlongAdd(t, d, e);
    var a, b := t.Along(d), t.Along(e);
    StretchAdds(a.x, b.x, t.scale);
    StretchAdds(a.y, b.y, t.scale);
    StretchAdds(a.z, b.z, t.scale);
  }

  lemma StretchAdds(a: real, b: real, scale: real)
    ensures Stretch(a + b, scale) == Stretch(a, scale) + Stretch(b, scale)
  {
    Distribute(scale, a, b);
  }

  lemma DeltaScales(t: Transform, w: real, d: Vec)
    ensures t.Delta(Times(w, d)) == Times(w, t.Delta(d))
  {
    DotTimes(t.right, w, d);
    DotTimes(t.up, w, d);
    DotTimes(t.forward, w, d);
    var a := t.Along(d);
    Associate(t.scale, w, a.x);
    Associate(t.scale, w, a.y);
    Associate(t.scale, w, a.z);
  }

  lemma DeltaOfNothing(t: Transform)
    ensures t.Delta(ORIGIN) == ORIGIN
  {
  }

  // ---------------------------------------------------------------- a proper similarity

  function Dim(a: Axis): int {
    match a case X => 0 case NegX => 0 case Y => 1 case NegY => 1 case Z => 2 case NegZ => 2
  }

  function Component(a: Axis, v: Vec): real {
    match a case X => v.x case NegX => -v.x case Y => v.y case NegY => -v.y case Z => v.z case NegZ => -v.z
  }

  /** The cross product with an axis, as a quarter turn. */
  function Turned(a: Axis, v: Vec): Vec {
    match a
    case X => Vec(0.0, -v.z, v.y)
    case NegX => Vec(0.0, v.z, -v.y)
    case Y => Vec(v.z, 0.0, -v.x)
    case NegY => Vec(-v.z, 0.0, v.x)
    case Z => Vec(-v.y, v.x, 0.0)
    case NegZ => Vec(v.y, -v.x, 0.0)
  }

  lemma DotAxis(a: Axis, v: Vec)
    ensures Dot(Vector(a), v) == Component(a, v)
  {
    match a
    case X =>
    case NegX =>
    case Y =>
    case NegY =>
    case Z =>
    case NegZ =>
  }

  lemma CrossAxis(a: Axis, v: Vec)
    ensures Cross(Vector(a), v) == Turned(a, v)
  {
    match a
    case X =>
    case NegX =>
    case Y =>
    case NegY =>
    case Z =>
    case NegZ =>
  }

  /** The axis that completes two perpendicular ones to a right-handed triple. */
  function Third(a: Axis, b: Axis): Axis {
    match a
    case X => (match b case Y => Z case NegY => NegZ case Z => NegY case NegZ => Y case _ => a)
    case NegX => (match b case Y => NegZ case NegY => Z case Z => Y case NegZ => NegY case _ => a)
    case Y => (match b case X => NegZ case NegX => Z case Z => X case NegZ => NegX case _ => a)
    case NegY => (match b case X => Z case NegX => NegZ case Z => NegX case NegZ => X case _ => a)
    case Z => (match b case X => Y case NegX => NegY case Y => NegX case NegY => X case _ => a)
    case NegZ => (match b case X => NegY case NegX => Y case Y => X case NegY => NegX case _ => a)
  }

  lemma ThirdCompletes(a: Axis, b: Axis)
    requires Dim(a) != Dim(b)
    ensures var c := Third(a, b); Dim(c) != Dim(a) && Dim(c) != Dim(b) && Third(b, c) == a && Third(c, a) == b
  {
  }

  lemma TurnedIsThird(a: Axis, b: Axis)
    requires Dim(a) != Dim(b)
    ensures Turned(a, Vector(b)) == Vector(Third(a, b))
  {
  }

  lemma ApartAxes(a: Axis, b: Axis)
    ensures Apart(Vector(a), Vector(b)) <==> Dim(a) != Dim(b)
  {
  }

  function Coordinate(dim: int, v: Vec): real { if dim == 0 then v.x else if dim == 1 then v.y else v.z }

  lemma ComponentSquared(a: Axis, v: Vec)
    ensures Component(a, v) * Component(a, v) == Coordinate(Dim(a), v) * Coordinate(Dim(a), v)
  {
  }

  /** The basis that a configuration selects. */
  function Basis(config: Config): (Vec, Vec, Vec) {
    (Cross(Vector(config.up), Vector(config.forward)), Vector(config.up), Vector(config.forward))
  }

  predicate UsesBasis(t: Transform, config: Config) { (t.right, t.up, t.forward) == Basis(config) }

  /** The basis is a right-handed triple of source axes, so no configuration mirrors the face. */
  lemma BasisIsRightHanded(config: Config)
    requires config.Valid()
    ensures var (r, u, f) := Basis(config); Cross(u, f) == r && Cross(f, r) == u && Cross(r, u) == f
    ensures Basis(config).0 == Vector(Third(config.up, config.forward))
  {
    var up, forward := config.up, config.forward;
    var right := Third(up, forward);
    ApartAxes(up, forward);
    ThirdCompletes(up, forward);
    CrossIsThird(up, forward);
    CrossIsThird(forward, right);
    CrossIsThird(right, up);
  }

  lemma CrossIsThird(a: Axis, b: Axis)
    requires Dim(a) != Dim(b)
    ensures Cross(Vector(a), Vector(b)) == Vector(Third(a, b))
  {
    CrossAxis(a, Vector(b));
    TurnedIsThird(a, b);
  }

  function Components(right: Axis, up: Axis, forward: Axis, d: Vec): Vec {
    Vec(Component(right, d), Component(up, d), Component(forward, d))
  }

  lemma ComponentsKeepLength(right: Axis, up: Axis, forward: Axis, d: Vec)
    requires Dim(right) != Dim(up) && Dim(up) != Dim(forward) && Dim(right) != Dim(forward)
    ensures var v := Components(right, up, forward, d); Dot(v, v) == Dot(d, d)
  {
    ComponentSquared(right, d);
    ComponentSquared(up, d);
    ComponentSquared(forward, d);
  }

  lemma AlongIsComponents(t: Transform, config: Config, d: Vec)
    requires config.Valid() && UsesBasis(t, config)
    ensures t.Along(d) == Components(Third(config.up, config.forward), config.up, config.forward, d)
  {
    BasisIsRightHanded(config);
    DotAxis(Third(config.up, config.forward), d);
    DotAxis(config.up, d);
    DotAxis(config.forward, d);
  }

  lemma AxesDiffer(config: Config)
    requires config.Valid()
    ensures var right := Third(config.up, config.forward);
            Dim(config.up) != Dim(config.forward) && Dim(right) != Dim(config.up) && Dim(right) != Dim(config.forward)
  {
    ApartAxes(config.up, config.forward);
    ThirdCompletes(config.up, config.forward);
  }

  lemma AlongKeepsLength(t: Transform, config: Config, d: Vec)
    requires config.Valid() && UsesBasis(t, config)
    ensures var a := t.Along(d); Dot(a, a) == Dot(d, d)
  {
    AxesDiffer(config);
    ComponentsKeepLength(Third(config.up, config.forward), config.up, config.forward, d);
    AlongIsComponents(t, config, d);
  }

  /** Every displacement is stretched by the same factor. */
  lemma DeltaIsSimilar(t: Transform, config: Config, d: Vec)
    requires config.Valid() && UsesBasis(t, config)
    ensures Dot(t.Delta(d), t.Delta(d)) == Stretch(Dot(d, d), t.scale * t.scale)
  {
    AlongKeepsLength(t, config, d);
    DeltaSquared(t, d, Dot(d, d));
  }

  lemma DeltaSquared(t: Transform, d: Vec, square: real)
    requires Dot(t.Along(d), t.Along(d)) == square
    ensures Dot(t.Delta(d), t.Delta(d)) == Stretch(square, t.scale * t.scale)
  {
    StretchedSquare(t.Along(d), t.scale, square);
  }

  lemma StretchedSquare(a: Vec, s: real, square: real)
    requires Dot(a, a) == square
    ensures var b := Vec(Stretch(a.x, s), Stretch(a.y, s), Stretch(a.z, s)); Dot(b, b) == Stretch(square, s * s)
  {
    Square(a.x, s);
    Square(a.y, s);
    Square(a.z, s);
    Distribute(s * s, a.x * a.x, a.y * a.y);
    Distribute(s * s, a.x * a.x + a.y * a.y, a.z * a.z);
  }

  lemma Square(a: real, s: real)
    ensures (a * s) * (a * s) == (s * s) * (a * a)
  {
  }

  /** What the configuration calls up points along the model's y axis, and what it calls forward along z: of two points
      the one further up, or further forward, in the source is so in the model. */
  lemma AxesLand(t: Transform, config: Config, p: Vec, q: Vec)
    requires config.Valid() && UsesBasis(t, config) && t.scale > 0.0
    ensures t.Position(p).y > t.Position(q).y <==> Component(config.up, p) > Component(config.up, q)
    ensures t.Position(p).z > t.Position(q).z <==> Component(config.forward, p) > Component(config.forward, q)
  {
    AlongIsComponents(t, config, p);
    AlongIsComponents(t, config, q);
    PlaceOrders(t.Along(p).y, t.Along(q).y, t.sourceCenter.y, t.scale, t.center.y);
    PlaceOrders(t.Along(p).z, t.Along(q).z, t.sourceCenter.z, t.scale, t.center.z);
  }

  lemma PlaceOrders(a: real, b: real, from: real, scale: real, to: real)
    requires scale > 0.0
    ensures Place(a, from, scale, to) > Place(b, from, scale, to) <==> a > b
  {
    Distribute(scale, a - from, from - b);
    PositiveProduct(a - b, scale);
  }

  lemma PositiveProduct(a: real, scale: real)
    requires scale > 0.0
    ensures a * scale > 0.0 <==> a > 0.0
  {
  }

  // ---------------------------------------------------------------- fitting the neutral face

  /** `lo` and `hi` are the least and the greatest of the first n values. */
  ghost predicate Spans(lo: real, hi: real, values: nat -> real, n: nat) {
    && (forall k: nat | k < n :: lo <= values(k) <= hi)
    && (exists k: nat :: k < n && values(k) == lo)
    && (exists k: nat :: k < n && values(k) == hi)
  }

  ghost predicate Rises(points: seq<Vec>, up: Vec, height: real) {
    exists i: nat, j: nat :: i < |points| && j < |points| && Dot(up, points[i]) - Dot(up, points[j]) > height
  }

  function Heights(axis: Vec, points: seq<Vec>): nat -> real {
    (k: nat) => if k < |points| then Dot(axis, points[k]) else 0.0
  }

  function Images(axis: Vec, from: real, scale: real, to: real, points: seq<Vec>): nat -> real {
    (k: nat) => if k < |points| then Place(Dot(axis, points[k]), from, scale, to) else 0.0
  }

  ghost predicate Centred(center: real, halfWidth: real, values: nat -> real, n: nat) {
    Spans(center - halfWidth, center + halfWidth, values, n)
  }

  /** One coordinate of the moved points. */
  function Moved(t: Transform, points: seq<Vec>, dim: int): nat -> real {
    (k: nat) => if k < |points| then Coordinate(dim, t.Position(points[k])) else 0.0
  }

  /** The moved points are exactly `height` tall, and centred at `t.center` in every direction. */
  ghost predicate Fitted(t: Transform, height: real, points: seq<Vec>) {
    && t.scale > 0.0
    && (exists w: real :: Centred(t.center.x, w, Moved(t, points, 0), |points|))
    && Centred(t.center.y, height * 0.5, Moved(t, points, 1), |points|)
    && (exists w: real :: Centred(t.center.z, w, Moved(t, points, 2), |points|))
  }

  lemma SpansMore(lo: real, hi: real, next: real, values: nat -> real, n: nat)
    requires (n > 0 ==> Spans(lo, hi, values, n)) && values(n) == next
    ensures n > 0 ==> Spans(MinReal(lo, next), MaxReal(hi, next), values, n + 1)
    ensures n == 0 ==> Spans(next, next, values, 1)
  {
    if n > 0 {
      var a: nat :| a < n && values(a) == lo;
      var b: nat :| b < n && values(b) == hi;
      assert a < n + 1 && values(a) == lo;
      assert b < n + 1 && values(b) == hi;
    }
  }

  /** A positive stretch about the middle carries the span of one sequence to that of the other. */
  lemma SpansMove(lo: real, hi: real, from: real, scale: real, to: real, values: nat -> real, moved: nat -> real,
                  n: nat)
    requires Spans(lo, hi, values, n) && scale > 0.0 && from == lo + (hi - lo) * 0.5
    requires forall k: nat | k < n :: moved(k) == Place(values(k), from, scale, to)
    ensures Centred(to, (hi - lo) * scale * 0.5, moved, n)
  {
    PlaceEnds(lo, hi, scale, to);
    forall k: nat | k < n
      ensures to - (hi - lo) * scale * 0.5 <= moved(k) <= to + (hi - lo) * scale * 0.5
    {
      PlaceGrows(lo, values(k), from, scale, to);
      PlaceGrows(values(k), hi, from, scale, to);
    }
    var a: nat :| a < n && values(a) == lo;
    var b: nat :| b < n && values(b) == hi;
    assert moved(a) == to - (hi - lo) * scale * 0.5;
    assert moved(b) == to + (hi - lo) * scale * 0.5;
  }

  lemma PlaceEnds(lo: real, hi: real, scale: real, to: real)
    ensures Place(lo, lo + (hi - lo) * 0.5, scale, to) == to - (hi - lo) * scale * 0.5
    ensures Place(hi, lo + (hi - lo) * 0.5, scale, to) == to + (hi - lo) * scale * 0.5
  {
  }

  lemma PlaceGrows(a: real, b: real, from: real, scale: real, to: real)
    requires a <= b && scale > 0.0
    ensures Place(a, from, scale, to) <= Place(b, from, scale, to)
  {
    Ordered(a - from, b - from, scale);
  }

  lemma Ordered(a: real, b: real, scale: real)
    requires a <= b && scale > 0.0
    ensures a * scale <= b * scale
  {
  }

  lemma FitAxis(lo: real, hi: real, axis: Vec, scale: real, to: real, points: seq<Vec>)
    requires Spans(lo, hi, Heights(axis, points), |points|) && scale > 0.0
    ensures Centred(to, (hi - lo) * scale * 0.5, Images(axis, lo + (hi - lo) * 0.5, scale, to, points), |points|)
  {
    var from := lo + (hi - lo) * 0.5;
    SpansMove(lo, hi, from, scale, to, Heights(axis, points), Images(axis, from, scale, to, points), |points|);
  }

  function AxisFor(t: Transform, dim: int): Vec { if dim == 0 then t.right else if dim == 1 then t.up else t.forward }

  lemma CoordinateOfPosition(t: Transform, dim: int, p: Vec)
    ensures Coordinate(dim, t.Position(p))
              == Place(Dot(AxisFor(t, dim), p), Coordinate(dim, t.sourceCenter), t.scale, Coordinate(dim, t.center))
  {
  }

  lemma CentredAgree(center: real, halfWidth: real, values: nat -> real, same: nat -> real, n: nat)
    requires Centred(center, halfWidth, values, n) && forall k: nat | k < n :: same(k) == values(k)
    ensures Centred(center, halfWidth, same, n)
  {
    var a: nat :| a < n && values(a) == center - halfWidth;
    var b: nat :| b < n && values(b) == center + halfWidth;
    assert same(a) == values(a) && same(b) == values(b);
  }

  lemma FitMoved(t: Transform, dim: int, lo: real, hi: real, points: seq<Vec>)
    requires Spans(lo, hi, Heights(AxisFor(t, dim), points), |points|)
    requires t.scale > 0.0 && Coordinate(dim, t.sourceCenter) == lo + (hi - lo) * 0.5
    ensures Centred(Coordinate(dim, t.center), (hi - lo) * t.scale * 0.5, Moved(t, points, dim), |points|)
  {
    var axis, from, to := AxisFor(t, dim), Coordinate(dim, t.sourceCenter), Coordinate(dim, t.center);
    var images := Images(axis, from, t.scale, to, points);
    FitAxis(lo, hi, axis, t.scale, to, points);
    forall k: nat | k < |points|
      ensures Moved(t, points, dim)(k) == images(k)
    {
      CoordinateOfPosition(t, dim, points[k]);
    }
    CentredAgree(to, (hi - lo) * t.scale * 0.5, images, Moved(t, points, dim), |points|);
  }

  lemma HalfHeight(fit: real, height: real, scale: real)
    requires fit > 0.0 && height > 0.0 && scale == fit / height
    ensures scale > 0.0 && height * scale * 0.5 == fit * 0.5
  {
  }

  /** The least height of the first n points along an axis. */
  function Lowest(axis: Vec, points: seq<Vec>, n: nat): real
    requires 0 < n <= |points|
  {
    if n == 1 then Dot(axis, points[0]) else MinReal(Lowest(axis, points, n - 1), Dot(axis, points[n - 1]))
  }

  function Highest(axis: Vec, points: seq<Vec>, n: nat): real
    requires 0 < n <= |points|
  {
    if n == 1 then Dot(axis, points[0]) else MaxReal(Highest(axis, points, n - 1), Dot(axis, points[n - 1]))
  }

  function Lows(right: Vec, up: Vec, forward: Vec, points: seq<Vec>, n: nat): Vec
    requires 0 < n <= |points|
  {
    Vec(Lowest(right, points, n), Lowest(up, points, n), Lowest(forward, points, n))
  }

  function Highs(right: Vec, up: Vec, forward: Vec, points: seq<Vec>, n: nat): Vec
    requires 0 < n <= |points|
  {
    Vec(Highest(right, points, n), Highest(up, points, n), Highest(forward, points, n))
  }

  function Halfway(lo: real, hi: real): real { lo + (hi - lo) * 0.5 }

  /** The one transform that the points and the configuration determine; None when they have no height. */
  function FitOf(right: Vec, up: Vec, forward: Vec, fitHeight: real, center: Vec, points: seq<Vec>): Option<Transform> {
    if points == [] then None
    else
      var lo, hi := Lows(right, up, forward, points, |points|), Highs(right, up, forward, points, |points|);
      if hi.y - lo.y <= 0.000000000001 then None
      else Some(Transform(right, up, forward, fitHeight / (hi.y - lo.y),
                          Vec(Halfway(lo.x, hi.x), Halfway(lo.y, hi.y), Halfway(lo.z, hi.z)), center))
  }

  function TransformFor(config: Config, points: seq<Vec>): Option<Transform> {
    var (right, up, forward) := Basis(config);
    FitOf(right, up, forward, config.fitHeight, config.center, points)
  }

  /** The least and the greatest height along each axis; None when there is no point. */
  method Extent(right: Vec, up: Vec, forward: Vec, points: seq<Vec>) returns (r: Option<(Vec, Vec)>)
    ensures r.None? <==> points == []
    ensures r.Some? ==>
              var (lo, hi) := r.value;
              && lo == Lows(right, up, forward, points, |points|) && hi == Highs(right, up, forward, points, |points|)
              && Spans(lo.x, hi.x, Heights(right, points), |points|)
              && Spans(lo.y, hi.y, Heights(up, points), |points|)
              && Spans(lo.z, hi.z, Heights(forward, points), |points|)
  {
    var min: Vec, max: Vec := ORIGIN, ORIGIN;
    for n := 0 to |points|
      invariant n > 0 ==> min == Lows(right, up, forward, points, n) && max == Highs(right, up, forward, points, n)
      invariant n > 0 ==> Spans(min.x, max.x, Heights(right, points), n)
      invariant n > 0 ==> Spans(min.y, max.y, Heights(up, points), n)
      invariant n > 0 ==> Spans(min.z, max.z, Heights(forward, points), n)
    {
      var v := Vec(Dot(right, points[n]), Dot(up, points[n]), Dot(forward, points[n]));
      SpansMore(min.x, max.x, v.x, Heights(right, points), n);
      SpansMore(min.y, max.y, v.y, Heights(up, points), n);
      SpansMore(min.z, max.z, v.z, Heights(forward, points), n);
      min := if n == 0 then v else Vec(MinReal(min.x, v.x), MinReal(min.y, v.y), MinReal(min.z, v.z));
      max := if n == 0 then v else Vec(MaxReal(max.x, v.x), MaxReal(max.y, v.y), MaxReal(max.z, v.z));
    }
    r := if points == [] then None else Some((min, max));
  }

  lemma FitSideways(t: Transform, dim: int, lo: real, hi: real, points: seq<Vec>)
    requires Spans(lo, hi, Heights(AxisFor(t, dim), points), |points|)
    requires t.scale > 0.0 && Coordinate(dim, t.sourceCenter) == lo + (hi - lo) * 0.5
    ensures exists w: real :: Centred(Coordinate(dim, t.center), w, Moved(t, points, dim), |points|)
  {
    FitMoved(t, dim, lo, hi, points);
  }

  lemma FitUpright(t: Transform, lo: real, hi: real, height: real, points: seq<Vec>)
    requires Spans(lo, hi, Heights(t.up, points), |points|)
    requires t.sourceCenter.y == lo + (hi - lo) * 0.5
    requires height > 0.0 && hi - lo > 0.0 && t.scale == height / (hi - lo)
    ensures t.scale > 0.0 && Centred(t.center.y, height * 0.5, Moved(t, points, 1), |points|)
  {
    HalfHeight(height, hi - lo, t.scale);
    FitMoved(t, 1, lo, hi, points);
  }

  /** `Transform::new` over the retained points: fails exactly when they have no height. */
  method NewTransform(config: Config, points: seq<Vec>) returns (r: Option<Transform>)
    requires config.Valid()
    ensures r == TransformFor(config, points)
    ensures r.Some? <==> Rises(points, Vector(config.up), 0.000000000001)
    ensures r.Some? ==>
              UsesBasis(r.value, config) && r.value.center == config.center && Fitted(r.value, config.fitHeight, points)
  {
    var (right, up, forward) := Basis(config);
    r := Fit(right, up, forward, config.fitHeight, config.center, points);
  }

  method Fit(right: Vec, up: Vec, forward: Vec, fitHeight: real, center: Vec, points: seq<Vec>)
      returns (r: Option<Transform>)
    requires fitHeight > 0.0
    ensures r == FitOf(right, up, forward, fitHeight, center, points)
    ensures r.Some? <==> Rises(points, up, 0.000000000001)
    ensures r.Some? ==> (r.value.right, r.value.up, r.value.forward) == (right, up, forward)
    ensures r.Some? ==> r.value.center == center && Fitted(r.value, fitHeight, points)
  {
    var extent := Extent(right, up, forward, points);
    if extent.None? {
      return None;
    }
    var (lo, hi) := extent.value;
    var height := hi.y - lo.y;
    HeightDecides(lo.y, hi.y, up, points);
    if height <= 0.000000000001 {
      return None;
    }
    var scale := fitHeight / height;
    var t := Transform(right, up, forward, scale,
                       Vec(Halfway(lo.x, hi.x), Halfway(lo.y, hi.y), Halfway(lo.z, hi.z)), center);
    FitUpright(t, lo.y, hi.y, fitHeight, points);
    FitSideways(t, 0, lo.x, hi.x, points);
    FitSideways(t, 2, lo.z, hi.z, points);
    return Some(t);
  }

  lemma HeightDecides(lo: real, hi: real, up: Vec, points: seq<Vec>)
    requires Spans(lo, hi, Heights(up, points), |points|)
    ensures Rises(points, up, 0.000000000001) <==> hi - lo > 0.000000000001
  {
    var heights := Heights(up, points);
    if hi - lo > 0.000000000001 {
      var a: nat :| a < |points| && heights(a) == lo;
      var b: nat :| b < |points| && heights(b) == hi;
      assert Dot(up, points[b]) - Dot(up, points[a]) > 0.000000000001;
    }
    if Rises(points, up, 0.000000000001) {
      var i: nat, j: nat :| i < |points| && j < |points| && Dot(up, points[i]) - Dot(up, points[j]) > 0.000000000001;
      assert heights(i) <= hi && lo <= heights(j);
    }
  }
}
