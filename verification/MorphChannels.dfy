/** Morph targets: the delta loop of `convert` (crates/audio2face3d-gui/src/obj2morph/convert.rs) and the CPU
    reference evaluation (crates/audio2face3d-gui/src/model.rs). */
module Channels {
  import opened Common
  import opened Transforms
  import opened Splits

  datatype Obj = Obj(positions: seq<Vec>, faces: seq<Face>)

  datatype Channel = Channel(name: Name, sources: seq<Obj>)

  /** Same counts and the same corners, face by face. */
  ghost predicate SameTopology(neutral: Obj, expression: Obj) {
    && |neutral.positions| == |expression.positions| && |neutral.faces| == |expression.faces|
    && forall f | 0 <= f < |neutral.faces| :: neutral.faces[f].corners == expression.faces[f].corners
  }

  ghost predicate AllMatch(neutral: Obj, channels: seq<Channel>, n: nat)
    requires n <= |channels|
  {
    forall c | 0 <= c < n :: forall s | 0 <= s < |channels[c].sources| :: SameTopology(neutral, channels[c].sources[s])
  }

  // ---------------------------------------------------------------- deltas

  /** The channel's displacement of a source vertex, in source space: its first n sources together. */
  function Displacement(neutral: seq<Vec>, sources: seq<Obj>, v: nat, n: nat): Vec
    requires n <= |sources| && v < |neutral| && forall s | 0 <= s < |sources| :: |sources[s].positions| == |neutral|
  {
    if n == 0 then ORIGIN
    else Add(Displacement(neutral, sources, v, n - 1), Sub(sources[n - 1].positions[v], neutral[v]))
  }

  /** The same displacement as the delta loop accumulates it, in model space. */
  function DeltaSum(t: Transform, neutral: seq<Vec>, sources: seq<Obj>, v: nat, n: nat): Vec
    requires n <= |sources| && v < |neutral| && forall s | 0 <= s < |sources| :: |sources[s].positions| == |neutral|
  {
    if n == 0 then ORIGIN
    else Add(DeltaSum(t, neutral, sources, v, n - 1), t.Delta(Sub(sources[n - 1].positions[v], neutral[v])))
  }

  lemma {:induction false} DeltaSumIsDelta(t: Transform, neutral: seq<Vec>, sources: seq<Obj>, v: nat, n: nat)
    requires n <= |sources| && v < |neutral| && forall s | 0 <= s < |sources| :: |sources[s].positions| == |neutral|
    ensures DeltaSum(t, neutral, sources, v, n) == t.Delta(Displacement(neutral, sources, v, n))
  {
    if n == 0 {
      DeltaOfNothing(t);
    } else {
      DeltaSumIsDelta(t, neutral, sources, v, n - 1);
      DeltaAdds(t, Displacement(neutral, sources, v, n - 1), Sub(sources[n - 1].positions[v], neutral[v]));
    }
  }

  lemma {:induction false} DisplacementOfPrefix(neutral: seq<Vec>, sources: seq<Obj>, more: seq<Obj>, v: nat, n: nat)
    requires n <= |sources| && v < |neutral| && SameSizes(neutral, sources) && SameSizes(neutral, sources + more)
    ensures Displacement(neutral, sources + more, v, n) == Displacement(neutral, sources, v, n)
  {
    if n > 0 {
      DisplacementOfPrefix(neutral, sources, more, v, n - 1);
    }
  }

  predicate SameSizes(neutral: seq<Vec>, sources: seq<Obj>) {
    forall s | 0 <= s < |sources| :: |sources[s].positions| == |neutral|
  }

  /** The sources of a channel add up: each contributes the way from the neutral vertex to its own. */
  lemma {:induction false} SourcesAddUp(neutral: seq<Vec>, sources: seq<Obj>, last: Obj, v: nat)
    requires v < |neutral| && SameSizes(neutral, sources) && |last.positions| == |neutral|
    ensures Displacement(neutral, sources + [last], v, |sources| + 1)
         == Add(Displacement(neutral, sources, v, |sources|), Sub(last.positions[v], neutral[v]))
  {
    DisplacementOfPrefix(neutral, sources, [last], v, |sources|);
  }

  function DeltaOf(t: Transform, neutral: Obj, channel: Channel): nat -> Vec
    requires forall s | 0 <= s < |channel.sources| :: |channel.sources[s].positions| == |neutral.positions|
  {
    Partial(t, neutral, channel, |channel.sources|)
  }

  function Partial(t: Transform, neutral: Obj, channel: Channel, n: nat): nat -> Vec
    requires n <= |channel.sources|
              && forall s | 0 <= s < |channel.sources| :: |channel.sources[s].positions| == |neutral.positions|
  {
    (v: nat) => if v < |neutral.positions| then DeltaSum(t, neutral.positions, channel.sources, v, n) else ORIGIN
  }

  /** The accumulation over the channel's sources, vertex by vertex. */
  method Accumulate(t: Transform, neutral: Obj, channel: Channel) returns (delta: seq<Vec>)
    requires forall s | 0 <= s < |channel.sources| :: |channel.sources[s].positions| == |neutral.positions|
    ensures |delta| == |neutral.positions| && forall v: nat :: At(delta)(v) == DeltaOf(t, neutral, channel)(v)
  {
    var buffer := new Vec[|neutral.positions|](_ => ORIGIN);
    for s := 0 to |channel.sources|
      invariant forall v: nat | v < buffer.Length :: buffer[v] == Partial(t, neutral, channel, s)(v)
    {
      AddSource(t, neutral, channel, s, buffer);
    }
    delta := buffer[..];
  }

  method AddSource(t: Transform, neutral: Obj, channel: Channel, s: nat, buffer: array<Vec>)
    requires s < |channel.sources|
              && forall s | 0 <= s < |channel.sources| :: |channel.sources[s].positions| == |neutral.positions|
    requires buffer.Length == |neutral.positions|
              && forall v: nat | v < buffer.Length :: buffer[v] == Partial(t, neutral, channel, s)(v)
    modifies buffer
    ensures forall v: nat | v < buffer.Length :: buffer[v] == Partial(t, neutral, channel, s + 1)(v)
  {
    var expression := channel.sources[s];
    for i := 0 to |expression.positions|
      invariant forall v: nat | v < i :: buffer[v] == Partial(t, neutral, channel, s + 1)(v)
      invariant forall v: nat | i <= v < buffer.Length :: buffer[v] == Partial(t, neutral, channel, s)(v)
    {
      var d := t.Delta(Sub(expression.positions[i], neutral.positions[i]));
      assert Partial(t, neutral, channel, s + 1)(i) == Add(Partial(t, neutral, channel, s)(i), d);
      buffer[i] := Add(buffer[i], d);
    }
  }

  function Abs(x: real): real { if x < 0.0 then -x else x }

  predicate Significant(d: Vec) { Abs(d.x) > 0.00000001 || Abs(d.y) > 0.00000001 || Abs(d.z) > 0.00000001 }

  /** A displacement counts exactly when some coordinate differs from zero by more than 1e-8. */
  lemma SignificantMeans(d: Vec)
    ensures Significant(d) <==> !Near(d, ORIGIN, 0.00000001)
  {
  }

  predicate Moves(original: seq<nat>, delta: nat -> Vec) {
    exists i :: 0 <= i < |original| && Significant(delta(original[i]))
  }

  // ---------------------------------------------------------------- targets

  /** The channels among the first n that move some vertex of the part. */
  function Taken(original: seq<nat>, deltas: nat -> nat -> Vec, n: nat): (r: seq<nat>)
    ensures forall k | 0 <= k < |r| :: r[k] < n
  {
    if n == 0 then [] else Taken(original, deltas, n - 1) + (if Moves(original, deltas(n - 1)) then [n - 1] else [])
  }

  ghost predicate TargetIs(target: Target, original: seq<nat>, name: Name, delta: nat -> Vec, turn: nat -> Vec) {
    target.name == name && Gathers(target.positions, original, delta) && Gathers(target.normals, original, turn)
  }

  /** The part carries exactly the channels that move it, in order, with each vertex's own delta. */
  ghost predicate Morphs(part: Part, names: nat -> Name, deltas: nat -> nat -> Vec, turns: nat -> nat -> Vec, n: nat) {
    var taken := Taken(part.original, deltas, n);
    && |part.targets| == |taken|
    && forall k | 0 <= k < |taken| ::
         TargetIs(part.targets[k], part.original, names(taken[k]), deltas(taken[k]), turns(taken[k]))
  }

  /** Parts that share a vertex and a channel move it alike. */
  lemma SharedDeltasAgree(a: Part, b: Part, names: nat -> Name, deltas: nat -> nat -> Vec, turns: nat -> nat -> Vec,
                          n: nat, i: nat, j: nat, k: nat, l: nat)
    requires Morphs(a, names, deltas, turns, n) && Morphs(b, names, deltas, turns, n)
    requires i < |a.original| && j < |b.original| && a.original[i] == b.original[j]
    requires k < |a.targets| && l < |b.targets| && Taken(a.original, deltas, n)[k] == Taken(b.original, deltas, n)[l]
    ensures a.targets[k].name == b.targets[l].name
    ensures a.targets[k].positions[i] == b.targets[l].positions[j]
    ensures a.targets[k].normals[i] == b.targets[l].normals[j]
  {
    var c := Taken(a.original, deltas, n)[k];
    assert TargetIs(a.targets[k], a.original, names(c), deltas(c), turns(c));
    assert TargetIs(b.targets[l], b.original, names(c), deltas(c), turns(c));
  }

  // ---------------------------------------------------------------- evaluation

  /** The base position with the first n targets blended in. */
  function Blended(part: Part, weights: seq<real>, i: nat, n: nat): Vec
    requires n <= |weights| && n <= |part.targets| && i < |part.positions|
    requires forall k | 0 <= k < |part.targets| :: |part.targets[k].positions| == |part.positions|
  {
    if n == 0 then part.positions[i]
    else Add(Blended(part, weights, i, n - 1), Times(weights[n - 1], part.targets[n - 1].positions[i]))
  }

  /** The structural part of mesh validation. */
  predicate WellFormed(part: Part) {
    && 0 < |part.positions| <= 100_000 && |part.normals| == |part.positions|
    && (forall i | 0 <= i < |part.normals| :: Dot(part.normals[i], part.normals[i]) > 0.000000000001)
    && 0 < |part.indices| <= 600_000 && |part.indices| % 3 == 0
    && (forall j | 0 <= j < |part.indices| :: part.indices[j] < |part.positions|)
    && |part.targets| <= 52
    && (forall k, l | 0 <= k < l < |part.targets| :: part.targets[k].name != part.targets[l].name)
    && (forall k | 0 <= k < |part.targets| :: |part.targets[k].positions| == |part.positions|
          && |part.targets[k].normals| == |part.positions|)
  }

  /** The base normal with the first n targets blended in, not yet of unit length. */
  function BlendedNormal(part: Part, weights: seq<real>, i: nat, n: nat): Vec
    requires n <= |weights| && n <= |part.targets| && i < |part.normals|
    requires forall k | 0 <= k < |part.targets| :: |part.targets[k].normals| == |part.normals|
  {
    if n == 0 then part.normals[i]
    else Add(BlendedNormal(part, weights, i, n - 1), Times(weights[n - 1], part.targets[n - 1].normals[i]))
  }

  /** The normal scaled to unit length; one too short to have a direction becomes the z axis. `root` is the square
      root. */
  function Unit(normal: Vec, root: real -> real): Vec {
    var length := root(Dot(normal, normal));
    if length > 0.00000001 then Vec(normal.x / length, normal.y / length, normal.z / length) else Vec(0.0, 0.0, 1.0)
  }

  /** Every evaluated normal has unit length and its old direction; one without a direction becomes the z axis. */
  lemma UnitHasLengthOne(normal: Vec, root: real -> real)
    requires var square := Dot(normal, normal); root(square) * root(square) == square
    ensures Dot(Unit(normal, root), Unit(normal, root)) == 1.0
    ensures var length := root(Dot(normal, normal));
            if length > 0.00000001 then Times(length, Unit(normal, root)) == normal
            else Unit(normal, root) == Vec(0.0, 0.0, 1.0)
  {
    var square := Dot(normal, normal);
    var length := root(square);
    if length > 0.00000001 {
      var s := 1.0 / length;
      DividedIsStretched(normal.x, length);
      DividedIsStretched(normal.y, length);
      DividedIsStretched(normal.z, length);
      StretchedSquare(normal, s, square);
      SquaresCancel(length, square);
    }
  }

  lemma DividedIsStretched(a: real, length: real)
    requires length > 0.0
    ensures a / length == Stretch(a, 1.0 / length) && length * (a / length) == a
  {
  }

  lemma SquaresCancel(length: real, square: real)
    requires length > 0.0 && length * length == square
    ensures Stretch(square, (1.0 / length) * (1.0 / length)) == 1.0
  {
    var s := 1.0 / length;
    assert s * length == 1.0;
    assert (length * length) * (s * s) == (s * length) * (s * length);
  }

  /** `evaluate`. */
  method Evaluate(part: Part, weights: seq<Float>, root: real -> real) returns (r: Option<(seq<Vec>, seq<Vec>)>)
    ensures r.Some? <==> |weights| == |part.targets| && AllFinite(weights) && WellFormed(part)
    ensures r.Some? ==>
              && |r.value.0| == |part.positions|
              && forall i | 0 <= i < |part.positions| ::
                   r.value.0[i] == Blended(part, Values(weights), i, |part.targets|)
    ensures r.Some? ==>
              && |r.value.1| == |part.positions|
              && forall i | 0 <= i < |part.positions| ::
                   r.value.1[i] == Unit(BlendedNormal(part, Values(weights), i, |part.targets|), root)
  {
    if |weights| != |part.targets| || !AllFinite(weights) || !WellFormed(part) {
      return None;
    }
    var w := Values(weights);
    var positions := new Vec[|part.positions|](i requires 0 <= i < |part.positions| => part.positions[i]);
    var normals := new Vec[|part.normals|](i requires 0 <= i < |part.normals| => part.normals[i]);
    for n := 0 to |part.targets|
      invariant forall v: nat | v < positions.Length :: positions[v] == Blended(part, w, v, n)
      invariant forall v: nat | v < normals.Length :: normals[v] == BlendedNormal(part, w, v, n)
    {
      BlendTarget(part, w, n, positions, normals);
    }
    NormalizeAll(normals, root);
    return Some((positions[..], normals[..]));
  }

  /** Brings every normal to unit length, in place. */
  method NormalizeAll(normals: array<Vec>, root: real -> real)
    modifies normals
    ensures forall v: nat | v < normals.Length :: normals[v] == Unit(old(normals[v]), root)
  {
    for i := 0 to normals.Length
      invariant forall v: nat | v < i :: normals[v] == Unit(old(normals[v]), root)
      invariant forall v: nat | i <= v < normals.Length :: normals[v] == old(normals[v])
    {
      normals[i] := Unit(normals[i], root);
    }
  }

  /** One target's turn: every vertex and normal moves by its weighted share. */
  method BlendTarget(part: Part, weights: seq<real>, n: nat, positions: array<Vec>, normals: array<Vec>)
    requires WellFormed(part) && n < |weights| == |part.targets|
    requires positions != normals && positions.Length == normals.Length == |part.positions|
    requires forall v: nat | v < positions.Length :: positions[v] == Blended(part, weights, v, n)
    requires forall v: nat | v < normals.Length :: normals[v] == BlendedNormal(part, weights, v, n)
    modifies positions, normals
    ensures forall v: nat | v < positions.Length :: positions[v] == Blended(part, weights, v, n + 1)
    ensures forall v: nat | v < normals.Length :: normals[v] == BlendedNormal(part, weights, v, n + 1)
  {
    var target := part.targets[n];
    for i := 0 to |part.positions|
      invariant forall v: nat | v < i :: positions[v] == Blended(part, weights, v, n + 1)
      invariant forall v: nat | i <= v < positions.Length :: positions[v] == Blended(part, weights, v, n)
      invariant forall v: nat | v < i :: normals[v] == BlendedNormal(part, weights, v, n + 1)
      invariant forall v: nat | i <= v < normals.Length :: normals[v] == BlendedNormal(part, weights, v, n)
    {
      positions[i] := Add(positions[i], Times(weights[n], target.positions[i]));
      normals[i] := Add(normals[i], Times(weights[n], target.normals[i]));
    }
  }

  // ---------------------------------------------------------------- what the blend means

  /** Each target's share of the channel weights. */
  function Shares(taken: seq<nat>, weight: nat -> real): (r: seq<real>)
    ensures |r| == |taken| && forall k | 0 <= k < |taken| :: r[k] == weight(taken[k])
  {
    seq(|taken|, k requires 0 <= k < |taken| => weight(taken[k]))
  }

  /** The weighted deltas of the first n channels at one vertex. */
  function Weighted(deltas: nat -> nat -> Vec, weight: nat -> real, v: nat, n: nat): Vec {
    if n == 0 then ORIGIN else Add(Weighted(deltas, weight, v, n - 1), Times(weight(n - 1), deltas(n - 1)(v)))
  }

  /** The same over a list of channels. */
  function WeightedOver(taken: seq<nat>, deltas: nat -> nat -> Vec, weight: nat -> real, v: nat, n: nat): Vec
    requires n <= |taken|
  {
    if n == 0 then ORIGIN
    else Add(WeightedOver(taken, deltas, weight, v, n - 1), Times(weight(taken[n - 1]), deltas(taken[n - 1])(v)))
  }

  lemma {:induction false} BlendIsWeighted(part: Part, names: nat -> Name, deltas: nat -> nat -> Vec,
                                           turns: nat -> nat -> Vec, channels: nat, weight: nat -> real, i: nat, n: nat)
    requires WellFormed(part) && Morphs(part, names, deltas, turns, channels) && |part.original| == |part.positions|
    requires i < |part.positions| && n <= |part.targets|
    ensures var taken := Taken(part.original, deltas, channels);
            Blended(part, Shares(taken, weight), i, n)
                == Add(part.positions[i], WeightedOver(taken, deltas, weight, part.original[i], n))
  {
    var taken := Taken(part.original, deltas, channels);
    if n > 0 {
      BlendIsWeighted(part, names, deltas, turns, channels, weight, i, n - 1);
      assert TargetIs(part.targets[n - 1], part.original, names(taken[n - 1]), deltas(taken[n - 1]),
                      turns(taken[n - 1]));
      assert part.targets[n - 1].positions[i] == deltas(taken[n - 1])(part.original[i]);
    }
  }

  function Cost(w: real): (r: real)
    ensures r >= 0.0
  {
    Abs(w) * 0.00000001
  }

  /** What the part's skipped channels could have moved a vertex by, at most. */
  function Slack(original: seq<nat>, deltas: nat -> nat -> Vec, weight: nat -> real, n: nat): (r: real)
    ensures r >= 0.0
  {
    if n == 0 then 0.0
    else Slack(original, deltas, weight, n - 1) + (if Moves(original, deltas(n - 1)) then 0.0 else Cost(weight(n - 1)))
  }

  predicate Near(a: Vec, b: Vec, slack: real) {
    && b.x - slack <= a.x <= b.x + slack
    && b.y - slack <= a.y <= b.y + slack
    && b.z - slack <= a.z <= b.z + slack
  }

  lemma {:induction false} WeightedOverPrefix(taken: seq<nat>, more: seq<nat>, deltas: nat -> nat -> Vec,
                                              weight: nat -> real, v: nat, n: nat)
    requires n <= |taken|
    ensures WeightedOver(taken + more, deltas, weight, v, n) == WeightedOver(taken, deltas, weight, v, n)
  {
    if n > 0 {
      WeightedOverPrefix(taken, more, deltas, weight, v, n - 1);
    }
  }

  lemma SmallProduct(w: real, x: real)
    requires -0.00000001 <= x <= 0.00000001
    ensures -Cost(w) <= w * x <= Cost(w)
  {
  }

  lemma InsignificantCosts(w: real, d: Vec)
    requires !Significant(d)
    ensures Near(Times(w, d), ORIGIN, Cost(w))
  {
    SmallProduct(w, d.x);
    SmallProduct(w, d.y);
    SmallProduct(w, d.z);
  }

  lemma NearWithout(a: Vec, b: Vec, slack: real, d: Vec, cost: real)
    requires Near(a, b, slack) && Near(d, ORIGIN, cost)
    ensures Near(a, Add(b, d), slack + cost)
  {
  }

  lemma NearMoves(a: Vec, b: Vec, slack: real, d: Vec)
    requires Near(a, b, slack)
    ensures Near(Add(a, d), Add(b, d), slack)
  {
  }

  /** Dropping the channels that do not move the part costs at most the slack. */
  lemma {:induction false} SkippingCostsLittle(original: seq<nat>, deltas: nat -> nat -> Vec, weight: nat -> real,
                                               i: nat, n: nat)
    requires i < |original|
    ensures var taken := Taken(original, deltas, n);
            Near(WeightedOver(taken, deltas, weight, original[i], |taken|), Weighted(deltas, weight, original[i], n),
                 Slack(original, deltas, weight, n))
  {
    if n > 0 {
      SkippingCostsLittle(original, deltas, weight, i, n - 1);
      var before, v := Taken(original, deltas, n - 1), original[i];
      var a, b, slack := WeightedOver(before, deltas, weight, v, |before|), Weighted(deltas, weight, v, n - 1),
          Slack(original, deltas, weight, n - 1);
      var moved := Times(weight(n - 1), deltas(n - 1)(v));
      if Moves(original, deltas(n - 1)) {
        WeightedOverPrefix(before, [n - 1], deltas, weight, v, |before|);
        NearMoves(a, b, slack, moved);
      } else {
        InsignificantCosts(weight(n - 1), deltas(n - 1)(v));
        NearWithout(a, b, slack, moved, Cost(weight(n - 1)));
        assert Taken(original, deltas, n) == before;
      }
    }
  }

  /** The blend of source displacements that the weights ask for. */
  function Pose(neutral: Obj, channels: seq<Channel>, weight: nat -> real, v: nat, n: nat): Vec
    requires n <= |channels| && v < |neutral.positions| && SameLengths(neutral, channels)
  {
    if n == 0 then ORIGIN
    else Add(Pose(neutral, channels, weight, v, n - 1),
             Times(weight(n - 1),
                   Displacement(neutral.positions, channels[n - 1].sources, v, |channels[n - 1].sources|)))
  }

  predicate SameLengths(neutral: Obj, channels: seq<Channel>) {
    forall c | 0 <= c < |channels| :: forall s | 0 <= s < |channels[c].sources| ::
                                        |channels[c].sources[s].positions| == |neutral.positions|
  }

  function Deltas(t: Transform, neutral: Obj, channels: seq<Channel>): nat -> nat -> Vec
    requires SameLengths(neutral, channels)
  {
    (c: nat) => if c < |channels| then DeltaOf(t, neutral, channels[c]) else (v: nat) => ORIGIN
  }

  lemma {:induction false} WeightedIsPose(t: Transform, neutral: Obj, channels: seq<Channel>, weight: nat -> real,
                                          v: nat, n: nat)
    requires n <= |channels| && v < |neutral.positions| && SameLengths(neutral, channels)
    ensures Weighted(Deltas(t, neutral, channels), weight, v, n) == t.Delta(Pose(neutral, channels, weight, v, n))
  {
    if n == 0 {
      DeltaOfNothing(t);
    } else {
      WeightedIsPose(t, neutral, channels, weight, v, n - 1);
      var sources := channels[n - 1].sources;
      var d := Displacement(neutral.positions, sources, v, |sources|);
      DeltaSumIsDelta(t, neutral.positions, sources, v, |sources|);
      assert Deltas(t, neutral, channels)(n - 1)(v) == t.Delta(d);
      DeltaScales(t, weight(n - 1), d);
      DeltaAdds(t, Pose(neutral, channels, weight, v, n - 1), Times(weight(n - 1), d));
    }
  }

  /** For all weights, evaluating a part gives the moved image of the posed source vertex, up to the slack
      of the channels that the part leaves out. */
  lemma MorphIsFaithful(part: Part, t: Transform, neutral: Obj, channels: seq<Channel>, names: nat -> Name,
                        turns: nat -> nat -> Vec, weight: nat -> real, i: nat)
    requires WellFormed(part) && Sits(part, t, neutral.positions) && SameLengths(neutral, channels)
              && i < |part.positions|
    requires Morphs(part, names, Deltas(t, neutral, channels), turns, |channels|)
    ensures var deltas := Deltas(t, neutral, channels);
            var v := part.original[i];
            Near(Blended(part, Shares(Taken(part.original, deltas, |channels|), weight), i, |part.targets|),
                 t.Position(Add(neutral.positions[v], Pose(neutral, channels, weight, v, |channels|))),
                 Slack(part.original, deltas, weight, |channels|))
  {
    var deltas, v := Deltas(t, neutral, channels), part.original[i];
    BlendIsWeighted(part, names, deltas, turns, |channels|, weight, i, |part.targets|);
    SkippingCostsLittle(part.original, deltas, weight, i, |channels|);
    WeightedIsPose(t, neutral, channels, weight, v, |channels|);
    PositionMoves(t, neutral.positions[v], Pose(neutral, channels, weight, v, |channels|));
  }

  /** One channel alone, at weight `w`. */
  function Alone(c: nat, w: real): nat -> real { (k: nat) => if k == c then w else 0.0 }

  lemma NothingAdded(a: Vec, d: Vec)
    ensures Add(a, Times(0.0, d)) == a
  {
  }

  lemma {:induction false} PoseOfOne(neutral: Obj, channels: seq<Channel>, c: nat, w: real, v: nat, n: nat)
    requires n <= |channels| && v < |neutral.positions| && SameLengths(neutral, channels) && c < |channels|
    ensures Pose(neutral, channels, Alone(c, w), v, n)
         == if c < n then Times(w, Displacement(neutral.positions, channels[c].sources, v, |channels[c].sources|))
             else ORIGIN
  {
    if n > 0 {
      PoseOfOne(neutral, channels, c, w, v, n - 1);
      var d := Displacement(neutral.positions, channels[n - 1].sources, v, |channels[n - 1].sources|);
      NothingAdded(Pose(neutral, channels, Alone(c, w), v, n - 1), d);
    }
  }

  lemma {:induction false} SlackOfOne(original: seq<nat>, deltas: nat -> nat -> Vec, c: nat, w: real, n: nat)
    ensures Slack(original, deltas, Alone(c, w), n) == if c < n && !Moves(original, deltas(c)) then Cost(w) else 0.0
  {
    if n > 0 {
      SlackOfOne(original, deltas, c, w, n - 1);
    }
  }

  /** A channel made from a single expression, alone at any weight `w`, takes each vertex that part of the way from the
      neutral face to the expression: exactly on the parts that carry it, and within 1e-8 times the weight a coordinate
      elsewhere. */
  lemma SingleSourceIsWeighted(part: Part, t: Transform, neutral: Obj, channels: seq<Channel>, names: nat -> Name,
                               turns: nat -> nat -> Vec, c: nat, w: real, i: nat)
    requires WellFormed(part) && Sits(part, t, neutral.positions) && SameLengths(neutral, channels)
              && i < |part.positions|
    requires Morphs(part, names, Deltas(t, neutral, channels), turns, |channels|)
    requires c < |channels| && |channels[c].sources| == 1
    ensures var deltas := Deltas(t, neutral, channels);
            var from, to := neutral.positions[part.original[i]], channels[c].sources[0].positions[part.original[i]];
            Near(Blended(part, Shares(Taken(part.original, deltas, |channels|), Alone(c, w)), i, |part.targets|),
                 t.Position(Add(from, Times(w, Sub(to, from)))),
                 if Moves(part.original, deltas(c)) then 0.0 else Cost(w))
  {
    var deltas, v := Deltas(t, neutral, channels), part.original[i];
    MorphIsFaithful(part, t, neutral, channels, names, turns, Alone(c, w), i);
    PoseOfOne(neutral, channels, c, w, v, |channels|);
    SlackOfOne(part.original, deltas, c, w, |channels|);
    assert Displacement(neutral.positions, channels[c].sources, v, 1)
        == Sub(channels[c].sources[0].positions[v], neutral.positions[v]);
  }

  lemma AllTheWay(from: Vec, to: Vec)
    ensures Add(from, Times(1.0, Sub(to, from))) == to && Cost(1.0) == 0.00000001
  {
  }

  /** At weight 1 that reproduces the expression. */
  lemma SingleSourceIsReproduced(part: Part, t: Transform, neutral: Obj, channels: seq<Channel>, names: nat -> Name,
                                 turns: nat -> nat -> Vec, c: nat, i: nat)
    requires WellFormed(part) && Sits(part, t, neutral.positions) && SameLengths(neutral, channels)
              && i < |part.positions|
    requires Morphs(part, names, Deltas(t, neutral, channels), turns, |channels|)
    requires c < |channels| && |channels[c].sources| == 1
    ensures var deltas := Deltas(t, neutral, channels);
            Near(Blended(part, Shares(Taken(part.original, deltas, |channels|), Alone(c, 1.0)), i, |part.targets|),
                 t.Position(channels[c].sources[0].positions[part.original[i]]),
                 if Moves(part.original, deltas(c)) then 0.0 else 0.00000001)
  {
    SingleSourceIsWeighted(part, t, neutral, channels, names, turns, c, 1.0, i);
    AllTheWay(neutral.positions[part.original[i]], channels[c].sources[0].positions[part.original[i]]);
  }

  // ---------------------------------------------------------------- normals

  lemma {:induction false} NormalIsWeighted(part: Part, names: nat -> Name, deltas: nat -> nat -> Vec,
                                            turns: nat -> nat -> Vec, channels: nat, weight: nat -> real, i: nat,
                                            n: nat)
    requires WellFormed(part) && Morphs(part, names, deltas, turns, channels) && |part.original| == |part.normals|
    requires i < |part.normals| && n <= |part.targets|
    ensures var taken := Taken(part.original, deltas, channels);
            BlendedNormal(part, Shares(taken, weight), i, n)
                == Add(part.normals[i], WeightedOver(taken, turns, weight, part.original[i], n))
  {
    var taken := Taken(part.original, deltas, channels);
    if n > 0 {
      NormalIsWeighted(part, names, deltas, turns, channels, weight, i, n - 1);
      assert TargetIs(part.targets[n - 1], part.original, names(taken[n - 1]), deltas(taken[n - 1]),
                      turns(taken[n - 1]));
      assert part.targets[n - 1].normals[i] == turns(taken[n - 1])(part.original[i]);
    }
  }

  lemma {:induction false} OneOfTaken(original: seq<nat>, deltas: nat -> nat -> Vec, values: nat -> nat -> Vec, c: nat,
                                      w: real, v: nat, n: nat)
    ensures var taken := Taken(original, deltas, n);
            WeightedOver(taken, values, Alone(c, w), v, |taken|)
              == if c < n && Moves(original, deltas(c)) then Times(w, values(c)(v)) else ORIGIN
  {
    if n > 0 {
      var before := Taken(original, deltas, n - 1);
      OneOfTaken(original, deltas, values, c, w, v, n - 1);
      if Moves(original, deltas(n - 1)) {
        WeightedOverPrefix(before, [n - 1], values, Alone(c, w), v, |before|);
        NothingAdded(WeightedOver(before, values, Alone(c, w), v, |before|), values(n - 1)(v));
      } else {
        assert Taken(original, deltas, n) == before;
      }
    }
  }
}
