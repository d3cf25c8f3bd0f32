/** Conversion of a neutral face and its expressions into a checked model
    (crates/audio2face3d-gui/src/obj2morph/convert.rs, validation.rs). */
module Conversions {
  import opened Common
  import opened Transforms
  import opened Splits
  import opened Channels

  datatype ConvertError = Topology | Neutral(error: GeometryError) | PosedNormals | AllZero | Invalid

  // ---------------------------------------------------------------- the loops of the conversion

  method Validate(neutral: Obj, expression: Obj) returns (ok: bool)
    ensures ok <==> SameTopology(neutral, expression)
  {
    if |neutral.positions| != |expression.positions| || |neutral.faces| != |expression.faces| {
      return false;
    }
    for f := 0 to |neutral.faces|
      invariant forall k | 0 <= k < f :: neutral.faces[k].corners == expression.faces[k].corners
    {
      if neutral.faces[f].corners != expression.faces[f].corners {
        return false;
      }
    }
    return true;
  }

  method ValidateAll(neutral: Obj, channels: seq<Channel>) returns (ok: bool)
    ensures ok <==> AllMatch(neutral, channels, |channels|)
  {
    for c := 0 to |channels|
      invariant AllMatch(neutral, channels, c)
    {
      var sources := channels[c].sources;
      for s := 0 to |sources|
        invariant forall k | 0 <= k < s :: SameTopology(neutral, sources[k])
      {
        var same := Validate(neutral, sources[s]);
        if !same {
          return false;
        }
      }
    }
    return true;
  }

  /** The retained vertices that move, as the report counts them. */
  method CountMoving(indices: seq<nat>, delta: seq<Vec>) returns (nonzero: nat)
    requires forall i | 0 <= i < |indices| :: indices[i] < |delta|
    ensures nonzero == |MovingVertices(indices, At(delta))|
    ensures nonzero == 0 <==> !Moves(indices, At(delta))
  {
    var retained := Distinguish(indices);
    nonzero := 0;
    ghost var moving: set<nat> := {};
    for i := 0 to |retained|
      invariant nonzero == |moving| && forall v: nat :: v in moving <==> v in retained[..i] && Significant(At(delta)(v))
    {
      assert retained[i] in indices;
      assert retained[..i + 1] == retained[..i] + [retained[i]];
      if Significant(delta[retained[i]]) {
        nonzero := nonzero + 1;
        moving := moving + {retained[i]};
      }
    }
    assert retained[..|retained|] == retained;
    assert moving == MovingVertices(indices, At(delta));
    NothingMoves(indices, At(delta));
  }

  ghost function MovingVertices(indices: seq<nat>, delta: nat -> Vec): set<nat> {
    set v | v in indices && Significant(delta(v))
  }

  lemma NothingMoves(indices: seq<nat>, delta: nat -> Vec)
    ensures |MovingVertices(indices, delta)| == 0 <==> !Moves(indices, delta)
  {
    if Moves(indices, delta) {
      var i :| 0 <= i < |indices| && Significant(delta(indices[i]));
      assert indices[i] in MovingVertices(indices, delta);
    }
    if |MovingVertices(indices, delta)| > 0 {
      var v :| v in MovingVertices(indices, delta);
      var i :| 0 <= i < |indices| && indices[i] == v;
    }
  }

  /** One part before and after a channel: a target is added exactly when the channel moves the part. */
  ghost predicate Extended(before: Part, after: Part, name: Name, delta: nat -> Vec, turn: nat -> Vec) {
    && after == before.(targets := after.targets)
    && if Moves(before.original, delta)
       then |after.targets| == |before.targets| + 1 && after.targets[..|before.targets|] == before.targets
            && TargetIs(after.targets[|before.targets|], before.original, name, delta, turn)
       else after.targets == before.targets
  }

  /** The part loop of one channel. */
  method AddTargets(parts: seq<Part>, name: Name, delta: nat -> Vec, turn: nat -> Vec) returns (more: seq<Part>)
    ensures |more| == |parts| && forall i | 0 <= i < |parts| :: Extended(parts[i], more[i], name, delta, turn)
  {
    more := [];
    for i := 0 to |parts|
      invariant |more| == i && forall k | 0 <= k < i :: Extended(parts[k], more[k], name, delta, turn)
    {
      var part := parts[i];
      if Moves(part.original, delta) {
        var moved := Gather(part.original, delta);
        var turned := Gather(part.original, turn);
        part := part.(targets := part.targets + [Target(name, moved, turned)]);
      }
      more := more + [part];
    }
  }

  lemma MorphsMore(before: Part, after: Part, names: nat -> Name, deltas: nat -> nat -> Vec, turns: nat -> nat -> Vec,
                   n: nat)
    requires Morphs(before, names, deltas, turns, n) && Extended(before, after, names(n), deltas(n), turns(n))
    ensures Morphs(after, names, deltas, turns, n + 1)
  {
    var taken, more := Taken(before.original, deltas, n), Taken(before.original, deltas, n + 1);
    forall k | 0 <= k < |more|
      ensures TargetIs(after.targets[k], after.original, names(more[k]), deltas(more[k]), turns(more[k]))
    {
      if k < |taken| {
        assert more[k] == taken[k] && after.targets[k] == before.targets[k];
      }
    }
  }

  function Names(channels: seq<Channel>): nat -> Name { (c: nat) => if c < |channels| then channels[c].name else 0 }

  /** The retained surface in one channel's pose. */
  function Posed(positions: seq<Vec>, delta: nat -> Vec): (r: seq<Vec>)
    ensures |r| == |positions|
  {
    seq(|positions|, v requires 0 <= v < |positions| => Add(positions[v], delta(v)))
  }

  /** How the channel turns each vertex normal. */
  function Turn(g: Geometry, delta: nat -> Vec, normals: NormalRule, posed: NormalRule): nat -> Vec {
    var from, to := normals(g.positions, g.indices), posed(Posed(g.positions, delta), g.indices);
    (v: nat) => if from.Some? && to.Some? then Sub(to.value(v), from.value(v)) else ORIGIN
  }

  function Turns(g: Geometry, neutral: Obj, channels: seq<Channel>, normals: NormalRule,
                 posed: NormalRule): nat -> nat -> Vec
    requires SameLengths(neutral, channels)
  {
    (c: nat) => Turn(g, Deltas(g.transform, neutral, channels)(c), normals, posed)
  }

  lemma MatchingLengths(neutral: Obj, channels: seq<Channel>)
    requires AllMatch(neutral, channels, |channels|)
    ensures SameLengths(neutral, channels)
  {
    forall c, s | 0 <= c < |channels| && 0 <= s < |channels[c].sources|
      ensures |channels[c].sources[s].positions| == |neutral.positions|
    {
      assert SameTopology(neutral, channels[c].sources[s]);
    }
  }

  /** The converted parts: the split neutral surface with the targets of the first n channels. */
  ghost predicate PartsMorph(parts: seq<Part>, g: Geometry, neutral: Obj, channels: seq<Channel>, normals: NormalRule,
                             posed: NormalRule, n: nat)
    requires SameLengths(neutral, channels)
  {
    && |parts| == |g.parts|
    && (forall i | 0 <= i < |parts| :: parts[i].(targets := []) == g.parts[i])
    && (forall i | 0 <= i < |parts| ::
          Morphs(parts[i], Names(channels), Deltas(g.transform, neutral, channels),
                 Turns(g, neutral, channels, normals, posed), n))
  }

  /** One turn of the channel loop. */
  method AddChannel(g: Geometry, parts: seq<Part>, name: Name, delta: seq<Vec>, ghost same: nat -> Vec,
                    normals: NormalRule, posed: NormalRule)
    returns (r: Result<seq<Part>, ConvertError>)
    requires forall v: nat :: At(delta)(v) == same(v)
    requires |g.positions| == |delta| && forall i | 0 <= i < |g.indices| :: g.indices[i] < |delta|
    requires normals(g.positions, g.indices).Some?
    ensures r.Ok? <==> Usable(g, same, posed)
    ensures r.Err? ==> r.error == Failure(g, same, posed)
    ensures r.Ok? ==>
              |r.value| == |parts|
              && forall i | 0 <= i < |parts| ::
                   Extended(parts[i], r.value[i], name, same, Turn(g, same, normals, posed))
  {
    SameMoves(g.indices, At(delta), same);
    assert Posed(g.positions, At(delta)) == Posed(g.positions, same);
    var direction := posed(Posed(g.positions, At(delta)), g.indices);
    if direction.None? {
      return Err(PosedNormals);
    }
    var nonzero := CountMoving(g.indices, delta);
    if nonzero == 0 {
      return Err(AllZero);
    }
    var from := normals(g.positions, g.indices).value;
    var to := direction.value;
    var turn := (v: nat) => Sub(to(v), from(v));
    var more := AddTargets(parts, name, At(delta), turn);
    forall i | 0 <= i < |parts|
      ensures Extended(parts[i], more[i], name, same, Turn(g, same, normals, posed))
    {
      ExtendedAlike(parts[i], more[i], name, At(delta), turn, same, Turn(g, same, normals, posed));
    }
    return Ok(more);
  }

  lemma PartsMore(before: seq<Part>, after: seq<Part>, g: Geometry, neutral: Obj, channels: seq<Channel>,
                  normals: NormalRule, posed: NormalRule, n: nat)
    requires SameLengths(neutral, channels) && n < |channels| && |before| == |after|
    requires PartsMorph(before, g, neutral, channels, normals, posed, n)
    requires forall i | 0 <= i < |before| ::
               Extended(before[i], after[i], channels[n].name, Deltas(g.transform, neutral, channels)(n),
                        Turns(g, neutral, channels, normals, posed)(n))
    ensures PartsMorph(after, g, neutral, channels, normals, posed, n + 1)
  {
    forall i | 0 <= i < |after|
      ensures after[i].(targets := []) == g.parts[i]
      ensures Morphs(after[i], Names(channels), Deltas(g.transform, neutral, channels),
                     Turns(g, neutral, channels, normals, posed), n + 1)
    {
      assert before[i].(targets := []) == g.parts[i];
      MorphsMore(before[i], after[i], Names(channels), Deltas(g.transform, neutral, channels),
                 Turns(g, neutral, channels, normals, posed), n);
    }
  }

  lemma NothingYet(g: Geometry, neutral: Obj, channels: seq<Channel>, normals: NormalRule, posed: NormalRule)
    requires SameLengths(neutral, channels) && forall i | 0 <= i < |g.parts| :: g.parts[i].targets == []
    ensures PartsMorph(g.parts, g, neutral, channels, normals, posed, 0)
  {
  }

  /** Channel `c` on top of the ones before it. */
  method AddChannelAt(g: Geometry, parts: seq<Part>, neutral: Obj, channels: seq<Channel>, c: nat, normals: NormalRule,
                      posed: NormalRule)
    returns (r: Result<seq<Part>, ConvertError>)
    requires SameLengths(neutral, channels) && |g.positions| == |neutral.positions| && c < |channels|
    requires forall i | 0 <= i < |g.indices| :: g.indices[i] < |neutral.positions|
    requires normals(g.positions, g.indices).Some?
    requires PartsMorph(parts, g, neutral, channels, normals, posed, c)
    ensures r.Ok? ==>
              UsableAt(g, neutral, channels, posed, c)
              && PartsMorph(r.value, g, neutral, channels, normals, posed, c + 1)
    ensures r.Err? ==> Stops(r.error, g, neutral, channels, posed, c)
  {
    ghost var same := Deltas(g.transform, neutral, channels)(c);
    var delta := Accumulate(g.transform, neutral, channels[c]);
    r := AddChannel(g, parts, channels[c].name, delta, same, normals, posed);
    if r.Ok? {
      PartsMore(parts, r.value, g, neutral, channels, normals, posed, c);
    }
  }

  /** The channel loop: it succeeds if no channel is unusable, and else reports why the first one is. */
  method AddChannels(g: Geometry, neutral: Obj, channels: seq<Channel>, normals: NormalRule, posed: NormalRule)
    returns (r: Result<seq<Part>, ConvertError>)
    requires SameLengths(neutral, channels) && |g.positions| == |neutral.positions|
    requires forall i | 0 <= i < |g.indices| :: g.indices[i] < |neutral.positions|
    requires normals(g.positions, g.indices).Some?
    requires PartsMorph(g.parts, g, neutral, channels, normals, posed, 0)
    ensures r.Ok? <==> FirstUnusable(g, neutral, channels, posed, 0) == |channels|
    ensures r.Ok? ==> PartsMorph(r.value, g, neutral, channels, normals, posed, |channels|)
    ensures r.Err? ==> Stops(r.error, g, neutral, channels, posed, FirstUnusable(g, neutral, channels, posed, 0))
  {
    var parts := g.parts;
    for c := 0 to |channels|
      invariant PartsMorph(parts, g, neutral, channels, normals, posed, c)
      invariant FirstUnusable(g, neutral, channels, posed, 0) == FirstUnusable(g, neutral, channels, posed, c)
    {
      var added := AddChannelAt(g, parts, neutral, channels, c, normals, posed);
      if added.Err? {
        return added;
      }
      parts := added.value;
    }
    return Ok(parts);
  }

  /** A channel is accepted when some retained vertex moves and every posed normal is defined. */
  ghost predicate Usable(g: Geometry, delta: nat -> Vec, posed: NormalRule) {
    Moves(g.indices, delta) && posed(Posed(g.positions, delta), g.indices).Some?
  }

  /** Why a channel is not: posed normals are looked at first. */
  ghost function Failure(g: Geometry, delta: nat -> Vec, posed: NormalRule): ConvertError {
    if posed(Posed(g.positions, delta), g.indices).None? then PosedNormals else AllZero
  }

  ghost predicate UsableAt(g: Geometry, neutral: Obj, channels: seq<Channel>, posed: NormalRule, c: nat)
    requires SameLengths(neutral, channels)
  {
    c < |channels| && Usable(g, DeltaOf(g.transform, neutral, channels[c]), posed)
  }

  /** Channel `c` cannot be used, and the error says why. */
  ghost predicate Stops(error: ConvertError, g: Geometry, neutral: Obj, channels: seq<Channel>, posed: NormalRule,
                        c: nat)
    requires SameLengths(neutral, channels)
  {
    c < |channels| && !UsableAt(g, neutral, channels, posed, c)
    && error == Failure(g, DeltaOf(g.transform, neutral, channels[c]), posed)
  }

  /** The first channel from `c` on that cannot be used, or their number. */
  ghost function FirstUnusable(g: Geometry, neutral: Obj, channels: seq<Channel>, posed: NormalRule, c: nat): nat
    requires SameLengths(neutral, channels) && c <= |channels|
    decreases |channels| - c
  {
    if c == |channels| || !UsableAt(g, neutral, channels, posed, c) then c
    else FirstUnusable(g, neutral, channels, posed, c + 1)
  }

  lemma {:induction false} FirstUnusableMeans(g: Geometry, neutral: Obj, channels: seq<Channel>, posed: NormalRule,
                                              c: nat)
    requires SameLengths(neutral, channels) && c <= |channels|
    ensures var first := FirstUnusable(g, neutral, channels, posed, c);
            && c <= first <= |channels| && (first < |channels| ==> !UsableAt(g, neutral, channels, posed, first))
            && forall k: nat | c <= k < first :: UsableAt(g, neutral, channels, posed, k)
    decreases |channels| - c
  {
    if c < |channels| && UsableAt(g, neutral, channels, posed, c) {
      FirstUnusableMeans(g, neutral, channels, posed, c + 1);
    }
  }

  /** Every channel can be used. */
  ghost predicate AllUsable(g: Geometry, neutral: Obj, channels: seq<Channel>, posed: NormalRule)
    requires SameLengths(neutral, channels)
  {
    forall c: nat | c < |channels| :: UsableAt(g, neutral, channels, posed, c)
  }

  lemma SameMoves(original: seq<nat>, delta: nat -> Vec, same: nat -> Vec)
    requires forall v: nat :: delta(v) == same(v)
    ensures Moves(original, delta) <==> Moves(original, same)
  {
    if Moves(original, delta) {
      var i :| 0 <= i < |original| && Significant(delta(original[i]));
      assert Significant(same(original[i]));
    }
    if Moves(original, same) {
      var i :| 0 <= i < |original| && Significant(same(original[i]));
      assert Significant(delta(original[i]));
    }
  }

  lemma ExtendedAlike(before: Part, after: Part, name: Name, delta: nat -> Vec, turn: nat -> Vec, same: nat -> Vec,
                      sameTurn: nat -> Vec)
    requires Extended(before, after, name, delta, turn)
    requires forall v: nat :: delta(v) == same(v)
    requires forall v: nat :: turn(v) == sameTurn(v)
    ensures Extended(before, after, name, same, sameTurn)
  {
    SameMoves(before.original, delta, same);
  }

  // ---------------------------------------------------------------- the final validation

  function PositionTotal(parts: seq<Part>, n: nat): nat
    requires n <= |parts|
  {
    if n == 0 then 0 else PositionTotal(parts, n - 1) + |parts[n - 1].positions|
  }

  function IndexTotal(parts: seq<Part>, n: nat): nat
    requires n <= |parts|
  {
    if n == 0 then 0 else IndexTotal(parts, n - 1) + |parts[n - 1].indices|
  }

  function CornerTotal(groups: seq<Group>, n: nat): nat
    requires n <= |groups|
  {
    if n == 0 then 0 else CornerTotal(groups, n - 1) + |groups[n - 1].indices|
  }

  predicate MovesVisibly(target: Target) { exists p :: 0 <= p < |target.positions| && Significant(target.positions[p]) }

  /** The name belongs to a target that visibly moves something. */
  predicate Active(parts: seq<Part>, name: Name) {
    exists i :: 0 <= i < |parts| && exists k :: 0 <= k < |parts[i].targets| && parts[i].targets[k].name == name
                                      && MovesVisibly(parts[i].targets[k])
  }

  predicate HasTarget(part: Part) { |part.targets| > 0 }

  /** What the finished model is checked for. */
  predicate ModelValid(parts: seq<Part>) {
    && 1 <= |parts| <= 64 && PositionTotal(parts, |parts|) <= 100_000 && IndexTotal(parts, |parts|) <= 600_000
    && (forall i | 0 <= i < |parts| :: WellFormed(parts[i]))
    && (exists i :: 0 <= i < |parts| && HasTarget(parts[i]))
    && (forall i | 0 <= i < |parts| :: forall k | 0 <= k < |parts[i].targets| ::
                                         Active(parts, parts[i].targets[k].name))
  }

  /** The configured channels: some, at most the 52 of the rig, each once. */
  predicate Configured(channels: seq<Channel>) {
    1 <= |channels| <= 52 && forall c, d | 0 <= c < d < |channels| :: channels[c].name != channels[d].name
  }

  predicate Upright(normal: Vec) { Dot(normal, normal) > 0.000000000001 }

  predicate AllUpright(indices: seq<nat>, normals: nat -> Vec) {
    forall i | 0 <= i < |indices| :: Upright(normals(indices[i]))
  }

  lemma {:induction false} TakenAscends(original: seq<nat>, deltas: nat -> nat -> Vec, n: nat)
    ensures var taken := Taken(original, deltas, n);
            && |taken| <= n
            && (forall k, l | 0 <= k < l < |taken| :: taken[k] < taken[l])
            && (forall k | 0 <= k < |taken| :: Moves(original, deltas(taken[k])))
  {
    if n > 0 {
      TakenAscends(original, deltas, n - 1);
    }
  }

  lemma {:induction false} TakesMover(original: seq<nat>, deltas: nat -> nat -> Vec, n: nat, c: nat)
    requires c < n && Moves(original, deltas(c))
    ensures |Taken(original, deltas, n)| > 0
  {
    if c < n - 1 {
      TakesMover(original, deltas, n - 1, c);
    }
  }

  /** A group has at least the triangles of the face that opened it. */
  lemma {:induction false} GroupNotEmpty(faces: seq<Face>, split: SplitBy, excluded: set<Name>, key: Key, n: nat)
    requires n <= |faces| && key in KeysOf(faces, split, excluded, n)
    ensures KeptCount(faces, split, excluded, Some(key), n) > 0
  {
    var f :| 0 <= f < n && faces[f].material !in excluded && KeyOf(faces[f], split) == key;
    if f < n - 1 {
      assert key in KeysOf(faces, split, excluded, n - 1);
      GroupNotEmpty(faces, split, excluded, key, n - 1);
    }
  }

  lemma {:induction false} KeptWithin(faces: seq<Face>, split: SplitBy, excluded: set<Name>, key: Key, n: nat)
    requires n <= |faces| && Shaped(faces)
    ensures forall v | v in Kept(faces, split, excluded, Some(key), n) :: v in Kept(faces, split, excluded, None, n)
  {
    if n > 0 {
      KeptWithin(faces, split, excluded, key, n - 1);
    }
  }

  lemma {:induction false} KeptSomewhere(faces: seq<Face>, split: SplitBy, excluded: set<Name>, n: nat, v: nat)
      returns (key: Key)
    requires n <= |faces| && Shaped(faces) && v in Kept(faces, split, excluded, None, n)
    ensures key in KeysOf(faces, split, excluded, n) && v in Kept(faces, split, excluded, Some(key), n)
  {
    if v in Kept(faces, split, excluded, None, n - 1) {
      key := KeptSomewhere(faces, split, excluded, n - 1, v);
    } else {
      key := KeyOf(faces[n - 1], split);
      assert Selects(faces[n - 1], split, excluded, None);
    }
  }

  /** Every retained corner is in some group. */
  lemma InSomeGroup(groups: seq<Group>, faces: seq<Face>, split: SplitBy, excluded: set<Name>, v: nat) returns (i: nat)
    requires Shaped(faces) && GroupsAre(groups, faces, split, excluded, |faces|)
              && v in Kept(faces, split, excluded, None, |faces|)
    ensures i < |groups| && v in groups[i].indices
  {
    var key := KeptSomewhere(faces, split, excluded, |faces|, v);
    assert HasGroup(groups, key);
    i :| 0 <= i < |groups| && groups[i].key == key;
    assert Filled(groups[i], faces, split, excluded, |faces|);
  }

  /** What the split leaves of one part, whatever its targets. */
  ghost predicate Shaping(part: Part, group: Group, neutral: nat -> Vec, normals: nat -> Vec) {
    PartOf(part, group, neutral, normals) && 0 < |group.indices| && |group.indices| % 3 == 0
    && Distinct(group.indices) <= 100_000
  }

  lemma GroupShapes(part: Part, group: Group, faces: seq<Face>, split: SplitBy, excluded: set<Name>,
                    neutral: nat -> Vec, normals: nat -> Vec)
    requires Shaped(faces) && Filled(group, faces, split, excluded, |faces|)
    requires PartOf(part, group, neutral, normals) && Distinct(group.indices) <= 100_000
    ensures Shaping(part, group, neutral, normals)
  {
    KeptIsTriangles(faces, split, excluded, Some(group.key), |faces|);
    GroupNotEmpty(faces, split, excluded, group.key, |faces|);
    var triangles := KeptCount(faces, split, excluded, Some(group.key), |faces|);
    assert |group.indices| == 3 * triangles;
  }

  lemma TargetsFit(part: Part, channels: seq<Channel>, deltas: nat -> nat -> Vec, turns: nat -> nat -> Vec)
    requires Configured(channels) && Morphs(part, Names(channels), deltas, turns, |channels|)
    ensures |part.targets| <= 52
    ensures forall k, l | 0 <= k < l < |part.targets| :: part.targets[k].name != part.targets[l].name
    ensures forall k | 0 <= k < |part.targets| :: |part.targets[k].positions| == |part.original|
              && |part.targets[k].normals| == |part.original|
    ensures forall k | 0 <= k < |part.targets| :: MovesVisibly(part.targets[k])
  {
    var taken := Taken(part.original, deltas, |channels|);
    TakenAscends(part.original, deltas, |channels|);
    forall k | 0 <= k < |part.targets|
      ensures |part.targets[k].positions| == |part.original| && |part.targets[k].normals| == |part.original|
      ensures part.targets[k].name == channels[taken[k]].name && MovesVisibly(part.targets[k])
    {
      assert TargetIs(part.targets[k], part.original, Names(channels)(taken[k]), deltas(taken[k]), turns(taken[k]));
      var p :| 0 <= p < |part.original| && Significant(deltas(taken[k])(part.original[p]));
      assert part.targets[k].positions[p] == deltas(taken[k])(part.original[p]);
    }
  }

  lemma PartFits(part: Part, group: Group, neutral: nat -> Vec, normals: nat -> Vec, channels: seq<Channel>,
                 deltas: nat -> nat -> Vec, turns: nat -> nat -> Vec)
    requires Shaping(part.(targets := []), group, neutral, normals)
    requires Configured(channels) && Morphs(part, Names(channels), deltas, turns, |channels|)
    ensures |part.positions| == Distinct(group.indices) && |part.indices| == |group.indices|
    ensures WellFormed(part) <==> |group.indices| <= 600_000 && AllUpright(part.original, normals)
  {
    TargetsFit(part, channels, deltas, turns);
    SameElementsSameCount(part.original, group.indices);
    assert group.indices[0] in part.original;
    forall i | 0 <= i < |part.original|
      ensures Upright(normals(part.original[i])) <==> Dot(part.normals[i], part.normals[i]) > 0.000000000001
    {
      assert part.(targets := []).normals[i] == normals(part.original[i]);
    }
  }

  /** Each part has its group's number of vertices and corners. */
  ghost predicate Sized(parts: seq<Part>, groups: seq<Group>) {
    && |parts| == |groups|
    && forall i | 0 <= i < |parts| :: |parts[i].positions| == Distinct(groups[i].indices)
         && |parts[i].indices| == |groups[i].indices|
  }

  lemma {:induction false} TotalsAgree(parts: seq<Part>, groups: seq<Group>, n: nat)
    requires Sized(parts, groups) && n <= |parts|
    ensures PositionTotal(parts, n) == DistinctTotal(groups, n) && IndexTotal(parts, n) == CornerTotal(groups, n)
  {
    if n > 0 {
      TotalsAgree(parts, groups, n - 1);
    }
  }

  lemma {:induction false} CornersGrow(groups: seq<Group>, m: nat, n: nat)
    requires m <= n <= |groups|
    ensures CornerTotal(groups, m) <= CornerTotal(groups, n)
    decreases n
  {
    if m < n {
      CornersGrow(groups, m, n - 1);
    }
  }

  lemma EachBelowTotal(groups: seq<Group>, i: nat)
    requires i < |groups|
    ensures Distinct(groups[i].indices) <= DistinctTotal(groups, |groups|)
    ensures |groups[i].indices| <= CornerTotal(groups, |groups|)
  {
    DistinctGrows(groups, i + 1, |groups|);
    CornersGrow(groups, i + 1, |groups|);
  }

  /** What holds of part `i` of a morphed geometry. */
  lemma MorphedPart(parts: seq<Part>, g: Geometry, groups: seq<Group>, config: Config, neutral: Obj, split: SplitBy,
                    excludes: set<Name>,
                    channels: seq<Channel>, normals: NormalRule, posed: NormalRule, i: nat)
    requires Parsed(neutral.faces, |neutral.positions|) && SameLengths(neutral, channels) && Configured(channels)
    requires GeometryOf(g, groups, config, neutral.faces, neutral.positions, split, excludes, normals)
    requires PartsMorph(parts, g, neutral, channels, normals, posed, |channels|) && i < |parts|
    ensures i < |groups| && (forall v: nat :: v in parts[i].original <==> v in groups[i].indices)
    ensures forall v | v in parts[i].original :: v in g.indices
    ensures |parts[i].positions| == Distinct(groups[i].indices) && |parts[i].indices| == |groups[i].indices|
    ensures WellFormed(parts[i]) <==>
              |groups[i].indices| <= 600_000 && AllUpright(parts[i].original, normals(g.positions, g.indices).value)
    ensures forall k | 0 <= k < |parts[i].targets| :: MovesVisibly(parts[i].targets[k])
  {
    var positions, directions := At(g.positions), normals(g.positions, g.indices).value;
    var deltas, turns := Deltas(g.transform, neutral, channels), Turns(g, neutral, channels, normals, posed);
    assert parts[i].(targets := []) == g.parts[i].(targets := [])
        && PartOf(g.parts[i], groups[i], positions, directions);
    assert Filled(groups[i], neutral.faces, split, excludes, |neutral.faces|);
    EachBelowTotal(groups, i);
    GroupShapes(parts[i].(targets := []), groups[i], neutral.faces, split, excludes, positions, directions);
    PartFits(parts[i], groups[i], positions, directions, channels, deltas, turns);
    TargetsFit(parts[i], channels, deltas, turns);
    KeptWithin(neutral.faces, split, excludes, groups[i].key, |neutral.faces|);
  }

  ghost predicate AllPartsUpright(parts: seq<Part>, normals: nat -> Vec) {
    forall i | 0 <= i < |parts| :: AllUpright(parts[i].original, normals)
  }

  lemma UprightEverywhere(parts: seq<Part>, groups: seq<Group>, faces: seq<Face>, split: SplitBy, excludes: set<Name>,
                          normals: nat -> Vec)
    requires Shaped(faces) && GroupsAre(groups, faces, split, excludes, |faces|) && |parts| == |groups|
    requires forall i | 0 <= i < |parts| :: forall v: nat :: v in parts[i].original <==> v in groups[i].indices
    ensures AllPartsUpright(parts, normals) <==> AllUpright(Kept(faces, split, excludes, None, |faces|), normals)
  {
    var indices := Kept(faces, split, excludes, None, |faces|);
    if AllPartsUpright(parts, normals) {
      forall j | 0 <= j < |indices|
        ensures Upright(normals(indices[j]))
      {
        var i := InSomeGroup(groups, faces, split, excludes, indices[j]);
        assert AllUpright(parts[i].original, normals) && indices[j] in parts[i].original;
      }
    }
    if AllUpright(indices, normals) {
      forall i | 0 <= i < |parts|
        ensures AllUpright(parts[i].original, normals)
      {
        assert Filled(groups[i], faces, split, excludes, |faces|);
        KeptWithin(faces, split, excludes, groups[i].key, |faces|);
        forall k | 0 <= k < |parts[i].original|
          ensures Upright(normals(parts[i].original[k]))
        {
          assert parts[i].original[k] in groups[i].indices;
          assert parts[i].original[k] in indices;
        }
      }
    }
  }

  /** A usable channel becomes a target of some part. */
  lemma SomeTarget(parts: seq<Part>, g: Geometry, groups: seq<Group>, neutral: Obj, split: SplitBy, excludes: set<Name>,
                   channels: seq<Channel>, normals: NormalRule, posed: NormalRule)
    requires Shaped(neutral.faces) && GroupsAre(groups, neutral.faces, split, excludes, |neutral.faces|)
              && |parts| == |groups|
    requires SameLengths(neutral, channels) && |channels| > 0
    requires g.indices == Kept(neutral.faces, split, excludes, None, |neutral.faces|)
    requires forall i | 0 <= i < |parts| :: forall v: nat :: v in parts[i].original <==> v in groups[i].indices
    requires PartsMorph(parts, g, neutral, channels, normals, posed, |channels|)
    requires Usable(g, Deltas(g.transform, neutral, channels)(0), posed)
    ensures exists i :: 0 <= i < |parts| && HasTarget(parts[i])
  {
    var deltas := Deltas(g.transform, neutral, channels);
    var j :| 0 <= j < |g.indices| && Significant(deltas(0)(g.indices[j]));
    var i := InSomeGroup(groups, neutral.faces, split, excludes, g.indices[j]);
    assert g.indices[j] in parts[i].original;
    var p :| 0 <= p < |parts[i].original| && parts[i].original[p] == g.indices[j];
    assert Moves(parts[i].original, deltas(0));
    TakesMover(parts[i].original, deltas, |channels|, 0);
    assert Morphs(parts[i], Names(channels), deltas, Turns(g, neutral, channels, normals, posed), |channels|);
    assert HasTarget(parts[i]);
  }

  ghost predicate PartFitsGroup(part: Part, group: Group, normals: nat -> Vec) {
    SizedPart(part, group) && FitPart(part, group, normals) && Visible(part)
  }

  lemma EachPartFits(parts: seq<Part>, g: Geometry, groups: seq<Group>, config: Config, neutral: Obj, split: SplitBy,
                     excludes: set<Name>,
                     channels: seq<Channel>, normals: NormalRule, posed: NormalRule)
    requires Parsed(neutral.faces, |neutral.positions|) && SameLengths(neutral, channels) && Configured(channels)
    requires GeometryOf(g, groups, config, neutral.faces, neutral.positions, split, excludes, normals)
    requires PartsMorph(parts, g, neutral, channels, normals, posed, |channels|)
    ensures |parts| == |groups|
    ensures forall i | 0 <= i < |parts| :: PartFitsGroup(parts[i], groups[i], normals(g.positions, g.indices).value)
  {
    forall i | 0 <= i < |parts|
      ensures PartFitsGroup(parts[i], groups[i], normals(g.positions, g.indices).value)
    {
      MorphedPart(parts, g, groups, config, neutral, split, excludes, channels, normals, posed, i);
    }
  }

  /** Once every channel is usable, the final validation only asks for few enough corners and upright neutral
      normals. */
  lemma MorphedIsValid(parts: seq<Part>, g: Geometry, groups: seq<Group>, config: Config, neutral: Obj, split: SplitBy,
                       excludes: set<Name>,
                       channels: seq<Channel>, normals: NormalRule, posed: NormalRule)
    requires Parsed(neutral.faces, |neutral.positions|) && SameLengths(neutral, channels) && Configured(channels)
    requires GeometryOf(g, groups, config, neutral.faces, neutral.positions, split, excludes, normals)
    requires PartsMorph(parts, g, neutral, channels, normals, posed, |channels|)
    requires AllUsable(g, neutral, channels, posed)
    ensures ModelValid(parts)
       <==> CornerTotal(groups, |groups|) <= 600_000 && AllUpright(g.indices, normals(g.positions, g.indices).value)
  {
    var directions := normals(g.positions, g.indices).value;
    EachPartFits(parts, g, groups, config, neutral, split, excludes, channels, normals, posed);
    UprightEverywhere(parts, groups, neutral.faces, split, excludes, directions);
    assert UsableAt(g, neutral, channels, posed, 0);
    SomeTarget(parts, g, groups, neutral, split, excludes, channels, normals, posed);
    ValidByParts(parts, groups, directions);
  }

  ghost predicate SizedPart(part: Part, group: Group) {
    && (forall v: nat :: v in part.original <==> v in group.indices)
    && |part.positions| == Distinct(group.indices) && |part.indices| == |group.indices|
  }

  ghost predicate FitPart(part: Part, group: Group, normals: nat -> Vec) {
    WellFormed(part) <==> |group.indices| <= 600_000 && AllUpright(part.original, normals)
  }

  predicate Visible(part: Part) { forall k | 0 <= k < |part.targets| :: MovesVisibly(part.targets[k]) }

  lemma AllFit(parts: seq<Part>, groups: seq<Group>, normals: nat -> Vec)
    requires |parts| == |groups| && forall i | 0 <= i < |parts| :: FitPart(parts[i], groups[i], normals)
    requires CornerTotal(groups, |groups|) <= 600_000
    ensures (forall i | 0 <= i < |parts| :: WellFormed(parts[i])) <==> AllPartsUpright(parts, normals)
  {
    forall i | 0 <= i < |parts|
      ensures WellFormed(parts[i]) <==> AllUpright(parts[i].original, normals)
    {
      assert FitPart(parts[i], groups[i], normals);
      EachBelowTotal(groups, i);
    }
  }

  lemma {:induction false} ValidByParts(parts: seq<Part>, groups: seq<Group>, normals: nat -> Vec)
    requires 1 <= |parts| == |groups| <= 64 && DistinctTotal(groups, |groups|) <= 100_000
    requires forall i | 0 <= i < |parts| :: PartFitsGroup(parts[i], groups[i], normals)
    requires exists i :: 0 <= i < |parts| && HasTarget(parts[i])
    ensures ModelValid(parts) <==> CornerTotal(groups, |groups|) <= 600_000 && AllPartsUpright(parts, normals)
  {
    TotalsAgree(parts, groups, |parts|);
    EveryTargetActive(parts);
    if CornerTotal(groups, |groups|) <= 600_000 {
      AllFit(parts, groups, normals);
    }
  }

  lemma EveryTargetActive(parts: seq<Part>)
    requires forall i | 0 <= i < |parts| :: Visible(parts[i])
    ensures forall i | 0 <= i < |parts| :: forall k | 0 <= k < |parts[i].targets| ::
                                             Active(parts, parts[i].targets[k].name)
  {
  }

  // ---------------------------------------------------------------- conversion

  /** Everything a model needs beyond a neutral geometry: channels that can be used, not too many corners, and neutral
      normals that are not zero. */
  ghost predicate Convertible(g: Geometry, groups: seq<Group>, neutral: Obj, channels: seq<Channel>,
                              normals: NormalRule, posed: NormalRule)
    requires SameLengths(neutral, channels) && normals(g.positions, g.indices).Some?
  {
    && AllUsable(g, neutral, channels, posed)
    && CornerTotal(groups, |groups|) <= 600_000
    && AllUpright(g.indices, normals(g.positions, g.indices).value)
  }

  /** What comes after the neutral geometry `g`: the result for it, and the first thing that fails otherwise. */
  ghost predicate Concludes(r: Result<seq<Part>, ConvertError>, g: Geometry, groups: seq<Group>, neutral: Obj,
                            channels: seq<Channel>,
                            normals: NormalRule, posed: NormalRule)
    requires SameLengths(neutral, channels) && normals(g.positions, g.indices).Some?
  {
    match r
    case Ok(parts) =>
      Convertible(g, groups, neutral, channels, normals, posed)
      && PartsMorph(parts, g, neutral, channels, normals, posed, |channels|) && ModelValid(parts)
    case Err(error) =>
      if AllUsable(g, neutral, channels, posed)
      then error.Invalid? && !Convertible(g, groups, neutral, channels, normals, posed)
      else Stops(error, g, neutral, channels, posed, FirstUnusable(g, neutral, channels, posed, 0))
  }

  /** The channel loop and the final validation. */
  method Conclude(config: Config, g: Geometry, ghost groups: seq<Group>, neutral: Obj, split: SplitBy,
                  excludes: set<Name>,
                  channels: seq<Channel>, normals: NormalRule, posed: NormalRule)
                      returns (r: Result<seq<Part>, ConvertError>)
    requires Parsed(neutral.faces, |neutral.positions|) && SameLengths(neutral, channels) && Configured(channels)
    requires GeometryOf(g, groups, config, neutral.faces, neutral.positions, split, excludes, normals)
    requires forall i | 0 <= i < |g.parts| :: g.parts[i].targets == []
    ensures Concludes(r, g, groups, neutral, channels, normals, posed)
    ensures r != Err(Topology) && (r.Ok? ==> ModelValid(r.value))
  {
    FirstUnusableMeans(g, neutral, channels, posed, 0);
    NothingYet(g, neutral, channels, normals, posed);
    r := AddChannels(g, neutral, channels, normals, posed);
    if r.Ok? {
      MorphedIsValid(r.value, g, groups, config, neutral, split, excludes, channels, normals, posed);
      if !ModelValid(r.value) {
        return Err(Invalid);
      }
    }
  }

  /** `convert`: topology of every expression, neutral geometry, channels, final validation. It succeeds exactly for
      matching topologies, a faultless geometry and convertible channels, and else reports the first thing that
      fails. */
  method Convert(config: Config, neutral: Obj, split: SplitBy, excludes: set<Name>, channels: seq<Channel>,
                 normals: NormalRule, posed: NormalRule)
    returns (r: Result<seq<Part>, ConvertError>, ghost g: Option<Geometry>, ghost groups: seq<Group>)
    requires config.Valid() && Parsed(neutral.faces, |neutral.positions|) && Configured(channels)
    ensures r == Err(Topology) <==> !AllMatch(neutral, channels, |channels|)
    ensures r.Ok? ==> ModelValid(r.value)
    ensures r == Err(Topology) ==> g.None?
    ensures AllMatch(neutral, channels, |channels|) ==>
              var fault := GeometryFault(config, neutral.faces, neutral.positions, split, excludes, normals, groups);
              && (fault.Some? ==> r == Err(Neutral(fault.value)) && g.None?)
              && (fault.None? ==> g.Some?)
              && (1 <= |KeysOf(neutral.faces, split, excludes, |neutral.faces|)| <= 64 ==>
                    GroupsAre(groups, neutral.faces, split, excludes, |neutral.faces|))
    ensures g.Some? ==>
              && SameLengths(neutral, channels)
              && GeometryOf(g.value, groups, config, neutral.faces, neutral.positions, split, excludes, normals)
              && Concludes(r, g.value, groups, neutral, channels, normals, posed)
  {
    g, groups := None, [];
    var same := ValidateAll(neutral, channels);
    if !same {
      return Err(Topology), g, groups;
    }
    MatchingLengths(neutral, channels);
    var geometry, found := MakeGeometry(config, neutral.faces, neutral.positions, split, excludes, normals);
    groups := found;
    if geometry.Err? {
      return Err(Neutral(geometry.error)), g, groups;
    }
    g := Some(geometry.value);
    r := Conclude(config, geometry.value, found, neutral, split, excludes, channels, normals, posed);
  }

  /** A conversion's parts morph faithfully: for every part, vertex and weighting, evaluation gives the similarity's
      image of the weighted source pose, up to what the part's left-out channels could have added. */
  lemma ConversionIsFaithful(parts: seq<Part>, g: Geometry, groups: seq<Group>, config: Config, neutral: Obj,
                             split: SplitBy, excludes: set<Name>,
                             channels: seq<Channel>, normals: NormalRule, posed: NormalRule, weight: nat -> real,
                                 p: nat, i: nat)
    requires Parsed(neutral.faces, |neutral.positions|) && SameLengths(neutral, channels)
    requires GeometryOf(g, groups, config, neutral.faces, neutral.positions, split, excludes, normals)
    requires PartsMorph(parts, g, neutral, channels, normals, posed, |channels|)
    requires p < |parts| && WellFormed(parts[p]) && i < |parts[p].positions|
    ensures Sits(parts[p], g.transform, neutral.positions)
    ensures var part, deltas := parts[p], Deltas(g.transform, neutral, channels);
            Near(Blended(part, Shares(Taken(part.original, deltas, |channels|), weight), i, |part.targets|),
                 g.transform.Position(Add(neutral.positions[part.original[i]],
                                          Pose(neutral, channels, weight, part.original[i], |channels|))),
                 Slack(part.original, deltas, weight, |channels|))
  {
    PartStillSits(parts, g, groups, config, neutral, split, excludes, channels, normals, posed, p);
    MorphIsFaithful(parts[p], g.transform, neutral, channels, Names(channels),
                    Turns(g, neutral, channels, normals, posed), weight, i);
  }

  /** Adding targets leaves each corner where the split put it. */
  lemma PartStillSits(parts: seq<Part>, g: Geometry, groups: seq<Group>, config: Config, neutral: Obj, split: SplitBy,
                      excludes: set<Name>,
                      channels: seq<Channel>, normals: NormalRule, posed: NormalRule, p: nat)
    requires Parsed(neutral.faces, |neutral.positions|) && SameLengths(neutral, channels)
    requires GeometryOf(g, groups, config, neutral.faces, neutral.positions, split, excludes, normals)
    requires PartsMorph(parts, g, neutral, channels, normals, posed, |channels|)
    requires p < |parts|
    ensures Sits(parts[p], g.transform, neutral.positions)
  {
    SurfaceIsPreserved(g, groups, config, neutral.faces, neutral.positions, split, excludes, normals, (0, 0, 0));
    assert parts[p].(targets := []) == g.parts[p];
    assert Sits(g.parts[p], g.transform, neutral.positions);
  }

  /** The pose of a channel made from a single expression is that expression, moved into model space. */
  lemma PosedIsTheExpression(g: Geometry, neutral: Obj, channels: seq<Channel>, c: nat, v: nat)
    requires SameLengths(neutral, channels) && c < |channels| && |channels[c].sources| == 1
    requires g.positions == MovedAll(g.transform, neutral.positions) && v < |neutral.positions|
    ensures Posed(g.positions, Deltas(g.transform, neutral, channels)(c))[v]
              == g.transform.Position(channels[c].sources[0].positions[v])
  {
    var t, sources := g.transform, channels[c].sources;
    var p, q := neutral.positions[v], sources[0].positions[v];
    DeltaSumIsDelta(t, neutral.positions, sources, v, 1);
    assert Displacement(neutral.positions, sources, v, 1) == Add(ORIGIN, Sub(q, p)) == Sub(q, p);
    assert Deltas(t, neutral, channels)(c)(v) == t.Delta(Sub(q, p));
    PositionMoves(t, p, Sub(q, p));
    assert Add(p, Sub(q, p)) == q;
  }

  /** A channel alone at weight 1 gives a vertex of a part that carries it the normal of the posed surface there, before
      that is brought to unit length. */
  lemma PosedNormalIsReproduced(parts: seq<Part>, g: Geometry, groups: seq<Group>, config: Config, neutral: Obj,
                                split: SplitBy, excludes: set<Name>, channels: seq<Channel>, normals: NormalRule,
                                posed: NormalRule, c: nat, p: nat, i: nat)
    requires Parsed(neutral.faces, |neutral.positions|) && SameLengths(neutral, channels) && c < |channels|
    requires GeometryOf(g, groups, config, neutral.faces, neutral.positions, split, excludes, normals)
    requires PartsMorph(parts, g, neutral, channels, normals, posed, |channels|)
    requires UsableAt(g, neutral, channels, posed, c)
    requires p < |parts| && WellFormed(parts[p]) && i < |parts[p].normals|
    requires Moves(parts[p].original, Deltas(g.transform, neutral, channels)(c))
    ensures |parts[p].original| == |parts[p].normals|
    ensures var part, deltas := parts[p], Deltas(g.transform, neutral, channels);
            BlendedNormal(part, Shares(Taken(part.original, deltas, |channels|), Alone(c, 1.0)), i, |part.targets|)
              == posed(Posed(g.positions, deltas(c)), g.indices).value(part.original[i])
  {
    var part, deltas := parts[p], Deltas(g.transform, neutral, channels);
    var turns, v := Turns(g, neutral, channels, normals, posed), part.original[i];
    assert parts[p].(targets := []) == g.parts[p];
    assert PartOf(g.parts[p], groups[p], At(g.positions), normals(g.positions, g.indices).value);
    NormalIsWeighted(part, Names(channels), deltas, turns, |channels|, Alone(c, 1.0), i, |part.targets|);
    OneOfTaken(part.original, deltas, turns, c, 1.0, v, |channels|);
    var from, to := normals(g.positions, g.indices).value(v), posed(Posed(g.positions, deltas(c)), g.indices).value(v);
    assert part.normals[i] == from && turns(c)(v) == Sub(to, from);
    AllTheWay(from, to);
  }
}
