/** Curve envelopes and the timeline's cache of them (crates/audio2face3d-gui/src/core.rs, ui.rs). */
module Timelines {
  import opened Common
  import opened ClipModel
  import opened Clips

  const MAX_BUCKETS: nat := 4096

  datatype Range = Range(low: real, high: real)

  type Envelope = seq<Option<Range>>

  // ---------------------------------------------------------------- what an envelope is

  /** The part of the timeline that is drawn: pixel buckets over a time window. */
  datatype Window = Window(channel: nat, buckets: nat, start: Float, end: Float) {
    function Length(): nat { Min(buckets, MAX_BUCKETS) }

    predicate Proper() { start.Finite? && end.Finite? && start.value < end.value }

    /** The pixel bucket of a time, the last one taking the window's end. */
    function Bucket(time: real): int
      requires Proper()
    {
      Min(((time - start.value) / (end.value - start.value) * Length() as real).Floor, Length() - 1)
    }

    predicate Shows(time: real)
      requires Proper()
    {
      start.value <= time <= end.value
    }
  }

  lemma BucketInRange(w: Window, time: real)
    requires w.Proper() && w.Shows(time) && w.Length() > 0
    ensures 0 <= w.Bucket(time) < w.Length()
  {
    var part, whole := time - w.start.value, w.end.value - w.start.value;
    assert part / whole >= 0.0;
    assert part / whole * w.Length() as real >= 0.0;
  }

  function Merge(range: Option<Range>, value: real): Range {
    match range
    case None => Range(value, value)
    case Some(r) => Range(MinReal(r.low, value), MaxReal(r.high, value))
  }

  /** Whether frame `i` falls into bucket `b` of the window. */
  predicate Falls(frames: seq<CurveSample>, w: Window, b: int, i: nat)
    requires w.Proper() && i < |frames|
  {
    w.Shows(frames[i].time) && w.Bucket(frames[i].time) == b
  }

  predicate Wide(frames: seq<CurveSample>, channel: nat) {
    forall i | 0 <= i < |frames| :: channel < |frames[i].values|
  }

  /** The smallest and largest value among the first `n` frames that fall into bucket `b`. */
  function Peak(frames: seq<CurveSample>, w: Window, b: int, n: nat): Option<Range>
    requires w.Proper() && Wide(frames, w.channel) && n <= |frames|
  {
    if n == 0 then None
    else
      var rest := Peak(frames, w, b, n - 1);
      if Falls(frames, w, b, n - 1) then Some(Merge(rest, frames[n - 1].values[w.channel])) else rest
  }

  /** A bucket is empty exactly when no frame falls into it; otherwise its range is attained and bounds
      every frame in it, so no short peak is lost. */
  lemma {:induction false} PeakIsMinMax(frames: seq<CurveSample>, w: Window, b: int, n: nat)
    requires w.Proper() && Wide(frames, w.channel) && n <= |frames|
    ensures var p := Peak(frames, w, b, n);
            && (p.None? <==> forall i: nat | i < n :: !Falls(frames, w, b, i))
            && (p.Some? ==>
                  && (forall i: nat | i < n
                      && Falls(frames, w, b, i) :: p.value.low <= frames[i].values[w.channel] <= p.value.high)
                  && (exists i: nat | i < n && Falls(frames, w, b, i) :: frames[i].values[w.channel] == p.value.low)
                  && (exists i: nat | i < n && Falls(frames, w, b, i) :: frames[i].values[w.channel] == p.value.high))
  {
    if n > 0 {
      PeakIsMinMax(frames, w, b, n - 1);
      var rest := Peak(frames, w, b, n - 1);
      if Falls(frames, w, b, n - 1) {
        var value := frames[n - 1].values[w.channel];
        assert Falls(frames, w, b, n - 1);
        if rest.Some? {
          var low: nat :| low < n - 1 && Falls(frames, w, b, low) && frames[low].values[w.channel] == rest.value.low;
          var high: nat :| high < n - 1 && Falls(frames, w, b, high)
              && frames[high].values[w.channel] == rest.value.high;
          assert frames[if rest.value.low <= value then low else n - 1].values[w.channel]
              == Peak(frames, w, b, n).value.low;
          assert frames[if rest.value.high <= value then n - 1 else high].values[w.channel]
              == Peak(frames, w, b, n).value.high;
        }
      }
    }
  }

  predicate Drawable(v: ClipView, w: Window) { w.channel < |v.names| && w.Length() > 0 && w.Proper() }

  lemma WideFrames(v: ClipView, channel: nat)
    requires Consistent(v) && channel < |v.names|
    ensures Wide(v.frames, channel)
  {
    forall i | 0 <= i < |v.frames|
      ensures channel < |v.frames[i].values|
    {
      FramesAscend(v.frames, |v.names|, |v.frames|, i, i);
    }
  }

  /** What `envelope_range` must return for a clip. */
  ghost function EnvelopeOf(v: ClipView, w: Window): (r: Envelope)
    requires Consistent(v)
    ensures |r| == w.Length()
    ensures forall b | 0 <= b < |r| && !Drawable(v, w) :: r[b].None?
  {
    if Drawable(v, w) then
      WideFrames(v, w.channel);
      seq(w.Length(), b requires 0 <= b < w.Length() => Peak(v.frames, w, b, |v.frames|))
    else seq(w.Length(), b => None)
  }

  /** Every frame of the window is counted in one bucket of the envelope, and in no other one. */
  lemma CountedOnce(frames: seq<CurveSample>, w: Window, i: nat, b: int)
    requires i < |frames| && w.Proper() && w.Length() > 0
    ensures w.Shows(frames[i].time) ==>
              0 <= w.Bucket(frames[i].time) < w.Length() && Falls(frames, w, w.Bucket(frames[i].time), i)
    ensures Falls(frames, w, b, i) ==> w.Shows(frames[i].time) && b == w.Bucket(frames[i].time)
  {
    if w.Shows(frames[i].time) {
      BucketInRange(w, frames[i].time);
    }
  }

  /** The envelope's ranges are the exact extremes of their buckets. */
  lemma EnvelopeIsMinMax(v: ClipView, w: Window, b: nat)
    requires Consistent(v) && Drawable(v, w) && b < w.Length()
    ensures Wide(v.frames, w.channel)
    ensures var p := EnvelopeOf(v, w)[b];
            && (p.None? <==> forall i: nat | i < |v.frames| :: !Falls(v.frames, w, b, i))
            && (forall i: nat | i < |v.frames| && Falls(v.frames, w, b, i) :: Spans(p, v.frames[i].values, w.channel))
            && (p.Some? ==> Attained(v.frames, w, b, p.value.low) && Attained(v.frames, w, b, p.value.high))
  {
    WideFrames(v, w.channel);
    PeakIsMinMax(v.frames, w, b, |v.frames|);
  }

  /** The times that pixel column `b` of `n` stands for: the window cut into n parts of equal width, the last one with
      its end. */
  predicate InColumn(start: real, end: real, n: nat, b: nat, time: real)
    requires n > 0
  {
    var width := (end - start) / n as real;
    && start + b as real * width <= time
    && (time < start + (b + 1) as real * width || (b == n - 1 && time <= end))
  }

  lemma Scaled(x: real, factor: real)
    requires factor > 0.0
    ensures x * factor >= 0.0 <==> x >= 0.0
  {
  }

  /** How far in the window, in widths: at least b exactly from the start of column b on. */
  lemma ColumnBound(part: real, width: real, scaled: real, b: real)
    requires width > 0.0 && scaled * width == part
    ensures scaled >= b <==> part >= b * width
  {
    assert (scaled - b) * width == part - b * width;
    Scaled(scaled - b, width);
  }

  lemma ColumnInside(width: real, whole: real, n: real, c: real, d: real)
    requires width > 0.0 && 0.0 <= c && d <= n && whole == width * n
    ensures 0.0 <= c * width && d * width <= whole
  {
    Scaled(c, width);
    Scaled(n - d, width);
    assert (n - d) * width == width * n - d * width;
  }

  /** `scaled` is how many columns in, `part` how far in, and `lo` and `hi` where the column starts and ends. */
  lemma FloorIsColumn(part: real, whole: real, scaled: real, lo: real, hi: real, n: nat, b: nat)
    requires b < n && 0.0 <= lo && hi <= whole
    requires (scaled >= b as real <==> part >= lo) && (scaled >= (b + 1) as real <==> part >= hi)
    requires part >= 0.0 <==> scaled >= 0.0
    ensures 0.0 <= part <= whole && Min(scaled.Floor, n - 1) == b
       <==> lo <= part && (part < hi || (b == n - 1 && part <= whole))
  {
  }

  lemma DepthIsColumn(part: real, whole: real, width: real, scaled: real, n: nat, b: nat, c: real, d: real)
    requires width > 0.0 && scaled * width == part && width * n as real == whole
    requires b < n && c == b as real && d == (b + 1) as real
    ensures 0.0 <= part <= whole && Min(scaled.Floor, n - 1) == b
       <==> c * width <= part && (part < d * width || (b == n - 1 && part <= whole))
  {
    ColumnBound(part, width, scaled, c);
    ColumnBound(part, width, scaled, d);
    Scaled(scaled, width);
    ColumnInside(width, whole, n as real, c, d);
    FloorIsColumn(part, whole, scaled, c * width, d * width, n, b);
  }

  lemma WidthOf(part: real, whole: real, n: nat) returns (width: real)
    requires whole > 0.0 && n > 0
    ensures width == whole / n as real && width > 0.0 && whole == width * n as real
    ensures part / whole * n as real * width == part
  {
    width := whole / n as real;
    Scaled(width, n as real);
    assert part / whole * whole == part;
  }

  /** A time of the window falls into bucket `b` exactly when it lies in column `b`. */
  lemma BucketIsColumn(w: Window, time: real, b: nat)
    requires w.Proper() && w.Length() > 0 && b < w.Length()
    ensures w.Shows(time) && w.Bucket(time) == b <==> InColumn(w.start.value, w.end.value, w.Length(), b, time)
  {
    var part, whole, n := time - w.start.value, w.end.value - w.start.value, w.Length();
    var width := WidthOf(part, whole, n);
    DepthIsColumn(part, whole, width, part / whole * n as real, n, b, b as real, (b + 1) as real);
  }

  /** The range drawn in column `b` of `n`: nothing exactly when no frame has a time in the column, and otherwise the
      least and the greatest value of the frames that have. */
  ghost predicate Draws(frames: seq<CurveSample>, channel: nat, start: real, end: real, n: nat, b: nat,
                        p: Option<Range>)
    requires n > 0 && Wide(frames, channel)
  {
    && (p.None? <==> forall i: nat | i < |frames| :: !InColumn(start, end, n, b, frames[i].time))
    && (p.Some? ==>
          && (forall i: nat | i < |frames| && InColumn(start, end, n, b, frames[i].time) ::
                p.value.low <= frames[i].values[channel] <= p.value.high)
          && (exists i: nat | i < |frames| && InColumn(start, end, n, b, frames[i].time) ::
                frames[i].values[channel] == p.value.low)
          && (exists i: nat | i < |frames| && InColumn(start, end, n, b, frames[i].time) ::
                frames[i].values[channel] == p.value.high))
  }

  /** The envelope in terms of time: at most 4096 columns of equal width, each with the exact extremes of its frames. */
  lemma EnvelopeInTime(v: ClipView, w: Window, b: nat)
    requires Consistent(v) && w.channel < |v.names| && w.Proper()
    requires b < |EnvelopeOf(v, w)|
    ensures |EnvelopeOf(v, w)| == (if w.buckets <= 4096 then w.buckets else 4096) && Wide(v.frames, w.channel)
    ensures Draws(v.frames, w.channel, w.start.value, w.end.value, |EnvelopeOf(v, w)|, b, EnvelopeOf(v, w)[b])
  {
    WideFrames(v, w.channel);
    PeakIsMinMax(v.frames, w, b, |v.frames|);
    forall i: nat | i < |v.frames|
      ensures Falls(v.frames, w, b, i) <==> InColumn(w.start.value, w.end.value, w.Length(), b, v.frames[i].time)
    {
      BucketIsColumn(w, v.frames[i].time, b);
    }
  }

  predicate Spans(p: Option<Range>, values: seq<real>, channel: nat) {
    p.Some? && channel < |values| && p.value.low <= values[channel] <= p.value.high
  }

  predicate Attained(frames: seq<CurveSample>, w: Window, b: int, value: real)
    requires w.Proper() && Wide(frames, w.channel)
  {
    exists i: nat | i < |frames| && Falls(frames, w, b, i) :: frames[i].values[w.channel] == value
  }

  // ---------------------------------------------------------------- computing it

  /** The partition point of `time < bound` (or `<= bound`) among the first `n` frames. */
  function Before(frames: seq<CurveSample>, bound: real, inclusive: bool, n: nat): (k: nat)
    requires n <= |frames|
    ensures k <= n
  {
    if n == 0 then 0
    else if frames[n - 1].time < bound || (inclusive && frames[n - 1].time == bound) then n
    else Before(frames, bound, inclusive, n - 1)
  }

  lemma {:induction false} BeforeSplits(frames: seq<CurveSample>, width: nat, bound: real, inclusive: bool, n: nat)
    requires n <= |frames| && FramesOrdered(frames, width, n)
    ensures var k := Before(frames, bound, inclusive, n);
            && (forall i | 0 <= i < k :: frames[i].time < bound || (inclusive && frames[i].time == bound))
            && (forall i | k <= i < n :: frames[i].time > bound || (!inclusive && frames[i].time == bound))
  {
    if n > 0 {
      if Before(frames, bound, inclusive, n) == n {
        forall i | 0 <= i < n
          ensures frames[i].time < bound || (inclusive && frames[i].time == bound)
        {
          FramesAscend(frames, width, n, i, n - 1);
        }
      } else {
        BeforeSplits(frames, width, bound, inclusive, n - 1);
      }
    }
  }

  lemma {:induction false} BeforeGrows(frames: seq<CurveSample>, start: real, end: real, n: nat)
    requires n <= |frames| && start <= end
    ensures Before(frames, start, false, n) <= Before(frames, end, true, n)
  {
    if n > 0 {
      BeforeGrows(frames, start, end, n - 1);
    }
  }

  /** Frames outside the window add nothing. */
  lemma {:induction false} PeakSkips(frames: seq<CurveSample>, w: Window, b: int, m: nat, n: nat)
    requires w.Proper() && Wide(frames, w.channel) && m <= n <= |frames|
    requires forall i | m <= i < n :: !w.Shows(frames[i].time)
    ensures Peak(frames, w, b, n) == Peak(frames, w, b, m)
    decreases n
  {
    if m < n {
      PeakSkips(frames, w, b, m, n - 1);
    }
  }

  method EnvelopeRange(clip: Clip, w: Window) returns (r: Envelope)
    requires clip.Valid()
    ensures r == EnvelopeOf(clip.View(), w)
  {
    var frames, length := clip.frames, w.Length();
    var result := new Option<Range>[length](_ => None);
    if w.channel >= |clip.names| || length == 0 || !w.Proper() {
      return result[..];
    }
    WideFrames(clip.View(), w.channel);
    var first := Before(frames, w.start.value, false, |frames|);
    var last := Before(frames, w.end.value, true, |frames|);
    BeforeSplits(frames, |clip.names|, w.start.value, false, |frames|);
    BeforeSplits(frames, |clip.names|, w.end.value, true, |frames|);
    BeforeGrows(frames, w.start.value, w.end.value, |frames|);
    forall b
      ensures Peak(frames, w, b, first) == None
    {
      PeakSkips(frames, w, b, 0, first);
    }
    for i := first to last
      invariant clip.frames == frames && result.Length == length
      invariant forall b | 0 <= b < length :: result[b] == Peak(frames, w, b, i)
    {
      BucketInRange(w, frames[i].time);
      var index := w.Bucket(frames[i].time);
      result[index] := Some(Merge(result[index], frames[i].values[w.channel]));
    }
    forall b
      ensures Peak(frames, w, b, |frames|) == Peak(frames, w, b, last)
    {
      PeakSkips(frames, w, b, last, |frames|);
    }
    return result[..];
  }

  // ---------------------------------------------------------------- the cache as a value

  datatype TimelineView = TimelineView(
    clipId: Option<nat>,
    layoutRevision: nat,
    curveRevision: nat,
    width: nat,
    start: Float,
    end: Float,
    cache: map<nat, Envelope>)
  {
    function WindowFor(channel: nat): Window { Window(channel, width, start, end) }

    predicate UpToDate(v: ClipView) {
      clipId == Some(v.id) && layoutRevision == v.revisions.layout && curveRevision == v.revisions.curves
    }
  }

  /** Every cached entry is what a fresh computation on this clip would return. */
  ghost predicate AllFresh(t: TimelineView, v: ClipView)
    requires Consistent(v)
  {
    forall channel | channel in t.cache :: channel < |v.names|
        && t.cache[channel] == EnvelopeOf(v, t.WindowFor(channel))
  }

  /** A timeline that names this clip saw it no later than now, and is fresh if its counters still match. */
  ghost predicate Faithful(t: TimelineView, v: ClipView)
    requires Consistent(v)
  {
    t.clipId == Some(v.id) ==>
      && t.layoutRevision <= v.revisions.layout && t.curveRevision <= v.revisions.curves
      && (t.UpToDate(v) ==> AllFresh(t, v))
  }

  /** Same layout and curve counters mean same names and frames, so nothing that happens to a clip makes a fresh entry
      stale unnoticed. */
  lemma EvolvingStaysFaithful(t: TimelineView, v: ClipView, w: ClipView)
    requires Consistent(v) && Consistent(w) && Evolves(v, w) && Faithful(t, v)
    ensures Faithful(t, w)
  {
    if t.UpToDate(w) {
      assert t.UpToDate(v);
      assert v.names == w.names && v.frames == w.frames;
    }
  }

  /** All clips that ever were, by identity, and one timeline. */
  ghost predicate WorldFaithful(t: TimelineView, world: map<nat, ClipView>) {
    && (forall id | id in world :: world[id].id == id && Consistent(world[id]) && Faithful(t, world[id]))
    && (t.clipId.Some? ==> t.clipId.value in world)
  }

  datatype WorldEvent =
    | Create(clip: ClipView)
    | Evolve(clip: ClipView)
    | Prepare(id: nat, selected: seq<nat>, width: nat, start: Float, end: Float)

  ghost predicate Possible(world: map<nat, ClipView>, e: WorldEvent) {
    match e
    case Create(clip) => clip.id !in world && Consistent(clip)
    case Evolve(clip) => clip.id in world && Consistent(clip) && Evolves(world[clip.id], clip)
    case Prepare(id, _, _, _, _) => id in world
  }

  function NextWorld(world: map<nat, ClipView>, e: WorldEvent): map<nat, ClipView> {
    if e.Prepare? then world else world[e.clip.id := e.clip]
  }

  /** `prepare` on values: forget what belongs to another clip, revision, width or range, then fill in what is
      missing. */
  ghost function Prepared(t: TimelineView, v: ClipView, selected: seq<nat>, width: nat, start: Float,
                          end: Float): TimelineView
    requires Consistent(v)
  {
    if !Window(0, width, start, end).Proper() then t.(cache := map[], clipId := None)
    else
      var current := t.UpToDate(v) && t.width == width && t.start == start && t.end == end;
      var base := if current then t
          else TimelineView(Some(v.id), v.revisions.layout, v.revisions.curves, width, start, end, map[]);
      base.(cache := Filled(base, v, selected, |selected|))
  }

  ghost function Filled(t: TimelineView, v: ClipView, selected: seq<nat>, n: nat): map<nat, Envelope>
    requires Consistent(v) && n <= |selected|
  {
    if n == 0 then t.cache
    else
      var rest := Filled(t, v, selected, n - 1);
      var channel := selected[n - 1];
      if channel >= |v.names| || channel in rest then rest else rest[channel := EnvelopeOf(v, t.WindowFor(channel))]
  }

  lemma {:induction false} FilledIsFresh(t: TimelineView, v: ClipView, selected: seq<nat>, n: nat)
    requires Consistent(v) && AllFresh(t, v) && n <= |selected|
    ensures AllFresh(t.(cache := Filled(t, v, selected, n)), v)
    ensures forall i | 0 <= i < n :: selected[i] < |v.names| ==> selected[i] in Filled(t, v, selected, n)
  {
    if n > 0 {
      FilledIsFresh(t, v, selected, n - 1);
    }
  }

  lemma {:induction false} FilledKeys(t: TimelineView, v: ClipView, selected: seq<nat>, n: nat)
    requires Consistent(v) && n <= |selected|
    ensures forall channel: nat ::
              channel in Filled(t, v, selected, n)
              <==> channel in t.cache || (channel < |v.names| && channel in selected[..n])
    ensures forall channel | channel in t.cache ::
              channel in Filled(t, v, selected, n) && Filled(t, v, selected, n)[channel] == t.cache[channel]
  {
    if n > 0 {
      FilledKeys(t, v, selected, n - 1);
      assert selected[..n] == selected[..n - 1] + [selected[n - 1]];
    }
  }

  /** With clip, revisions, width and range unchanged every entry is kept, untouched; with any of them changed all are
      dropped. Only selected channels of the layout are added. */
  lemma PrepareReuses(t: TimelineView, v: ClipView, selected: seq<nat>, width: nat, start: Float, end: Float)
    requires Consistent(v) && start.Finite? && end.Finite? && start.value < end.value
    ensures var u := Prepared(t, v, selected, width, start, end);
            var same := t.clipId == Some(v.id) && t.layoutRevision == v.revisions.layout
                && t.curveRevision == v.revisions.curves && t.width == width && t.start == start && t.end == end;
            && (forall channel: nat ::
                  channel in u.cache <==> (same && channel in t.cache) || (channel < |v.names| && channel in selected))
            && (same ==> forall channel | channel in t.cache :: u.cache[channel] == t.cache[channel])
  {
    var same := t.UpToDate(v) && t.width == width && t.start == start && t.end == end;
    var base := if same then t
        else TimelineView(Some(v.id), v.revisions.layout, v.revisions.curves, width, start, end, map[]);
    FilledKeys(base, v, selected, |selected|);
    assert selected[..|selected|] == selected;
  }

  /** After `prepare` every cached entry, old or new, is fresh, and every selected channel of the layout is there. */
  lemma PrepareIsFresh(t: TimelineView, v: ClipView, selected: seq<nat>, width: nat, start: Float, end: Float)
    requires Consistent(v) && Faithful(t, v)
    ensures var u := Prepared(t, v, selected, width, start, end);
            && Faithful(u, v) && AllFresh(u, v) && (u.clipId == None || u.clipId == Some(v.id))
            && (u.clipId.Some? ==> u.width == width && u.start == start && u.end == end)
            && (u.clipId.Some? ==> forall i | 0 <= i < |selected| && selected[i] < |v.names| :: selected[i] in u.cache)
  {
    if Window(0, width, start, end).Proper() {
      var current := t.UpToDate(v) && t.width == width && t.start == start && t.end == end;
      var base := if current then t
          else TimelineView(Some(v.id), v.revisions.layout, v.revisions.curves, width, start, end, map[]);
      FilledIsFresh(base, v, selected, |selected|);
    }
  }

  ghost function TimelineAfter(t: TimelineView, world: map<nat, ClipView>, events: seq<WorldEvent>,
                               n: nat): (TimelineView, map<nat, ClipView>)
    requires n <= |events|
  {
    if n == 0 then (t, world)
    else
      var (u, now) := TimelineAfter(t, world, events, n - 1);
      (NextTimeline(u, now, events[n - 1]), NextWorld(now, events[n - 1]))
  }

  ghost function NextTimeline(t: TimelineView, world: map<nat, ClipView>, e: WorldEvent): TimelineView {
    if e.Prepare? && e.id in world && Consistent(world[e.id])
        then Prepared(t, world[e.id], e.selected, e.width, e.start, e.end) else t
  }

  lemma WorldStep(t: TimelineView, world: map<nat, ClipView>, e: WorldEvent)
    requires WorldFaithful(t, world) && Possible(world, e)
    ensures WorldFaithful(NextTimeline(t, world, e), NextWorld(world, e))
    ensures e.Prepare? ==> Consistent(world[e.id]) && AllFresh(NextTimeline(t, world, e), world[e.id])
  {
    match e {
      case Create(clip) =>
        assert t.clipId != Some(clip.id);
      case Evolve(clip) =>
        EvolvingStaysFaithful(t, world[clip.id], clip);
      case Prepare(id, selected, width, start, end) =>
        PrepareIsFresh(t, world[id], selected, width, start, end);
    }
  }

  /** For every sequence of clip mutations, clip replacements and `prepare` calls the cache stays faithful
      to all clips at once, and right after a `prepare` each entry equals a fresh envelope. */
  lemma {:induction false} CacheIsCorrect(t: TimelineView, world: map<nat, ClipView>, events: seq<WorldEvent>, n: nat)
    requires n <= |events| && WorldFaithful(t, world)
    requires forall i | 0 <= i < n :: Possible(TimelineAfter(t, world, events, i).1, events[i])
    ensures var (u, now) := TimelineAfter(t, world, events, n); WorldFaithful(u, now)
    ensures n > 0 && events[n - 1].Prepare? ==>
              var (u, now) := TimelineAfter(t, world, events, n);
              events[n - 1].id in now && Consistent(now[events[n - 1].id]) && AllFresh(u, now[events[n - 1].id])
  {
    if n > 0 {
      CacheIsCorrect(t, world, events, n - 1);
      var (before, past) := TimelineAfter(t, world, events, n - 1);
      WorldStep(before, past, events[n - 1]);
    }
  }

  // ---------------------------------------------------------------- the timeline

  class Timeline {
    var clipId: Option<nat>
    var layoutRevision: nat
    var curveRevision: nat
    var width: nat
    var start: Float
    var end: Float
    var cache: map<nat, Envelope>
    var zoom: real
    var offset: real

    function View(): TimelineView
      reads this
    {
      TimelineView(clipId, layoutRevision, curveRevision, width, start, end, cache)
    }

    method Prepare(clip: Clip, selected: seq<nat>, pixels: nat, from: Float, to: Float) returns (names: seq<string>)
      requires clip.Valid()
      modifies this`clipId, this`layoutRevision, this`curveRevision, this`width, this`start, this`end, this`cache
      ensures View() == Prepared(old(View()), clip.View(), selected, pixels, from, to)
      ensures names == if Window(0, pixels, from, to).Proper() then clip.names else []
    {
      ghost var v := clip.View();
      if !Window(0, pixels, from, to).Proper() {
        cache, clipId := map[], None;
        return [];
      }
      if clipId != Some(clip.id) || layoutRevision != clip.revisions.layout || curveRevision != clip.revisions.curves
         || width != pixels || start != from || end != to
      {
        cache, clipId := map[], Some(clip.id);
        layoutRevision, curveRevision := clip.revisions.layout, clip.revisions.curves;
        width, start, end := pixels, from, to;
      }
      ghost var base := View();
      for i := 0 to |selected|
        invariant clip.Valid() && clip.View() == v
        invariant View() == base.(cache := Filled(base, v, selected, i))
      {
        var channel := selected[i];
        if channel < |clip.names| && channel !in cache {
          var envelope := EnvelopeRange(clip, Window(channel, pixels, from, to));
          cache := cache[channel := envelope];
        }
      }
      return clip.names;
    }

    /** Recentres only when the playhead lies outside the visible range; afterwards it never does. */
    method RevealPosition(time: real, duration: real)
      modifies this`zoom, this`offset
      ensures 1.0 <= zoom <= 10.0
      ensures var whole := MaxReal(duration, 0.000001);
              var head := MaxReal(0.0, MinReal(time, whole));
              && 0.0 <= offset <= whole - whole / zoom
              && offset <= head <= offset + whole / zoom
      ensures var whole := MaxReal(duration, 0.000001);
              old(1.0 <= zoom <= 10.0 && 0.0 <= offset <= whole - whole / zoom && 0.0 <= time <= whole
                  && offset <= time <= offset + whole / zoom)
              ==> offset == old(offset) && zoom == old(zoom)
      ensures zoom == MaxReal(1.0, MinReal(old(zoom), 10.0))
      ensures var whole := MaxReal(duration, 0.000001);
              var span, head := whole / zoom, MaxReal(0.0, MinReal(time, whole));
              var from := MaxReal(0.0, MinReal(old(offset), whole - span));
              if from <= head <= from + span then offset == from
              else || (offset + span * 0.5 == head) || (offset == 0.0 && head < span * 0.5)
                   || (offset == whole - span && head > whole - span * 0.5)
    {
      var whole := MaxReal(duration, 0.000001);
      zoom := MaxReal(1.0, MinReal(zoom, 10.0));
      var span := whole / zoom;
      SpanFits(whole, zoom);
      offset := MaxReal(0.0, MinReal(offset, whole - span));
      var head := MaxReal(0.0, MinReal(time, whole));
      if head < offset || head > offset + span {
        offset := MaxReal(0.0, MinReal(head - span * 0.5, whole - span));
      }
    }
  }

  lemma SpanFits(whole: real, zoom: real)
    requires whole > 0.0 && zoom >= 1.0
    ensures 0.0 < whole / zoom <= whole
  {
    var span := whole / zoom;
    assert span * zoom == whole;
    assert span > 0.0;
    assert span * 1.0 <= span * zoom;
  }
}
