/** What a clip's fields mean (crates/audio2face3d-gui/src/core.rs): its value, the
    invariant of every reachable clip, and the order in which one clip may evolve. */
module ClipModel {
  import opened Common
  import opened AudioTracks

  const SAMPLE_RATE: nat := 16_000
  const MAX_SECONDS: real := 600.0
  const MAX_SAMPLES: nat := 9_600_000
  const MAX_BYTES: nat := 268_435_456
  const BUDGET: nat := MAX_BYTES - 262_144
  const CURVE_SAMPLE_BYTES: nat := 32
  const EMOTION_BYTES: nat := 32
  // One AudioBlock, two handle slots and the two Arc counters, on a 64-bit target.
  const BLOCK_OVERHEAD: nat := 24 + 2 * 8 + 2 * 8

  datatype SessionState = Idle | Running | Completed | Failed(message: string) | Cancelled {
    predicate Receiving() { Idle? || Running? }
  }

  datatype CurveSample = CurveSample(time: real, values: seq<real>, capacity: nat)

  /** `nameBytes` is what the frame's sparse name map is charged for: each name's allocation and 128 bytes. */
  datatype EmotionFrame = EmotionFrame(time: real, nameBytes: nat)

  datatype ClipRevision = ClipRevision(layout: nat, audio: nat, curves: nat, emotions: nat, collection: nat) {
    function Sum(): nat { layout + audio + curves + emotions + collection }
  }

  datatype Change = Layout | Audio | Curves | Emotions | Collection

  function Bump(r: ClipRevision, change: Change): ClipRevision {
    match change
    case Layout => r.(layout := r.layout + 1)
    case Audio => r.(audio := r.audio + 1)
    case Curves => r.(curves := r.curves + 1)
    case Emotions => r.(emotions := r.emotions + 1)
    case Collection => r.(collection := r.collection + 1)
  }

  datatype ClipView = ClipView(
    id: nat,
    names: seq<string>,
    namesBytes: nat,
    frames: seq<CurveSample>,
    blocks: seq<AudioBlock>,
    emotions: seq<EmotionFrame>,
    session: SessionState,
    revision: nat,
    revisions: ClipRevision,
    curveEnd: real,
    curveGap: bool,
    retained: nat)

  /** A new clip. */
  function EmptyClip(identity: nat, session: SessionState): ClipView {
    ClipView(identity, [], 0, [], [], [], session, 0, ClipRevision(0, 0, 0, 0, 0), 0.0, false, 0)
  }

  // ---------------------------------------------------------------- memory accounting

  function BlockCost(samples: nat): nat {
    if samples == 0 then 0 else 4 * samples + BLOCK_OVERHEAD
  }

  function FrameCost(capacity: nat): nat { 4 * capacity + CURVE_SAMPLE_BYTES }

  /** Allocation sizes of the first `n` names. */
  function NamesCost(capacities: seq<nat>, n: nat): nat
    requires n <= |capacities|
  {
    if n == 0 then 0 else NamesCost(capacities, n - 1) + capacities[n - 1]
  }

  /** What a layout retains: the list's own allocation and those of its strings. */
  function LayoutCost(capacity: nat, capacities: seq<nat>): nat { 24 * capacity + NamesCost(capacities, |capacities|) }

  function EmotionCost(frame: EmotionFrame): nat { EMOTION_BYTES + frame.nameBytes }

  // The cost of the first `n` elements.

  function BlocksCost(blocks: seq<AudioBlock>, n: nat): nat
    requires n <= |blocks|
  {
    if n == 0 then 0 else BlocksCost(blocks, n - 1) + BlockCost(|blocks[n - 1].samples|)
  }

  function FramesCost(frames: seq<CurveSample>, n: nat): nat
    requires n <= |frames|
  {
    if n == 0 then 0 else FramesCost(frames, n - 1) + FrameCost(frames[n - 1].capacity)
  }

  function EmotionsCost(frames: seq<EmotionFrame>, n: nat): nat
    requires n <= |frames|
  {
    if n == 0 then 0 else EmotionsCost(frames, n - 1) + EmotionCost(frames[n - 1])
  }

  // ---------------------------------------------------------------- curve coverage

  /** Frame `i` leaves a hole before it: a late first frame, or more than 50 ms after its predecessor. */
  predicate GapAt(frames: seq<CurveSample>, i: nat)
    requires i < |frames|
  {
    if i == 0 then frames[0].time > 0.001 else frames[i].time - frames[i - 1].time > 0.05
  }

  /** The same test as the code makes it when a frame at `time` arrives after one at `last`. */
  predicate OpensGap(last: Option<real>, time: real) {
    match last
    case None => time > 0.001
    case Some(t) => time - t > 0.05
  }

  ghost predicate GapFree(frames: seq<CurveSample>, n: nat)
    requires n <= |frames|
  {
    forall i: nat | i < n :: !GapAt(frames, i)
  }

  /** The longest prefix of frames without a gap: gap-free, and either everything or ended by a gap. */
  ghost predicate LongestCovered(frames: seq<CurveSample>, n: nat) {
    n <= |frames| && GapFree(frames, n) && (n < |frames| ==> GapAt(frames, n))
  }

  /** The length of that prefix among the first `n` frames, found frame by frame. */
  function Covered(frames: seq<CurveSample>, n: nat): (c: nat)
    requires n <= |frames|
    ensures c <= n
  {
    if n == 0 then 0
    else
      var c := Covered(frames, n - 1);
      if c == n - 1 && !GapAt(frames, c) then n else c
  }

  lemma {:induction false} CoveredPrefix(frames: seq<CurveSample>, n: nat)
    requires n <= |frames|
    ensures var c := Covered(frames, n); GapFree(frames, c) && (c < n ==> GapAt(frames, c))
  {
    if n > 0 {
      CoveredPrefix(frames, n - 1);
    }
  }

  lemma CoveredIsLongest(frames: seq<CurveSample>)
    ensures LongestCovered(frames, Covered(frames, |frames|))
    ensures forall n | LongestCovered(frames, n) :: n == Covered(frames, |frames|)
  {
    CoveredPrefix(frames, |frames|);
  }

  /** The media time the first `n` frames cover. */
  function CoverageEnd(frames: seq<CurveSample>, n: nat): real
    requires n <= |frames|
  {
    if n == 0 then 0.0 else frames[n - 1].time
  }

  /** `curve_end` is the last time of the longest gap-free prefix and `curve_gap` says that it is proper. */
  ghost predicate CoverageRecorded(v: ClipView) {
    var n := Covered(v.frames, |v.frames|);
    v.curveGap == (n < |v.frames|) && v.curveEnd == CoverageEnd(v.frames, n)
  }

  function Duration(v: ClipView): real { SampleCount(v.blocks) as real / 16_000.0 }

  /** Media up to here may be played. */
  function ReadyUntil(v: ClipView): real {
    if |v.frames| == 0 then 0.0
    else MinReal(Duration(v), if v.session.Completed? && !v.curveGap then v.curveEnd + 0.05 else v.curveEnd)
  }

  /** The curves cover the audio up to the accepted tail of 50 ms. */
  predicate Covers(v: ClipView) {
    && !v.curveGap
    && (Duration(v) > 0.0 ==> |v.frames| > 0)
    && v.curveEnd + 0.05 + 0.000001 >= Duration(v)
  }

  // ---------------------------------------------------------------- reachable clips

  predicate Distinct(names: seq<string>) {
    forall i, j | 0 <= i < j < |names| :: names[i] != names[j]
  }

  predicate AcceptableNames(names: seq<string>) {
    && 1 <= |names| <= 256
    && (forall i | 0 <= i < |names| :: 1 <= |names[i]| <= 256)
    && Distinct(names)
  }

  /** The first `n` frames have the layout's width and strictly ascend within the media limit. */
  ghost predicate FramesOrdered(frames: seq<CurveSample>, width: nat, n: nat)
    requires n <= |frames|
  {
    n == 0
    || (&& FramesOrdered(frames, width, n - 1)
        && |frames[n - 1].values| == width > 0 && 0.0 <= frames[n - 1].time <= 600.0
        && (n > 1 ==> frames[n - 2].time < frames[n - 1].time))
  }

  lemma {:induction false} FramesAscend(frames: seq<CurveSample>, width: nat, n: nat, i: nat, j: nat)
    requires n <= |frames| && FramesOrdered(frames, width, n) && i <= j < n
    ensures i < j ==> frames[i].time < frames[j].time
    ensures |frames[j].values| == width && 0.0 <= frames[j].time <= 600.0
  {
    if j < n - 1 {
      FramesAscend(frames, width, n - 1, i, j);
    } else if i < j {
      FramesAscend(frames, width, n - 1, i, j - 1);
    }
  }

  /** The first `n` emotion frames lie within the media limit, in order from `from` on; equal times are allowed. */
  ghost predicate EmotionsFollow(from: real, frames: seq<EmotionFrame>, n: nat)
    requires n <= |frames|
  {
    n == 0
    || (EmotionsFollow(from, frames, n - 1) && LastEmotion(from, frames, n - 1) <= frames[n - 1].time
        && 0.0 <= frames[n - 1].time <= 600.0)
  }

  function LastEmotion(from: real, frames: seq<EmotionFrame>, n: nat): real
    requires n <= |frames|
  {
    if n == 0 then from else frames[n - 1].time
  }

  ghost predicate EmotionsOrdered(frames: seq<EmotionFrame>) { EmotionsFollow(0.0, frames, |frames|) }

  lemma {:induction false} FollowShrinks(from: real, frames: seq<EmotionFrame>, k: nat, n: nat)
    requires k <= n <= |frames|
    ensures EmotionsFollow(from, frames, n) ==> EmotionsFollow(from, frames, k)
    decreases n - k
  {
    if k < n {
      FollowShrinks(from, frames, k + 1, n);
    }
  }

  /** A batch continues the trace exactly when it is in order from the trace's last time on. */
  lemma {:induction false} EmotionsJoin(left: seq<EmotionFrame>, right: seq<EmotionFrame>, n: nat)
    requires EmotionsOrdered(left) && n <= |left| + |right|
    ensures EmotionsFollow(0.0, left + right, n) <==>
              if n <= |left| then EmotionsFollow(0.0, left, n)
              else EmotionsFollow(LastEmotion(0.0, left, |left|), right, n - |left|)
  {
    if n > 0 {
      EmotionsJoin(left, right, n - 1);
      FollowShrinks(0.0, left, if n - 1 <= |left| then n - 1 else |left|, |left|);
    }
  }

  ghost predicate AccountsBalance(v: ClipView) {
    && v.revision == v.revisions.Sum() <= U64_MAX
    && v.retained == v.namesBytes + BlocksCost(v.blocks, |v.blocks|) + FramesCost(v.frames, |v.frames|)
        + EmotionsCost(v.emotions, |v.emotions|)
    && 2 * v.retained <= BUDGET
  }

  ghost predicate MediaWellFormed(v: ClipView) {
    && Contiguous(v.blocks) && |v.blocks| <= MAX_AUDIO_BLOCKS && SampleCount(v.blocks) <= MAX_SAMPLES
    && FramesOrdered(v.frames, |v.names|, |v.frames|) && EmotionsOrdered(v.emotions)
    && (v.names != [] ==> AcceptableNames(v.names))
  }

  /** The invariant of every clip the collection methods can build. */
  ghost predicate Consistent(v: ClipView) {
    && AccountsBalance(v)
    && MediaWellFormed(v)
    && CoverageRecorded(v)
    && (v.session.Completed? ==> Covers(v))
  }

  lemma EmptyIsConsistent(identity: nat, session: SessionState)
    requires !session.Completed?
    ensures Consistent(EmptyClip(identity, session))
  {
  }

  /** `w` is the same clip at a later time. An ended collection is frozen; an unchanged
      layout or curve counter means unchanged names or frames. */
  ghost predicate Evolves(v: ClipView, w: ClipView) {
    && v.id == w.id
    && v.blocks <= w.blocks && v.frames <= w.frames && v.emotions <= w.emotions
    && v.revision <= w.revision
    && v.revisions.layout <= w.revisions.layout && v.revisions.curves <= w.revisions.curves
    && (v.revisions.layout == w.revisions.layout ==> v.names == w.names)
    && (v.revisions.curves == w.revisions.curves ==> v.frames == w.frames)
    && ReadyUntil(v) <= ReadyUntil(w)
    && Duration(v) <= Duration(w)
    && (!v.session.Receiving() ==> w == v)
  }

  lemma EvolvesTransitive(u: ClipView, v: ClipView, w: ClipView)
    requires Evolves(u, v) && Evolves(v, w)
    ensures Evolves(u, w)
  {
  }

  lemma {:induction false} CoverageInRange(frames: seq<CurveSample>, width: nat, n: nat)
    requires n <= |frames| && FramesOrdered(frames, width, n)
    ensures 0.0 <= CoverageEnd(frames, Covered(frames, n)) <= 600.0
  {
    if n > 0 {
      CoverageInRange(frames, width, n - 1);
    }
  }

  lemma ReadyWithinDuration(v: ClipView)
    requires Consistent(v)
    ensures 0.0 <= ReadyUntil(v) <= Duration(v)
    ensures 0.0 <= v.curveEnd
  {
    CoverageInRange(v.frames, |v.names|, |v.frames|);
  }

  /** On an accepted collection playback can reach within the looping tolerance of the end. */
  lemma CompletedIsLoopable(v: ClipView)
    requires Consistent(v) && v.session.Completed? && SampleCount(v.blocks) > 0
    ensures 0.0 < ReadyUntil(v) && ReadyUntil(v) + 0.000001 >= Duration(v)
    ensures |v.frames| > 0
  {
    ReadyWithinDuration(v);
  }

  /** More audio, frames and coverage never move the end of playable media back. */
  lemma ReadyGrows(v: ClipView, w: ClipView)
    requires 0.0 <= v.curveEnd <= w.curveEnd && SampleCount(v.blocks) <= SampleCount(w.blocks)
    requires |v.frames| <= |w.frames|
    requires v.session.Completed? && !v.curveGap ==> w.session.Completed? && !w.curveGap
    ensures ReadyUntil(v) <= ReadyUntil(w) && Duration(v) <= Duration(w)
  {
  }

  // Appending leaves the first elements alone.

  lemma {:induction false} BlocksCostKept(blocks: seq<AudioBlock>, more: seq<AudioBlock>, n: nat)
    requires n <= |blocks|
    ensures BlocksCost(blocks + more, n) == BlocksCost(blocks, n)
  {
    if n > 0 {
      BlocksCostKept(blocks, more, n - 1);
    }
  }

  lemma {:induction false} FramesKept(frames: seq<CurveSample>, more: seq<CurveSample>, width: nat, n: nat)
    requires n <= |frames|
    ensures FramesCost(frames + more, n) == FramesCost(frames, n)
    ensures Covered(frames + more, n) == Covered(frames, n)
    ensures FramesOrdered(frames + more, width, n) == FramesOrdered(frames, width, n)
  {
    if n > 0 {
      FramesKept(frames, more, width, n - 1);
    }
  }

  lemma BlockPushed(blocks: seq<AudioBlock>, block: AudioBlock)
    ensures var longer := blocks + [block];
            BlocksCost(longer, |longer|) == BlocksCost(blocks, |blocks|) + BlockCost(|block.samples|)
  {
    BlocksCostKept(blocks, [block], |blocks|);
  }

  /** One more frame: its cost is added, coverage extends exactly when it opens no gap, and order is its own test. */
  lemma FramePushed(frames: seq<CurveSample>, frame: CurveSample, width: nat)
    ensures var longer, n := frames + [frame], |frames|;
            var last := if n == 0 then None else Some(frames[n - 1].time);
            && FramesCost(longer, |longer|) == FramesCost(frames, n) + FrameCost(frame.capacity)
            && Covered(longer, |longer|)
                == (if Covered(frames, n) == n && !OpensGap(last, frame.time) then n + 1 else Covered(frames, n))
            && (FramesOrdered(longer, width, |longer|) <==>
                  FramesOrdered(frames, width, n) && |frame.values| == width > 0 && 0.0 <= frame.time <= 600.0
                  && (n > 0 ==> last.value < frame.time))
  {
    FramesKept(frames, [frame], width, |frames|);
  }

  lemma {:induction false} EmotionsCostAppend(left: seq<EmotionFrame>, right: seq<EmotionFrame>, n: nat)
    requires n <= |left| + |right|
    ensures EmotionsCost(left + right, n) == if n <= |left| then EmotionsCost(left, n)
              else EmotionsCost(left, |left|) + EmotionsCost(right, n - |left|)
  {
    if n > 0 {
      EmotionsCostAppend(left, right, n - 1);
    }
  }

  lemma EmotionsCostJoin(left: seq<EmotionFrame>, right: seq<EmotionFrame>)
    ensures EmotionsCost(left + right, |left + right|) == EmotionsCost(left, |left|) + EmotionsCost(right, |right|)
  {
    EmotionsCostAppend(left, right, |left + right|);
  }

  // ---------------------------------------------------------------- accepted media keeps the invariant

  /** The clip after a chunk was stored. */
  function WithAudio(v: ClipView, chunk: seq<real>): ClipView {
    v.(blocks := v.blocks + if chunk == [] then [] else [AudioBlock(SampleCount(v.blocks), chunk)],
       retained := v.retained + BlockCost(|chunk|), revision := v.revision + 1, revisions := Bump(v.revisions, Audio))
  }

  lemma AudioAccepted(v: ClipView, chunk: seq<real>)
    requires Consistent(v) && v.session.Receiving() && v.revision < U64_MAX
    requires SampleCount(v.blocks) + |chunk| <= MAX_SAMPLES && (chunk == [] || |v.blocks| < MAX_AUDIO_BLOCKS)
    requires 2 * (v.retained + BlockCost(|chunk|)) <= BUDGET
    ensures Consistent(WithAudio(v, chunk)) && Evolves(v, WithAudio(v, chunk))
  {
    var w := WithAudio(v, chunk);
    if chunk == [] {
      assert w.blocks == v.blocks;
    } else {
      var block := AudioBlock(SampleCount(v.blocks), chunk);
      BlockPushed(v.blocks, block);
      JoinTrack(v.blocks, [block]);
    }
    ReadyWithinDuration(v);
    ReadyGrows(v, w);
  }

  /** The clip after a frame was stored. */
  function WithFrame(v: ClipView, frame: CurveSample): ClipView {
    var last := if |v.frames| == 0 then None else Some(v.frames[|v.frames| - 1].time);
    var gap := v.curveGap || OpensGap(last, frame.time);
    v.(frames := v.frames + [frame], curveGap := gap, curveEnd := if gap then v.curveEnd else frame.time,
       retained := v.retained + FrameCost(frame.capacity), revision := v.revision + 1,
           revisions := Bump(v.revisions, Curves))
  }

  lemma FrameAccepted(v: ClipView, frame: CurveSample)
    requires Consistent(v) && v.session.Receiving() && v.revision < U64_MAX
    requires |frame.values| == |v.names| > 0 && 0.0 <= frame.time <= MAX_SECONDS
    requires |v.frames| > 0 ==> v.frames[|v.frames| - 1].time < frame.time
    requires 2 * (v.retained + FrameCost(frame.capacity)) <= BUDGET
    ensures Consistent(WithFrame(v, frame)) && Evolves(v, WithFrame(v, frame))
  {
    var w := WithFrame(v, frame);
    FramePushed(v.frames, frame, |v.names|);
    ReadyWithinDuration(v);
    ReadyGrows(v, w);
  }

  /** The clip after a batch was stored. */
  function WithEmotions(v: ClipView, more: seq<EmotionFrame>): ClipView {
    v.(emotions := v.emotions + more, retained := v.retained + EmotionsCost(more, |more|),
       revision := v.revision + 1, revisions := Bump(v.revisions, Emotions))
  }

  lemma EmotionsAccountsBalance(v: ClipView, more: seq<EmotionFrame>)
    requires AccountsBalance(v) && v.revision < U64_MAX && 2 * (v.retained + EmotionsCost(more, |more|)) <= BUDGET
    ensures AccountsBalance(WithEmotions(v, more))
  {
    EmotionsCostJoin(v.emotions, more);
    assert Bump(v.revisions, Emotions).Sum() == v.revisions.Sum() + 1;
  }

  lemma EmotionsEvolve(v: ClipView, more: seq<EmotionFrame>)
    requires v.session.Receiving()
    ensures Evolves(v, WithEmotions(v, more))
  {
  }

  lemma EmotionsKeepMedia(v: ClipView, more: seq<EmotionFrame>)
    requires MediaWellFormed(v) && CoverageRecorded(v) && EmotionsOrdered(v.emotions + more)
    ensures MediaWellFormed(WithEmotions(v, more)) && CoverageRecorded(WithEmotions(v, more))
  {
  }

  lemma EmotionsAccepted(v: ClipView, more: seq<EmotionFrame>)
    requires Consistent(v) && v.session.Receiving() && v.revision < U64_MAX
    requires EmotionsOrdered(v.emotions + more) && 2 * (v.retained + EmotionsCost(more, |more|)) <= BUDGET
    ensures Consistent(WithEmotions(v, more)) && Evolves(v, WithEmotions(v, more))
  {
    EmotionsAccountsBalance(v, more);
    EmotionsKeepMedia(v, more);
    EmotionsEvolve(v, more);
  }

  /** The clip after a layout was stored; storing the same layout again changes nothing. */
  function WithNames(v: ClipView, layout: seq<string>, bytes: nat): ClipView
    requires v.namesBytes <= v.retained
  {
    if v.names == layout then v
    else v.(names := layout, namesBytes := bytes, retained := v.retained - v.namesBytes + bytes,
            revision := v.revision + 1, revisions := Bump(v.revisions, Layout))
  }

  /** The clip after its session was set. */
  function WithSession(v: ClipView, session: SessionState): ClipView {
    if v.session == session then v
    else v.(session := session, revision := v.revision + 1, revisions := Bump(v.revisions, Collection))
  }

  // ---------------------------------------------------------------- what a clip accepts

  ghost predicate NamesFit(v: ClipView, layout: seq<string>, bytes: nat) {
    && v.session.Receiving() && AcceptableNames(layout)
    && (v.names == layout
        || (v.frames == [] && 2 * (v.retained - v.namesBytes + bytes) <= BUDGET && v.revision < U64_MAX))
  }

  /** The chunk starts where the audio ends, is finite, and stays within all limits. */
  ghost predicate AudioFits(v: ClipView, start: nat, samples: seq<Float>) {
    && v.session.Receiving() && start == SampleCount(v.blocks) && AllFinite(samples)
    && start + |samples| <= MAX_SAMPLES
    && (samples == [] || |v.blocks| < MAX_AUDIO_BLOCKS)
    && 2 * (v.retained + BlockCost(|samples|)) <= BUDGET
  }

  /** The frame has the layout's width, is finite, and comes after every earlier one. */
  ghost predicate FrameFits(v: ClipView, time: Float, values: seq<Float>, capacity: nat) {
    && v.session.Receiving() && v.names != [] && |values| == |v.names| && AllFinite(values)
    && time.Finite? && 0.0 <= time.value <= MAX_SECONDS
    && (|v.frames| > 0 ==> v.frames[|v.frames| - 1].time < time.value)
    && 2 * (v.retained + FrameCost(capacity)) <= BUDGET
  }

  ghost predicate EmotionsFit(v: ClipView, more: seq<EmotionFrame>) {
    && v.session.Receiving() && EmotionsOrdered(v.emotions + more)
    && 2 * (v.retained + EmotionsCost(more, |more|)) <= BUDGET
  }

  lemma NamesAccepted(v: ClipView, layout: seq<string>, bytes: nat)
    requires Consistent(v) && NamesFit(v, layout, bytes)
    ensures Consistent(WithNames(v, layout, bytes)) && Evolves(v, WithNames(v, layout, bytes))
  {
  }

  lemma CompletionAccepted(v: ClipView)
    requires Consistent(v) && (v.session.Completed? || (v.session.Receiving() && Covers(v) && v.revision < U64_MAX))
    ensures Consistent(WithSession(v, Completed)) && Evolves(v, WithSession(v, Completed))
  {
  }

  // ---------------------------------------------------------------- what the records mean

  /** The playable end, told by the media alone: the end of the audio, or the last frame before the first gap if that
      comes first; completing a clip without a gap adds 50 ms. */
  lemma ReadyMeans(v: ClipView, n: nat)
    requires Consistent(v) && LongestCovered(v.frames, n)
    ensures Duration(v) == |Flat(v.blocks)| as real / 16_000.0
    ensures var reach := CoverageEnd(v.frames, n) + if v.session.Completed? && n == |v.frames| then 0.05 else 0.0;
            ReadyUntil(v) == if v.frames == [] then 0.0 else MinReal(Duration(v), reach)
  {
    CoveredIsLongest(v.frames);
    FlatLength(v.blocks);
  }

  /** A clip can be completed exactly when no frame leaves a gap and the last one reaches to within 50 ms, and a
      rounding tolerance, of the end of the audio. */
  lemma CoversMeans(v: ClipView)
    requires Consistent(v)
    ensures Covers(v) <==>
              && (forall i: nat | i < |v.frames| :: !GapAt(v.frames, i))
              && (v.frames == [] ==> |Flat(v.blocks)| == 0)
              && CoverageEnd(v.frames, |v.frames|) + 0.050001 >= |Flat(v.blocks)| as real / 16_000.0
  {
    CoveredIsLongest(v.frames);
    FlatLength(v.blocks);
    var n := Covered(v.frames, |v.frames|);
    if forall i: nat | i < |v.frames| :: !GapAt(v.frames, i) {
      assert LongestCovered(v.frames, |v.frames|);
    }
  }

  /** The non-empty blocks among the first n. */
  function FullBlocks(blocks: seq<AudioBlock>, n: nat): nat
    requires n <= |blocks|
  {
    if n == 0 then 0 else FullBlocks(blocks, n - 1) + if blocks[n - 1].samples == [] then 0 else 1
  }

  /** Four bytes a sample and 56 for each block that holds any. */
  lemma {:induction false} BlocksCostMeans(blocks: seq<AudioBlock>, n: nat)
    requires n <= |blocks|
    ensures BlocksCost(blocks, n) == 4 * |Flat(blocks[..n])| + 56 * FullBlocks(blocks, n)
  {
    if n > 0 {
      BlocksCostMeans(blocks, n - 1);
      assert blocks[..n][..n - 1] == blocks[..n - 1];
    }
  }

  /** The values that the first n frames have room for. */
  function Room(frames: seq<CurveSample>, n: nat): nat
    requires n <= |frames|
  {
    if n == 0 then 0 else Room(frames, n - 1) + frames[n - 1].capacity
  }

  lemma {:induction false} FramesCostMeans(frames: seq<CurveSample>, n: nat)
    requires n <= |frames|
    ensures FramesCost(frames, n) == 4 * Room(frames, n) + 32 * n
  {
    if n > 0 {
      FramesCostMeans(frames, n - 1);
    }
  }

  function NameRoom(frames: seq<EmotionFrame>, n: nat): nat
    requires n <= |frames|
  {
    if n == 0 then 0 else NameRoom(frames, n - 1) + frames[n - 1].nameBytes
  }

  lemma {:induction false} EmotionsCostMeans(frames: seq<EmotionFrame>, n: nat)
    requires n <= |frames|
    ensures EmotionsCost(frames, n) == NameRoom(frames, n) + 32 * n
  {
    if n > 0 {
      EmotionsCostMeans(frames, n - 1);
    }
  }

  lemma {:induction false} NamesCostKept(capacities: seq<nat>, more: seq<nat>, n: nat)
    requires n <= |capacities|
    ensures NamesCost(capacities + more, n) == NamesCost(capacities, n)
  {
    if n > 0 {
      NamesCostKept(capacities, more, n - 1);
    }
  }

  /** A layout costs 24 bytes for each string its list has room for, and the room of each string. */
  lemma LayoutCostMeans(capacity: nat, capacities: seq<nat>, last: nat)
    ensures LayoutCost(capacity, []) == 24 * capacity
    ensures LayoutCost(capacity, capacities + [last]) == LayoutCost(capacity, capacities) + last
  {
    NamesCostKept(capacities, [last], |capacities|);
  }

  /** In every reachable clip the retained bytes are those of the names, of every sample, block, curve value and frame,
      and of every emotion frame and name; together they are at most half of the budget. */
  lemma RetainedMeans(v: ClipView)
    requires Consistent(v)
    ensures v.retained
         == v.namesBytes + 4 * |Flat(v.blocks)| + 56 * FullBlocks(v.blocks, |v.blocks|)
            + 4 * Room(v.frames, |v.frames|) + 32 * |v.frames|
            + NameRoom(v.emotions, |v.emotions|) + 32 * |v.emotions|
    ensures 2 * v.retained <= 268_173_312
  {
    BlocksCostMeans(v.blocks, |v.blocks|);
    FramesCostMeans(v.frames, |v.frames|);
    EmotionsCostMeans(v.emotions, |v.emotions|);
    assert v.blocks[..|v.blocks|] == v.blocks;
  }
}
