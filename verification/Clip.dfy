/** The media clip a session collects (crates/audio2face3d-gui/src/core.rs). */
module Clips {
  import opened Common
  import opened AudioTracks
  import opened ClipModel

  datatype ClipError = Ended | CannotReset | IncompleteCoverage | BadLayout | LayoutChanged
    | OverBudget | RevisionExhausted | BadAudio | BlockLimit | BadFrame | BadEmotion | BadEvent

  type Outcome = Result<(), ClipError>

  class Clip {
    var names: seq<string>
    var namesBytes: nat
    var frames: seq<CurveSample>
    const audio: AudioTrack
    var emotions: seq<EmotionFrame>
    var session: SessionState
    var revision: nat
    var revisions: ClipRevision
    const id: nat
    var curveEnd: real
    var curveGap: bool
    var retained: nat

    ghost function View(): ClipView
      reads this, audio
    {
      ClipView(id, names, namesBytes, frames, audio.blocks, emotions, session, revision, revisions, curveEnd, curveGap,
               retained)
    }

    ghost predicate Valid()
      reads this, audio
    {
      audio.Valid() && Consistent(View())
    }

    /** `Clip::default()` (Idle) and `Clip::running()`; the identity is handed out by a global counter. */
    constructor (identity: nat, running: bool)
      ensures Valid() && fresh(audio)
      ensures View() == EmptyClip(identity, if running then Running else Idle)
    {
      audio := new AudioTrack();
      names, namesBytes, frames, emotions := [], 0, [], [];
      session := if running then Running else Idle;
      revision, revisions := 0, ClipRevision(0, 0, 0, 0, 0);
      id, curveEnd, curveGap, retained := identity, 0.0, false, 0;
      new;
      EmptyIsConsistent(identity, session);
    }

    /** The next pair of counters, or None when one of them is exhausted. */
    function NextRevision(change: Change): (r: Option<(nat, ClipRevision)>)
      reads this
      ensures r.Some? ==> r.value.0 == revision + 1 && r.value.1 == Bump(revisions, change)
      ensures revision == revisions.Sum() ==> (r.Some? <==> revision < U64_MAX)
    {
      var counter := match change
        case Layout => revisions.layout
        case Audio => revisions.audio
        case Curves => revisions.curves
        case Emotions => revisions.emotions
        case Collection => revisions.collection;
      if revision < U64_MAX && counter < U64_MAX then Some((revision + 1, Bump(revisions, change))) else None
    }

    function Fits(bytes: nat): bool
      reads this
    {
      2 * (retained + bytes) <= BUDGET
    }

    function LastTime(): (t: Option<real>)
      reads this
    {
      if |frames| == 0 then None else Some(frames[|frames| - 1].time)
    }

    /** `ready_until`. */
    method Ready() returns (time: real)
      requires Valid()
      ensures time == ReadyUntil(View())
    {
      if |frames| == 0 {
        return 0.0;
      }
      var end := if session.Completed? && !curveGap then curveEnd + 0.05 else curveEnd;
      return MinReal(audio.samples as real / 16_000.0, end);
    }

    method FinishCollection() returns (r: Outcome)
      requires Valid()
      modifies this
      ensures Valid() && Evolves(old(View()), View())
      ensures r.Ok? <==>
                old(session).Completed? || (old(session).Receiving() && old(Covers(View())) && old(revision) < U64_MAX)
      ensures View() == if r.Ok? then WithSession(old(View()), Completed) else old(View())
    {
      if session.Completed? {
        return Ok(());
      }
      if !session.Receiving() {
        return Err(Ended);
      }
      var duration := audio.samples as real / 16_000.0;
      if curveGap || (duration > 0.0 && |frames| == 0) || curveEnd + 0.05 + 0.000001 < duration {
        return Err(IncompleteCoverage);
      }
      var next := NextRevision(Collection);
      if next.None? {
        return Err(RevisionExhausted);
      }
      session := Completed;
      revision, revisions := next.value.0, next.value.1;
      return Ok(());
    }

    method SetSession(value: SessionState) returns (r: Outcome)
      requires Valid()
      modifies this
      ensures Valid() && Evolves(old(View()), View())
      ensures r.Ok? <==>
                || old(session) == value
                || (old(session).Receiving() && !value.Idle? && (value.Completed? ==> old(Covers(View())))
                    && old(revision) < U64_MAX)
      ensures View() == if r.Ok? then WithSession(old(View()), value) else old(View())
    {
      if value.Completed? {
        r := FinishCollection();
        return;
      }
      if session == value {
        return Ok(());
      }
      if !session.Receiving() {
        return Err(Ended);
      }
      if value.Idle? {
        return Err(CannotReset);
      }
      var next := NextRevision(Collection);
      if next.None? {
        return Err(RevisionExhausted);
      }
      session := value;
      revision, revisions := next.value.0, next.value.1;
      return Ok(());
    }

    /** `capacity` is the capacity of the list itself, `capacities` those of its strings. */
    method SetNames(layout: seq<string>, capacity: nat, capacities: seq<nat>) returns (r: Outcome)
      requires Valid()
      modifies this
      ensures Valid() && Evolves(old(View()), View())
      ensures r.Ok? <==> NamesFit(old(View()), layout, LayoutCost(capacity, capacities))
      ensures View() == if r.Ok? then WithNames(old(View()), layout, LayoutCost(capacity, capacities)) else old(View())
    {
      if !session.Receiving() {
        return Err(Ended);
      }
      if !AcceptableNames(layout) {
        return Err(BadLayout);
      }
      if |frames| > 0 && names != layout {
        return Err(LayoutChanged);
      }
      if names == layout {
        return Ok(());
      }
      var bytes := LayoutCost(capacity, capacities);
      var others := retained - namesBytes;
      if 2 * (others + bytes) > BUDGET {
        return Err(OverBudget);
      }
      var next := NextRevision(Layout);
      if next.None? {
        return Err(RevisionExhausted);
      }
      names := layout;
      namesBytes := bytes;
      retained := others + bytes;
      revision, revisions := next.value.0, next.value.1;
      return Ok(());
    }

    method ValidateAudio(start: nat, samples: seq<Float>) returns (r: Result<nat, ClipError>)
      requires Valid()
      ensures r.Ok? <==> AudioFits(View(), start, samples)
      ensures r.Ok? ==> r.value == BlockCost(|samples|)
    {
      if !session.Receiving() {
        return Err(Ended);
      }
      if start != audio.samples || audio.samples + |samples| > MAX_SAMPLES || !AllFinite(samples) {
        return Err(BadAudio);
      }
      if |samples| > 0 && |audio.blocks| >= MAX_AUDIO_BLOCKS {
        return Err(BlockLimit);
      }
      var bytes := BlockCost(|samples|);
      if !Fits(bytes) {
        return Err(OverBudget);
      }
      return Ok(bytes);
    }

    method StoreAudio(chunk: seq<real>, bytes: nat, next: (nat, ClipRevision))
      requires Valid() && session.Receiving() && SampleCount(audio.blocks) + |chunk| <= MAX_SAMPLES
      requires chunk == [] || |audio.blocks| < MAX_AUDIO_BLOCKS
      requires bytes == BlockCost(|chunk|) && 2 * (retained + bytes) <= BUDGET
      requires revision < U64_MAX && next == (revision + 1, Bump(revisions, Audio))
      modifies this, audio
      ensures audio.Valid() && View() == WithAudio(old(View()), chunk)
      ensures Flat(audio.blocks) == old(Flat(audio.blocks)) + chunk
    {
      ghost var stored := WithAudio(View(), chunk);
      retained := retained + bytes;
      audio.Push(chunk);
      revision, revisions := next.0, next.1;
      assert View() == stored;
    }

    /** The chunk starts where the audio ends; accepted, it is appended as one block. */
    method PushAudio(start: nat, samples: seq<Float>) returns (r: Outcome)
      requires Valid()
      modifies this, audio
      ensures Valid() && Evolves(old(View()), View())
      ensures r.Ok? <==> AudioFits(old(View()), start, samples) && old(revision) < U64_MAX
      ensures View() == if r.Ok? then WithAudio(old(View()), Values(samples)) else old(View())
      ensures r.Ok? ==> Flat(audio.blocks) == old(Flat(audio.blocks)) + Values(samples)
    {
      var bytes := ValidateAudio(start, samples);
      if bytes.Err? {
        return Err(bytes.error);
      }
      var next := NextRevision(Audio);
      if next.None? {
        return Err(RevisionExhausted);
      }
      AudioAccepted(View(), Values(samples));
      StoreAudio(Values(samples), bytes.value, next.value);
      return Ok(());
    }

    method StoreFrame(sample: CurveSample, next: (nat, ClipRevision))
      requires Valid() && session.Receiving() && 2 * (retained + FrameCost(sample.capacity)) <= BUDGET
      requires |sample.values| == |names| > 0 && 0.0 <= sample.time <= MAX_SECONDS
      requires LastTime().Some? ==> LastTime().value < sample.time
      requires revision < U64_MAX && next == (revision + 1, Bump(revisions, Curves))
      modifies this
      ensures View() == WithFrame(old(View()), sample)
    {
      var gap := curveGap || OpensGap(LastTime(), sample.time);
      var end := curveEnd;
      if !gap {
        end := sample.time;
      }
      ghost var stored := WithFrame(View(), sample);
      retained, curveGap, curveEnd, frames := retained + FrameCost(sample.capacity), gap, end, frames + [sample];
      revision, revisions := next.0, next.1;
      assert View() == stored;
    }

    method PushFrame(time: Float, values: seq<Float>, capacity: nat) returns (r: Outcome)
      requires Valid()
      modifies this
      ensures Valid() && Evolves(old(View()), View())
      ensures r.Ok? <==> FrameFits(old(View()), time, values, capacity) && old(revision) < U64_MAX
      ensures View() == if r.Ok? then WithFrame(old(View()), CurveSample(time.value, Values(values), capacity))
                else old(View())
    {
      if !session.Receiving() {
        return Err(Ended);
      }
      if |names| == 0 || time.NonFinite? || !(0.0 <= time.value <= MAX_SECONDS) || |values| != |names|
         || !AllFinite(values) || (LastTime().Some? && LastTime().value >= time.value)
      {
        return Err(BadFrame);
      }
      if !Fits(FrameCost(capacity)) {
        return Err(OverBudget);
      }
      var next := NextRevision(Curves);
      if next.None? {
        return Err(RevisionExhausted);
      }
      FrameAccepted(View(), CurveSample(time.value, Values(values), capacity));
      StoreFrame(CurveSample(time.value, Values(values), capacity), next.value);
      return Ok(());
    }

    /** The loop over an emotion batch: accepts it exactly when it continues the trace in order, and adds up its
        cost. */
    method CheckEmotions(more: seq<EmotionFrame>) returns (r: Result<nat, ClipError>)
      requires EmotionsOrdered(emotions)
      ensures r.Ok? <==> EmotionsOrdered(emotions + more)
      ensures r.Ok? ==> r.value == EmotionsCost(more, |more|)
    {
      EmotionsJoin(emotions, more, |emotions| + |more|);
      var from := if |emotions| == 0 then 0.0 else emotions[|emotions| - 1].time;
      var previous := from;
      var bytes: nat := 0;
      for i := 0 to |more|
        invariant EmotionsFollow(from, more, i)
        invariant previous == LastEmotion(from, more, i)
        invariant bytes == EmotionsCost(more, i)
      {
        if more[i].time < previous || !(0.0 <= more[i].time <= MAX_SECONDS) {
          FollowShrinks(from, more, i + 1, |more|);
          return Err(BadEmotion);
        }
        previous := more[i].time;
        bytes := bytes + EmotionCost(more[i]);
      }
      return Ok(bytes);
    }

    method PushEmotions(more: seq<EmotionFrame>) returns (r: Outcome)
      requires Valid()
      modifies this
      ensures Valid() && Evolves(old(View()), View())
      ensures r.Ok? <==> EmotionsFit(old(View()), more) && old(revision) < U64_MAX
      ensures View() == if r.Ok? then WithEmotions(old(View()), more) else old(View())
    {
      if !session.Receiving() {
        return Err(Ended);
      }
      var bytes := CheckEmotions(more);
      if bytes.Err? {
        return Err(bytes.error);
      }
      if !Fits(bytes.value) {
        return Err(OverBudget);
      }
      var next := NextRevision(Emotions);
      if next.None? {
        return Err(RevisionExhausted);
      }
      EmotionsAccepted(View(), more);
      ghost var stored := WithEmotions(View(), more);
      retained := retained + bytes.value;
      emotions := emotions + more;
      revision, revisions := next.value.0, next.value.1;
      assert View() == stored;
      return Ok(());
    }
  }
}
