/** Whole calls and whole runs of the player, and what holds of all of them. */
module PlaybackLaws {
  import opened Common
  import opened AudioTracks
  import opened ClipModel
  import opened PlaybackModel

  // ---------------------------------------------------------------- the operations on values

  predicate Sounds(v: PlayerView, rate: nat) { rate >= SAMPLE_RATE && (v.state.Playing? || v.state.Buffering?) }

  function EnvOf(v: PlayerView, rate: nat): Env
    requires rate > 0
  {
    Env(v.media, Voice(v.blocks), v.looping, Period(rate))
  }

  /** Buffering ends when enough media is ahead, or when a complete clip has any left. */
  function CoreOf(v: PlayerView): Core {
    var ahead := v.media.readyUntil - v.submitted;
    var resumes := v.state.Buffering? && (ahead >= v.streamBuffer || (v.media.complete && ahead > 0.0));
    Core(v.submitted, if resumes then Playing else v.state, v.underruns, v.wrapped)
  }

  function Rendered(v: PlayerView, frames: nat, rate: nat, at: real): PlayerView {
    if !Sounds(v, rate) then v
    else if v.media.unavailable then v.(state := Paused)
    else
      var env := EnvOf(v, rate);
      var c := After(env, CoreOf(v), frames);
      var segments := Segments(env, CoreOf(v), at, frames);
      v.(submitted := c.submitted, state := c.state, underruns := c.underruns, wrapped := c.wrapped,
         anchors := EnqueueAll(v.anchors, segments, |segments|))
  }

  function RenderedSample(v: PlayerView, rate: nat, i: nat): real {
    if !Sounds(v, rate) || v.media.unavailable then 0.0
    else SampleOf(EnvOf(v, rate), After(EnvOf(v, rate), CoreOf(v), i))
  }

  function PausedAt(v: PlayerView, now: real): PlayerView {
    var heard := Audible(v, now);
    v.(position := heard, submitted := heard, anchors := [], wrapped := false, state := Paused)
  }

  function Commanded(v: PlayerView, command: Command, now: real): Result<PlayerView, PlaybackError> {
    match command
    case Play =>
      if v.media.unavailable then Err(ResultUnavailable)
      else if !v.streaming && !v.media.jobReady then Err(NotReady)
      else if v.media.sampleCount == 0 || !v.media.hasFrames then Err(NothingToPlay)
      else
        var w := if v.state.Ended? then v.(submitted := 0.0, position := 0.0, anchors := [], wrapped := false) else v;
        var short := v.streaming && !v.media.complete && v.media.readyUntil - w.submitted < v.streamBuffer;
        Ok(w.(state := if short then Buffering else Playing))
    case Pause =>
      Ok(PausedAt(v, now))
    case Seek(time) =>
      if time.NonFinite? || time.value < 0.0 || time.value > v.media.readyUntil then Err(SeekOutside)
      else Ok(v.(submitted := time.value, position := time.value, anchors := [], wrapped := false,
                 state := if v.state.Ended? then Paused else v.state))
    case SetLoop(looping) => Ok(v.(looping := looping))
  }

  function ClockTime(v: PlayerView, now: real): real { MinReal(Audible(v, now), v.media.Duration()) }

  /** Taking a clock snapshot is what notices the end of playback. */
  function Observed(v: PlayerView, now: real): PlayerView {
    if v.media.complete && !v.looping && ClockTime(v, now) + 0.00000001 >= v.media.Duration() && v.state.Playing?
    then v.(state := Ended) else v
  }

  /** The checks on an update: same clip, not older, starting at the next block, adding up, within the block limit,
      contiguous. */
  predicate Accepts(v: PlayerView, media: Media, first: nat, more: seq<AudioBlock>) {
    && media.clipId == v.media.clipId && v.media.revision <= media.revision && first == |v.blocks|
    && SampleCount(v.blocks) + BlockSamples(more, |more|) == media.sampleCount
    && |v.blocks| + |more| <= MAX_AUDIO_BLOCKS && ContiguousFrom(more, SampleCount(v.blocks))
  }

  /** New metadata; unavailability is never taken back, and pauses. */
  function WithMedia(v: PlayerView, media: Media, now: real): PlayerView {
    var unavailable := v.media.unavailable || media.unavailable;
    var w := v.(media := media.(unavailable := unavailable));
    if unavailable then PausedAt(w, now) else w
  }

  function Updated(v: PlayerView, media: Media, first: nat, more: seq<AudioBlock>, now: real): Option<PlayerView> {
    if Accepts(v, media, first, more) then Some(WithMedia(v.(blocks := v.blocks + more), media, now)) else None
  }

  function BlockSamples(blocks: seq<AudioBlock>, n: nat): nat
    requires n <= |blocks|
  {
    if n == 0 then 0 else BlockSamples(blocks, n - 1) + |blocks[n - 1].samples|
  }

  // ---------------------------------------------------------------- chunk invariance

  /** Inside a call the player is only Buffering because it ran dry on an incomplete clip. */
  lemma {:induction false} DryWhenBuffering(env: Env, c: Core, n: nat)
    requires c.state.Playing?
    ensures var d := After(env, c, n);
            (d.state.Playing? || d.state.Buffering?)
            && (d.state.Buffering? ==> Exhausted(env, d) && !env.media.complete)
  {
    if n > 0 {
      DryWhenBuffering(env, c, n - 1);
    }
  }

  lemma {:induction false} NothingWhileBuffering(env: Env, c: Core, n: nat)
    requires c.state.Buffering?
    ensures After(env, c, n) == c
  {
    if n > 0 {
      NothingWhileBuffering(env, c, n - 1);
    }
  }

  /** Frame boundary `k` is the first at which the media is used up. */
  predicate DryAt(env: Env, c: Core, k: nat) {
    && c.submitted + Span(k, env.period) + 0.000000001 >= env.media.readyUntil
    && (k > 0 ==> c.submitted + Span(k - 1, env.period) + 0.000000001 < env.media.readyUntil)
  }

  /** An incomplete clip plays up to its first dry boundary, counts one underrun there and waits. */
  lemma {:induction false} RunsDry(env: Env, c: Core, k: nat, n: nat)
    requires c.state.Playing? && !env.media.complete && 0.0 < env.period && DryAt(env, c, k) && k < n
    ensures After(env, c, n)
              == c.(submitted := c.submitted + Span(k, env.period), underruns := c.underruns + 1, state := Buffering)
  {
    if n > k + 1 {
      RunsDry(env, c, k, n - 1);
    } else {
      RunsUpTo(env, c, k, k);
    }
  }

  /** Whoever waits has met a dry boundary. */
  lemma {:induction false} DryBefore(env: Env, c: Core, n: nat) returns (k: nat)
    requires c.state.Playing? && !env.media.complete && 0.0 < env.period && After(env, c, n).state.Buffering?
    ensures k < n && DryAt(env, c, k)
  {
    var before := After(env, c, n - 1);
    if before.state.Buffering? {
      k := DryBefore(env, c, n - 1);
    } else {
      k := n - 1;
      PlayingUpTo(env, c, k);
    }
  }

  lemma {:induction false} PlayingUpTo(env: Env, c: Core, n: nat)
    requires c.state.Playing? && !env.media.complete && 0.0 < env.period && After(env, c, n).state.Playing?
    ensures After(env, c, n) == c.(submitted := c.submitted + Span(n, env.period))
    ensures n > 0 ==> c.submitted + Span(n - 1, env.period) + 0.000000001 < env.media.readyUntil
  {
    if n > 0 {
      PlayingUpTo(env, c, n - 1);
    }
  }

  /** A call of `a` frames runs dry, and what little is left ahead already satisfies the stream buffer: the next
      call will find the player ready to play on, with nothing to play. */
  ghost predicate Torn(v: PlayerView, a: nat, rate: nat) {
    && Sounds(v, rate) && !v.media.unavailable && !v.media.complete && CoreOf(v).state.Playing?
    && exists k: nat :: k < a && DryAt(EnvOf(v, rate), CoreOf(v), k) && Ahead(v, k, rate) >= v.streamBuffer
  }

  /** What is ready beyond the `k`-th frame of a call. */
  function Ahead(v: PlayerView, k: nat, rate: nat): real
    requires rate > 0
  {
    v.media.readyUntil - (v.submitted + Span(k, Period(rate)))
  }

  /** How the first call leaves the player, and whether the next one starts as it ended. */
  lemma TornMeans(v: PlayerView, a: nat, rate: nat, at: real)
    requires Sounds(v, rate) && !v.media.unavailable
    ensures var d, first := After(EnvOf(v, rate), CoreOf(v), a), Rendered(v, a, rate, at);
            && (!Torn(v, a, rate) ==> CoreOf(first) == d)
            && (Torn(v, a, rate) ==>
                d.state.Buffering? && Exhausted(EnvOf(v, rate), d) && CoreOf(first) == d.(state := Playing))
  {
    var env, c := EnvOf(v, rate), CoreOf(v);
    PeriodBounds(rate);
    if c.state.Buffering? {
      NothingWhileBuffering(env, c, a);
    } else {
      DryWhenBuffering(env, c, a);
      if !v.media.complete {
        if After(env, c, a).state.Buffering? {
          var k := DryBefore(env, c, a);
          RunsDry(env, c, k, a);
        }
        forall k: nat | k < a && DryAt(env, c, k)
          ensures After(env, c, a)
                    == c.(submitted := c.submitted + Span(k, env.period), underruns := c.underruns + 1,
                          state := Buffering)
        {
          RunsDry(env, c, k, a);
        }
      }
    }
  }

  /** The next call picks up exactly the state the frames of this one left. */
  lemma CallsResume(v: PlayerView, n: nat, rate: nat, at: real)
    requires Sounds(v, rate) && !v.media.unavailable && !Torn(v, n, rate)
    ensures Sounds(Rendered(v, n, rate, at), rate)
    ensures CoreOf(Rendered(v, n, rate, at)) == After(EnvOf(v, rate), CoreOf(v), n)
    ensures EnvOf(Rendered(v, n, rate, at), rate) == EnvOf(v, rate)
  {
    TornMeans(v, n, rate, at);
    var env, c := EnvOf(v, rate), CoreOf(v);
    if c.state.Buffering? {
      NothingWhileBuffering(env, c, n);
    } else {
      DryWhenBuffering(env, c, n);
    }
  }

  /** More than 1e-9 s of stream buffer is always enough. */
  lemma BufferPreventsTearing(v: PlayerView, a: nat, rate: nat)
    requires v.streamBuffer > 0.000000001
    ensures !Torn(v, a, rate)
  {
  }

  /** What is heard after a call that evicts no anchor: the old clock until the call's first frame, then frame by
      frame. */
  lemma RenderedClock(v: PlayerView, n: nat, rate: nat, at: real, now: real)
    requires Sounds(v, rate) && !v.media.unavailable
    requires |v.anchors| + |Segments(EnvOf(v, rate), CoreOf(v), at, n)| <= 64
    ensures Audible(Rendered(v, n, rate, at), now) == HeardAt(EnvOf(v, rate), CoreOf(v), at, n, Audible(v, now), now)
  {
    var env, c := EnvOf(v, rate), CoreOf(v);
    var segments := Segments(env, c, at, n);
    EnqueueAllFits(v.anchors, segments, |segments|);
    assert segments[..|segments|] == segments;
    ClockJoin(v.anchors, segments, |segments|, v.position, now);
    PeriodBounds(rate);
    SegmentsAreTheClock(env, c, at, n, Audible(v, now), now);
  }

  lemma {:induction false} SplitNeedsNoFewerAnchors(env: Env, c: Core, at: real, a: nat, b: nat, later: real)
    ensures |Segments(env, c, at, a + b)| <= |Segments(env, c, at, a)| + |Segments(env, After(env, c, a), later, b)|
  {
    if b > 0 {
      SplitNeedsNoFewerAnchors(env, c, at, a, b - 1, later);
      AfterAdd(env, c, a, b - 1);
    }
  }

  /** Two calls in a row, compared with one call for all the frames, up to the anchors. */
  predicate SameState(v: PlayerView, a: nat, b: nat, rate: nat, at: real, later: real) {
    Rendered(v, a + b, rate, at).(anchors := []) == Rendered(Rendered(v, a, rate, at), b, rate, later).(anchors := [])
  }

  /** After a torn call the next one is silent, but not without effect. */
  lemma TornDiffers(v: PlayerView, a: nat, b: nat, rate: nat, at: real, later: real)
    requires Torn(v, a, rate)
    ensures !SameState(v, a, b, rate, at, later)
    ensures forall j: nat :: RenderedSample(v, rate, a + j) == RenderedSample(Rendered(v, a, rate, at), rate, j) == 0.0
  {
    var env, c, first := EnvOf(v, rate), CoreOf(v), Rendered(v, a, rate, at);
    var d := After(env, c, a);
    TornMeans(v, a, rate, at);
    AfterAdd(env, c, a, b);
    NothingWhileBuffering(env, d, b);
    SilenceLasts(env, d.(state := Playing), b);
    forall j: nat
      ensures RenderedSample(v, rate, a + j) == RenderedSample(first, rate, j) == 0.0
    {
      AfterAdd(env, c, a, j);
      NothingWhileBuffering(env, d, j);
      SilenceLasts(env, d.(state := Playing), j);
    }
  }

  lemma UntornAgrees(v: PlayerView, a: nat, b: nat, rate: nat, at: real, later: real)
    requires !Torn(v, a, rate)
    ensures SameState(v, a, b, rate, at, later)
    ensures forall j: nat :: RenderedSample(v, rate, a + j) == RenderedSample(Rendered(v, a, rate, at), rate, j)
  {
    if Sounds(v, rate) && !v.media.unavailable {
      var env, c := EnvOf(v, rate), CoreOf(v);
      CallsResume(v, a, rate, at);
      AfterAdd(env, c, a, b);
      forall j: nat
        ensures RenderedSample(v, rate, a + j) == RenderedSample(Rendered(v, a, rate, at), rate, j)
      {
        AfterAdd(env, c, a, j);
      }
    }
  }

  /** Rendering `a` and then `b` frames always gives the samples of rendering `a + b` frames, and leaves the same
      state if and only if the first call does not tear. */
  lemma ChunkInvariance(v: PlayerView, a: nat, b: nat, rate: nat, at: real, later: real)
    ensures forall j: nat :: RenderedSample(v, rate, a + j) == RenderedSample(Rendered(v, a, rate, at), rate, j)
    ensures SameState(v, a, b, rate, at, later) <==> !Torn(v, a, rate)
  {
    if Torn(v, a, rate) {
      TornDiffers(v, a, b, rate, at, later);
    } else {
      UntornAgrees(v, a, b, rate, at, later);
    }
  }

  /** The same for a given dry boundary `k`: the calls may be cut anywhere up to it, and beyond it only if what is
      left ahead is less than the stream buffer. */
  lemma ChunkInvarianceIff(v: PlayerView, a: nat, b: nat, k: nat, rate: nat, at: real, later: real)
    requires Sounds(v, rate) && !v.media.unavailable && !v.media.complete && CoreOf(v).state.Playing?
    requires DryAt(EnvOf(v, rate), CoreOf(v), k)
    ensures SameState(v, a, b, rate, at, later) <==> a <= k || Ahead(v, k, rate) < v.streamBuffer
  {
    var env, c := EnvOf(v, rate), CoreOf(v);
    PeriodBounds(rate);
    ChunkInvariance(v, a, b, rate, at, later);
    if k < a {
      RunsDry(env, c, k, a);
    }
    forall other: nat | other < a && DryAt(env, c, other)
      ensures k < a && Span(other, env.period) == Span(k, env.period)
    {
      RunsDry(env, c, other, a);
      if k >= a {
        RunsUpTo(env, c, k, a);
        assert false;
      }
      RunsDry(env, c, k, a);
    }
  }

  /** ... and the same audible clock at every moment, when the second call is heard right after the first and no anchor
      is evicted. */
  lemma ChunkClockInvariance(v: PlayerView, a: nat, b: nat, rate: nat, at: real, now: real)
    requires Sounds(v, rate) && !v.media.unavailable
    requires var env, c := EnvOf(v, rate), CoreOf(v);
             var later := at + Span(a, env.period);
             |v.anchors| + |Segments(env, c, at, a)| + |Segments(env, After(env, c, a), later, b)| <= 64
    ensures var later := at + Span(a, Period(rate));
            Audible(Rendered(v, a + b, rate, at), now)
                == Audible(Rendered(Rendered(v, a, rate, at), b, rate, later), now)
  {
    if Torn(v, a, rate) {
      TornClock(v, a, b, rate, at, now);
    } else {
      UntornClock(v, a, b, rate, at, now);
    }
  }

  lemma UntornClock(v: PlayerView, a: nat, b: nat, rate: nat, at: real, now: real)
    requires Sounds(v, rate) && !v.media.unavailable && !Torn(v, a, rate)
    requires var env, c := EnvOf(v, rate), CoreOf(v);
             var later := at + Span(a, env.period);
             |v.anchors| + |Segments(env, c, at, a)| + |Segments(env, After(env, c, a), later, b)| <= 64
    ensures var later := at + Span(a, Period(rate));
            Audible(Rendered(v, a + b, rate, at), now)
                == Audible(Rendered(Rendered(v, a, rate, at), b, rate, later), now)
  {
    var env, c := EnvOf(v, rate), CoreOf(v);
    var later := at + Span(a, env.period);
    var first := Rendered(v, a, rate, at);
    var segments := Segments(env, c, at, a);
    SplitNeedsNoFewerAnchors(env, c, at, a, b, later);
    RenderedClock(v, a + b, rate, at, now);
    RenderedClock(v, a, rate, at, now);
    CallsResume(v, a, rate, at);
    EnqueueAllFits(v.anchors, segments, |segments|);
    RenderedClock(first, b, rate, later, now);
    HeardAtAdd(env, c, at, a, b, Audible(v, now), now);
  }

  lemma TornClock(v: PlayerView, a: nat, b: nat, rate: nat, at: real, now: real)
    requires Torn(v, a, rate)
    ensures var later := at + Span(a, Period(rate));
            Audible(Rendered(v, a + b, rate, at), now)
                == Audible(Rendered(Rendered(v, a, rate, at), b, rate, later), now)
  {
    var env, c := EnvOf(v, rate), CoreOf(v);
    var d := After(env, c, a);
    TornMeans(v, a, rate, at);
    SilenceAddsNoSegment(env, c, at, a, a + b);
    NoSegments(env, d.(state := Playing), at + Span(a, Period(rate)), b);
  }

  /** A clip still being received, 0.1 s of audio with curves up to its end. */
  function StillReceiving(): Media { Media(1, 5, 1_600, 0.1, false, false, false, true) }

  /** The law does fail: stream with no buffer, seek to the end of what is ready, press Play. Two calls of one frame
      then count two underruns, one call of two frames counts one. */
  lemma ChunkingNeedsABuffer(blocks: seq<AudioBlock>, now: real, at: real, later: real)
    ensures var v := PlayerView(StillReceiving(), blocks, Paused, false, true, 0.0, 0, 0.0, 0.0, [], false);
            var sought := Commanded(v, Seek(Finite(0.1)), now);
            && sought.Ok? && Commanded(sought.value, Play, now).Ok?
            && var playing := Commanded(sought.value, Play, now).value;
               && playing.state.Playing? && Bounded(playing) && Torn(playing, 1, 16_000)
               && Rendered(playing, 2, 16_000, at).underruns == 1
               && Rendered(Rendered(playing, 1, 16_000, at), 1, 16_000, later).underruns == 2
  {
    var v := PlayerView(StillReceiving(), blocks, Paused, false, true, 0.0, 0, 0.0, 0.0, [], false);
    var playing := Commanded(Commanded(v, Seek(Finite(0.1)), now).value, Play, now).value;
    var env, c := EnvOf(playing, 16_000), CoreOf(playing);
    PeriodBounds(16_000);
    assert Span(0, env.period) == 0.0 && DryAt(env, c, 0) && Ahead(playing, 0, 16_000) >= playing.streamBuffer;
    RunsDry(env, c, 0, 1);
    RunsDry(env, c, 0, 2);
    var mid := Rendered(playing, 1, 16_000, at);
    assert DryAt(EnvOf(mid, 16_000), CoreOf(mid), 0);
    RunsDry(EnvOf(mid, 16_000), CoreOf(mid), 0, 1);
  }

  // ---------------------------------------------------------------- the run invariant

  /** Media may be submitted up to here, one device frame past what is ready. */
  function Limit(media: Media): real { media.readyUntil + 0.0000625 }

  predicate AnchorWithin(a: Anchor, limit: real) {
    0.0 <= a.media && 0.0 <= a.period && a.frames > 0 && a.End() < limit
  }

  predicate AllWithin(anchors: seq<Anchor>, limit: real) {
    forall i | 0 <= i < |anchors| :: AnchorWithin(anchors[i], limit)
  }

  predicate AllEndBy(anchors: seq<Anchor>, ceiling: real) {
    forall i | 0 <= i < |anchors| :: anchors[i].End() <= ceiling
  }

  /** What was submitted last is what the last anchor ends with. */
  predicate EndsAt(anchors: seq<Anchor>, base: real, submitted: real) {
    submitted == if |anchors| == 0 then base else anchors[|anchors| - 1].End()
  }

  /** The invariant of every player run. */
  predicate Bounded(v: PlayerView) {
    && 0.0 <= v.submitted < Limit(v.media) && 0.0 <= v.position < Limit(v.media)
    && |v.anchors| <= 64 && AllWithin(v.anchors, Limit(v.media))
    && EndsAt(v.anchors, v.position, v.submitted)
    && (!v.wrapped ==> v.position <= v.submitted && AllEndBy(v.anchors, v.submitted))
  }

  predicate MediaWithin(media: Media) { 0.0 <= media.readyUntil <= media.Duration() }

  lemma HeardWithin(a: Anchor, now: real)
    requires 0.0 <= a.media && 0.0 <= a.period && a.at <= now
    ensures 0.0 <= a.Heard(now) <= a.End()
  {
    SpanGrows(0, a.frames, a.period);
  }

  lemma {:induction false} ClockWithin(anchors: seq<Anchor>, n: nat, base: real, now: real, limit: real)
    requires n <= |anchors| && AllWithin(anchors, limit) && 0.0 <= base < limit
    ensures 0.0 <= Clock(anchors, n, base, now) < limit
    ensures forall ceiling | base <= ceiling && AllEndBy(anchors, ceiling) :: Clock(anchors, n, base, now) <= ceiling
  {
    if n > 0 {
      ClockWithin(anchors, n - 1, base, now, limit);
      if anchors[n - 1].at <= now {
        HeardWithin(anchors[n - 1], now);
      }
    }
  }

  /** Wall time alone never advances playback: whatever `now` is, nothing beyond what was submitted is heard,
      and nothing beyond the playable media by more than one frame. */
  lemma AudibleWithin(v: PlayerView, now: real)
    requires Bounded(v)
    ensures 0.0 <= Audible(v, now) < Limit(v.media)
    ensures !v.wrapped ==> Audible(v, now) <= v.submitted
  {
    ClockWithin(v.anchors, |v.anchors|, v.position, now, Limit(v.media));
  }

  /** Every sounding frame reads a sample that exists. */
  lemma SoundInsideAudio(env: Env, c: Core)
    requires Hear(env, c).Sounding? && MediaWithin(env.media) && 0.0 <= c.submitted
    ensures 0 <= (Hear(env, c).media * 16_000.0).Floor < env.media.sampleCount
  {
    var media := Hear(env, c).media;
    assert media * 16_000.0 < env.media.sampleCount as real;
  }

  lemma {:induction false} CoreWithin(env: Env, c: Core, n: nat)
    requires 0.0 < env.period <= 0.0000625 && 0.0 <= c.submitted < Limit(env.media)
    ensures 0.0 <= After(env, c, n).submitted < Limit(env.media)
    ensures !After(env, c, n).wrapped ==> !c.wrapped && c.submitted <= After(env, c, n).submitted
  {
    if n > 0 {
      CoreWithin(env, c, n - 1);
    }
  }

  lemma {:induction false} SegmentsWithin(env: Env, c: Core, at: real, n: nat)
    requires 0.0 < env.period <= 0.0000625 && 0.0 <= c.submitted < Limit(env.media)
    ensures var segments, d := Segments(env, c, at, n), After(env, c, n);
            && AllWithin(segments, Limit(env.media)) && EndsAt(segments, c.submitted, d.submitted)
            && (!d.wrapped ==> AllEndBy(segments, d.submitted))
  {
    if n > 0 {
      SegmentsWithin(env, c, at, n - 1);
      CoreWithin(env, c, n - 1);
      CoreWithin(env, c, n);
      var done, segments := Segments(env, c, at, n - 1), Segments(env, c, at, n);
      if Hear(env, After(env, c, n - 1)).Sounding? {
        OpenSegment(env, c, at, n);
        forall i | 0 <= i < |segments|
          ensures AnchorWithin(segments[i], Limit(env.media))
          ensures !After(env, c, n).wrapped ==> segments[i].End() <= After(env, c, n).submitted
        {
          if i < |segments| - 1 {
            assert segments[i] == done[i];
          } else {
            assert segments[i].End() == After(env, c, n).submitted;
            assert segments[i].frames == 1 || segments[i].media == done[i].media;
            assert AnchorWithin(segments[i], Limit(env.media));
          }
        }
      }
    }
  }

  lemma {:induction false} EnqueueKeeps(anchors: seq<Anchor>, more: seq<Anchor>, n: nat, limit: real, ceiling: real)
    requires n <= |more| && |anchors| <= 64
    ensures var all := EnqueueAll(anchors, more, n);
            && |all| <= 64
            && (AllWithin(anchors, limit) && AllWithin(more, limit) ==> AllWithin(all, limit))
            && (AllEndBy(anchors, ceiling) && AllEndBy(more, ceiling) ==> AllEndBy(all, ceiling))
            && (n > 0 ==> |all| > 0 && all[|all| - 1] == more[n - 1])
  {
    if n > 0 {
      EnqueueKeeps(anchors, more, n - 1, limit, ceiling);
    }
  }

  lemma RenderKeepsBounds(v: PlayerView, n: nat, rate: nat, at: real)
    requires Bounded(v)
    ensures Bounded(Rendered(v, n, rate, at))
  {
    if Sounds(v, rate) && !v.media.unavailable {
      var env, c := EnvOf(v, rate), CoreOf(v);
      var segments, d := Segments(env, c, at, n), After(env, c, n);
      PeriodBounds(rate);
      CoreWithin(env, c, n);
      SegmentsWithin(env, c, at, n);
      EnqueueKeeps(v.anchors, segments, |segments|, Limit(v.media), d.submitted);
    }
  }

  lemma CommandKeepsBounds(v: PlayerView, command: Command, now: real)
    requires Bounded(v) && MediaWithin(v.media)
    ensures var r := Commanded(v, command, now); r.Ok? ==> Bounded(r.value) && r.value.media == v.media
  {
    AudibleWithin(v, now);
  }

  /** New media may only extend what is playable; then everything submitted stays within bounds. */
  lemma UpdateKeepsBounds(v: PlayerView, media: Media, first: nat, more: seq<AudioBlock>, now: real)
    requires Bounded(v) && MediaWithin(media) && v.media.readyUntil <= media.readyUntil
    ensures var r := Updated(v, media, first, more, now); r.Some? ==>
              Bounded(r.value) && r.value.media == media.(unavailable := r.value.media.unavailable)
  {
    AdoptKeepsBounds(v.(blocks := v.blocks + more), media, now);
  }

  lemma AdoptKeepsBounds(v: PlayerView, media: Media, now: real)
    requires Bounded(v) && MediaWithin(media) && v.media.readyUntil <= media.readyUntil
    ensures Bounded(WithMedia(v, media, now))
  {
    var w := v.(media := media.(unavailable := v.media.unavailable || media.unavailable));
    assert Bounded(w) by {
      assert AllWithin(w.anchors, Limit(w.media));
    }
    AudibleWithin(w, now);
  }

  /** Anything that can happen to a player. */
  datatype Event =
    | Do(command: Command, now: real)
    | Render(frames: nat, rate: nat, at: real)
    | Look(now: real)
    | Grow(media: Media, first: nat, more: seq<AudioBlock>, now: real)

  function Step(v: PlayerView, e: Event): PlayerView {
    match e
    case Do(command, now) => var r := Commanded(v, command, now); if r.Ok? then r.value else v
    case Render(frames, rate, at) => Rendered(v, frames, rate, at)
    case Look(now) => Observed(v, now)
    case Grow(media, first, more, now) => var r := Updated(v, media, first, more, now); if r.Some? then r.value else v
  }

  function Run(v: PlayerView, events: seq<Event>, n: nat): PlayerView
    requires n <= |events|
  {
    if n == 0 then v else Step(Run(v, events, n - 1), events[n - 1])
  }

  /** Updates come from one clip, whose playable end never moves back. */
  predicate GrowsOnly(v: PlayerView, events: seq<Event>) {
    forall i | 0 <= i < |events| && events[i].Grow? ::
      MediaWithin(events[i].media) && Run(v, events, i).media.readyUntil <= events[i].media.readyUntil
  }

  /** Over every run: positions stay inside the playable media (up to one frame), and without a wrap
      nothing is heard that was not submitted. */
  lemma {:induction false} RunStaysBounded(v: PlayerView, events: seq<Event>, n: nat)
    requires n <= |events| && Bounded(v) && MediaWithin(v.media) && GrowsOnly(v, events)
    ensures var w := Run(v, events, n); Bounded(w) && MediaWithin(w.media)
    ensures forall now :: var w := Run(v, events, n);
              0.0 <= Audible(w, now) < Limit(w.media) && (!w.wrapped ==> Audible(w, now) <= w.submitted)
  {
    if n > 0 {
      RunStaysBounded(v, events, n - 1);
      var u := Run(v, events, n - 1);
      match events[n - 1] {
        case Do(command, now) => CommandKeepsBounds(u, command, now);
        case Render(frames, rate, at) => RenderKeepsBounds(u, frames, rate, at);
        case Look(_) =>
        case Grow(media, first, more, now) =>
          UpdateKeepsBounds(u, media, first, more, now);
      }
    }
    var w := Run(v, events, n);
    forall now
      ensures 0.0 <= Audible(w, now) < Limit(w.media) && (!w.wrapped ==> Audible(w, now) <= w.submitted)
    {
      AudibleWithin(w, now);
    }
  }

  // ---------------------------------------------------------------- what the operations mean

  /** From now on only this position is heard, and it is played from next. */
  ghost predicate RestsAt(w: PlayerView, time: real) { w.submitted == time && forall t :: Audible(w, t) == time }

  /** At most the position and the state differ. */
  predicate OnlyMoved(v: PlayerView, w: PlayerView) {
    v == w.(state := v.state, submitted := v.submitted, position := v.position, anchors := v.anchors,
            wrapped := v.wrapped)
  }

  /** Pausing stops the clock where it stands; what was submitted but not yet heard will be played again. */
  lemma PauseMeans(v: PlayerView, now: real)
    ensures var r := Commanded(v, Pause, now);
            r.Ok? && r.value.state.Paused? && RestsAt(r.value, Audible(v, now)) && OnlyMoved(v, r.value)
  {
  }

  /** Seeking goes anywhere inside the playable media and nowhere else; only an ended player changes state by it. */
  lemma SeekMeans(v: PlayerView, time: Float, now: real)
    ensures var r := Commanded(v, Seek(time), now);
            && (r.Ok? <==> time.Finite? && 0.0 <= time.value <= v.media.readyUntil)
            && (r.Err? ==> r == Err(SeekOutside))
            && (r.Ok? ==> RestsAt(r.value, time.value) && OnlyMoved(v, r.value))
            && (r.Ok? ==> r.value.state == if v.state == Ended then Paused else v.state)
  {
  }

  /** Playing goes on where the player stands, or from the start once it has ended; it waits when the stream has less
      ahead than its buffer. */
  lemma PlayMeans(v: PlayerView, now: real)
    ensures var r := Commanded(v, Play, now);
            && (r.Ok? <==>
                  !v.media.unavailable && (v.streaming || v.media.jobReady) && v.media.sampleCount > 0
                  && v.media.hasFrames)
            && (r == Err(ResultUnavailable) <==> v.media.unavailable)
            && (r == Err(NotReady) <==> !v.media.unavailable && !v.streaming && !v.media.jobReady)
            && (r.Ok? ==> OnlyMoved(v, r.value) && (r.value.state.Playing? || r.value.state.Buffering?))
            && (r.Ok? && v.state != Ended ==> r.value == v.(state := r.value.state))
            && (r.Ok? && v.state == Ended ==> RestsAt(r.value, 0.0))
            && (r.Ok? ==>
                  (r.value.state.Buffering? <==>
                     v.streaming && !v.media.complete && r.value.submitted + v.streamBuffer > v.media.readyUntil))
  {
  }

  /** Looping is switched as told, at once and without moving anything. */
  lemma LoopMeans(v: PlayerView, looping: bool, now: real)
    ensures Commanded(v, SetLoop(looping), now) == Ok(v.(looping := looping))
  {
  }

  /** The reported time is the audible position, cut off at the duration, which it exceeds by less than a frame. */
  lemma ClockTimeMeans(v: PlayerView, now: real)
    ensures Audible(v, now) <= v.media.Duration() ==> ClockTime(v, now) == Audible(v, now)
    ensures Audible(v, now) > v.media.Duration() ==> ClockTime(v, now) == v.media.Duration()
    ensures Bounded(v) && MediaWithin(v.media) ==> Audible(v, now) - 0.0000625 < ClockTime(v, now) <= Audible(v, now)
  {
    if Bounded(v) {
      AudibleWithin(v, now);
    }
  }

  /** A snapshot ends the playback of a complete clip that is heard to its end without looping, and changes nothing
      else. */
  lemma ObservedMeans(v: PlayerView, now: real)
    ensures var ends := v.state == Playing && v.media.complete && !v.looping
                && Audible(v, now) + 0.00000001 >= v.media.Duration();
            Observed(v, now) == if ends then v.(state := Ended) else v
  {
  }

  /** As long as the result is available an accepted update brings its blocks and metadata, and everything else about
      the player stays as it is: what is playing plays on. */
  lemma UpdateKeepsTheRest(v: PlayerView, media: Media, first: nat, more: seq<AudioBlock>, now: real)
    requires Accepts(v, media, first, more) && !v.media.unavailable && !media.unavailable
    ensures Updated(v, media, first, more, now) == Some(v.(blocks := v.blocks + more, media := media))
  {
  }

  /** One that withdraws the result, or comes after that, pauses the player where it is heard. */
  lemma WithdrawalPauses(v: PlayerView, media: Media, first: nat, more: seq<AudioBlock>, now: real)
    requires Accepts(v, media, first, more) && (v.media.unavailable || media.unavailable)
    ensures var r := Updated(v, media, first, more, now);
            && r.Some? && r.value.state.Paused? && RestsAt(r.value, Audible(v, now))
            && r.value.media == media.(unavailable := true) && r.value.blocks == v.blocks + more
            && OnlyMoved(v, r.value.(media := v.media, blocks := v.blocks))
  {
  }

  /** Without Play, without a usable device rate or without an available result there is no sound. */
  lemma SilentUnlessPlaying(v: PlayerView, n: nat, rate: nat, at: real, i: nat)
    requires v.state.Paused? || v.state.Ended? || rate < 16_000 || v.media.unavailable
    ensures RenderedSample(v, rate, i) == 0.0
    ensures var stops := v.media.unavailable && rate >= 16_000 && (v.state.Playing? || v.state.Buffering?);
            Rendered(v, n, rate, at) == if stops then v.(state := Paused) else v
  {
  }

  /** A Buffering player on a clip still being received plays on with the next frame exactly when a full stream buffer,
      and more than nothing, is ahead. */
  lemma BufferingWaits(v: PlayerView, rate: nat, at: real)
    requires v.state.Buffering? && !v.media.complete && !v.media.unavailable && rate >= 16_000
    ensures var ahead := v.media.readyUntil - v.submitted;
            Rendered(v, 1, rate, at).submitted
              == if ahead >= v.streamBuffer && ahead > 0.000000001 then v.submitted + 1.0 / rate as real
                 else v.submitted
  {
    assert After(EnvOf(v, rate), CoreOf(v), 1) == Next(EnvOf(v, rate), After(EnvOf(v, rate), CoreOf(v), 0));
  }

  // ---------------------------------------------------------------- the end of playback

  /** On a complete clip without looping every frame sounds until the media is exhausted. */
  lemma {:induction false} PlaysOut(env: Env, c: Core, n: nat)
    requires c.state.Playing? && env.media.complete && !env.looping && 0.0 < env.period
    ensures var d := After(env, c, n);
            && d.state.Playing? && d.underruns == c.underruns && d.wrapped == c.wrapped
            && (!Exhausted(env, d) ==> d.submitted == c.submitted + Span(n, env.period))
  {
    if n > 0 {
      PlaysOut(env, c, n - 1);
    }
  }

  /** It stops at the first frame boundary `k` at which the media is exhausted. */
  lemma {:induction false} StopsAt(env: Env, c: Core, k: nat, n: nat)
    requires c.state.Playing? && env.media.complete && !env.looping && 0.0 < env.period && k <= n
    requires c.submitted + Span(k, env.period) + 0.000000001 >= env.media.readyUntil
    requires k > 0 ==> c.submitted + Span(k - 1, env.period) + 0.000000001 < env.media.readyUntil
    ensures After(env, c, n) == c.(submitted := c.submitted + Span(k, env.period))
  {
    if n > k {
      StopsAt(env, c, k, n - 1);
    } else {
      RunsUpTo(env, c, k, k);
    }
  }

  lemma {:induction false} RunsUpTo(env: Env, c: Core, k: nat, n: nat)
    requires c.state.Playing? && 0.0 < env.period && n <= k
    requires k > 0 ==> c.submitted + Span(k - 1, env.period) + 0.000000001 < env.media.readyUntil
    ensures After(env, c, n) == c.(submitted := c.submitted + Span(n, env.period))
  {
    if n > 0 {
      RunsUpTo(env, c, k, n - 1);
      SpanGrows(n - 1, k - 1, env.period);
    }
  }

  /** The last anchor has been heard completely. */
  predicate PastLastAnchor(v: PlayerView, now: real) {
    |v.anchors| > 0 ==> var last := v.anchors[|v.anchors| - 1]; last.at + last.Length() <= now
  }

  /** Past the last anchor the clock rests on what was submitted. */
  lemma RestsOnSubmitted(v: PlayerView, now: real)
    requires Bounded(v) && PastLastAnchor(v, now)
    ensures Audible(v, now) == v.submitted
  {
    if |v.anchors| > 0 {
      var last := v.anchors[|v.anchors| - 1];
      SpanGrows(0, last.frames, last.period);
    }
  }

  /** Exactly when playing a complete clip out makes later snapshots report `Ended`: the frame boundary
      `k` on which it stops must lie within the snapshot's tolerance of the duration. */
  lemma EndReportedIff(v: PlayerView, k: nat, n: nat, rate: nat, at: real, now: real)
    requires Bounded(v) && v.state.Playing? && v.media.complete && !v.looping && !v.media.unavailable
              && rate >= SAMPLE_RATE && k <= n
    requires v.submitted + Span(k, Period(rate)) + 0.000000001 >= v.media.readyUntil
    requires k > 0 ==> v.submitted + Span(k - 1, Period(rate)) + 0.000000001 < v.media.readyUntil
    requires PastLastAnchor(Rendered(v, n, rate, at), now)
    ensures Observed(Rendered(v, n, rate, at), now).state.Ended?
       <==> v.submitted + Span(k, Period(rate)) + 0.00000001 >= v.media.Duration()
  {
    PeriodBounds(rate);
    RenderKeepsBounds(v, n, rate, at);
    StopsAt(EnvOf(v, rate), CoreOf(v), k, n);
    RestsOnSubmitted(Rendered(v, n, rate, at), now);
  }

  /** When the curves reach the end of the audio, enough frames always end playback. */
  lemma EndIsReported(v: PlayerView, n: nat, rate: nat, at: real, now: real)
    requires Bounded(v) && v.state.Playing? && v.media.complete && !v.looping && !v.media.unavailable
              && rate >= SAMPLE_RATE
    requires v.media.readyUntil == v.media.Duration() && v.submitted + Span(n, Period(rate)) >= v.media.readyUntil
    requires PastLastAnchor(Rendered(v, n, rate, at), now)
    ensures Observed(Rendered(v, n, rate, at), now).state.Ended?
  {
    PeriodBounds(rate);
    RenderKeepsBounds(v, n, rate, at);
    PlaysOut(EnvOf(v, rate), CoreOf(v), n);
    RestsOnSubmitted(Rendered(v, n, rate, at), now);
  }

  /** Short of the tolerance, nothing that is heard or observed later ever ends the playback. */
  lemma {:induction false} NeverEnds(v: PlayerView, events: seq<Event>, n: nat)
    requires n <= |events| && Bounded(v) && MediaWithin(v.media) && !v.wrapped && v.state.Playing? && v.media.complete
              && !v.looping && !v.media.unavailable
    requires v.submitted + 0.000000001 >= v.media.readyUntil && v.submitted + 0.00000001 < v.media.Duration()
    requires forall i | 0 <= i < n :: events[i].Render? || events[i].Look?
    ensures Run(v, events, n) == v
  {
    if n > 0 {
      NeverEnds(v, events, n - 1);
      match events[n - 1] {
        case Render(frames, rate, at) =>
          if Sounds(v, rate) {
            SilenceLasts(EnvOf(v, rate), CoreOf(v), frames);
            NoSegments(EnvOf(v, rate), CoreOf(v), at, frames);
          }
        case Look(now) => AudibleWithin(v, now);
      }
    }
  }

  /** A tenth of a second of silence. */
  function Quiet(): seq<real> { seq(1600, i => 0.0) }

  /** A clip the collection accepts although its last 0.5 microseconds can never be played: 1600 samples,
      curves up to 0.0499995 s. */
  function ShortTail(): ClipView {
    var frames := [CurveSample(0.0, [0.0], 1), CurveSample(0.0499995, [0.0], 1)];
    ClipView(1, ["jawOpen"], 31, frames, [AudioBlock(0, Quiet())], [], Completed, 5,
             ClipRevision(1, 1, 2, 0, 1), 0.0499995, false, 31 + BlockCost(1600) + 2 * FrameCost(1))
  }

  /** So an accepted, completed clip can be played to its end without ever being reported as ended: seek to
      the end of its playable media and press Play. */
  lemma EndCanGoUnreported(now: real)
    ensures Consistent(ShortTail()) && ShortTail().session.Completed?
    ensures var v := PlayerView(FromClip(ShortTail()), ShortTail().blocks, Paused, false, false, 0.1, 0, 0.0, 0.0, [],
                                false);
            var sought := Commanded(v, Seek(Finite(v.media.readyUntil)), now);
            && sought.Ok? && Commanded(sought.value, Play, now).Ok?
            && var playing := Commanded(sought.value, Play, now).value;
               && playing.state.Playing?
               && forall events: seq<Event> | forall i | 0 <= i < |events| :: events[i].Render? || events[i].Look? ::
                    Run(playing, events, |events|) == playing
  {
    var clip := ShortTail();
    var b := clip.blocks;
    assert b[..0] == [] && BlocksCost(b, 1) == BlocksCost(b, 0) + BlockCost(1600);
    assert FramesCost(clip.frames, 2) == FramesCost(clip.frames, 1) + FrameCost(1) == FramesCost(clip.frames, 0)
        + 2 * FrameCost(1);
    assert Covered(clip.frames, 0) == 0 && Covered(clip.frames, 1) == 1 && Covered(clip.frames, 2) == 2;
    assert FramesOrdered(clip.frames, 1, 0) && FramesOrdered(clip.frames, 1, 1) && FramesOrdered(clip.frames, 1, 2);
    assert |"jawOpen"| == 7;
    var v := PlayerView(FromClip(clip), b, Paused, false, false, 0.1, 0, 0.0, 0.0, [], false);
    var playing := Commanded(Commanded(v, Seek(Finite(v.media.readyUntil)), now).value, Play, now).value;
    forall events: seq<Event> | forall i | 0 <= i < |events| :: events[i].Render? || events[i].Look?
      ensures Run(playing, events, |events|) == playing
    {
      NeverEnds(playing, events, |events|);
    }
  }

  lemma {:induction false} SilenceAddsNoSegment(env: Env, c: Core, at: real, i: nat, n: nat)
    requires i <= n && Hear(env, After(env, c, i)).Silent?
    ensures Segments(env, c, at, n) == Segments(env, c, at, i)
    ensures n > i ==> After(env, c, n) == Next(env, After(env, c, i))
    ensures forall j | i <= j < n :: SampleOf(env, After(env, c, j)) == 0.0
    decreases n
  {
    if n > i {
      SilenceAddsNoSegment(env, c, at, i, n - 1);
      AfterAdd(env, c, i, n - 1 - i);
      SilenceLasts(env, After(env, c, i), n - 1 - i);
      AfterAdd(env, c, i, n - i);
      SilenceLasts(env, After(env, c, i), n - i);
    }
  }

  lemma {:induction false} NoSegments(env: Env, c: Core, at: real, n: nat)
    requires Hear(env, c).Silent?
    ensures Segments(env, c, at, n) == []
  {
    if n > 0 {
      NoSegments(env, c, at, n - 1);
      SilenceLasts(env, c, n - 1);
    }
  }

  /** A looping render of an accepted collection never falls silent. */
  lemma {:induction false} LoopNeverSilent(env: Env, c: Core, n: nat)
    requires c.state.Playing? && CanWrap(env)
    ensures Hear(env, After(env, c, n)).Sounding?
    ensures After(env, c, n).state.Playing? && After(env, c, n).underruns == c.underruns
  {
    if n > 0 {
      LoopNeverSilent(env, c, n - 1);
    }
  }

  lemma AcceptedClipsLoop(clip: ClipView, v: PlayerView, rate: nat, n: nat)
    requires Consistent(clip) && clip.session.Completed? && SampleCount(clip.blocks) > 0
    requires v.media == FromClip(clip) && v.looping && v.state.Playing? && rate >= SAMPLE_RATE
    ensures var env := EnvOf(v, rate); Hear(env, After(env, CoreOf(v), n)).Sounding?
    ensures forall at :: Rendered(v, n, rate, at).state.Playing?
  {
    CompletedIsLoopable(clip);
    LoopNeverSilent(EnvOf(v, rate), CoreOf(v), n);
  }

  /** Nothing is left to play, and some stream buffer is asked for before playing on. */
  predicate Starved(v: PlayerView) {
    v.media.readyUntil < v.submitted || (v.media.readyUntil == v.submitted && v.streamBuffer > 0.0)
  }

  /** A buffering player on a complete clip plays on at the next call exactly when it is not starved. */
  lemma BufferingResumesIff(v: PlayerView, n: nat, rate: nat, at: real)
    requires v.state.Buffering? && v.media.complete && !v.media.unavailable && rate >= SAMPLE_RATE
              && v.streamBuffer >= 0.0
    ensures Rendered(v, n, rate, at).state.Buffering? <==> Starved(v)
    ensures Rendered(v, n, rate, at).state.Playing? <==> !Starved(v)
  {
    var env, c := EnvOf(v, rate), CoreOf(v);
    if c.state.Buffering? {
      NothingWhileBuffering(env, c, n);
    } else {
      DryWhenBuffering(env, c, n);
    }
  }

  /** A starved one stays as it is through any renders and snapshots, and is never reported as ended. */
  lemma {:induction false} StarvedStays(v: PlayerView, events: seq<Event>, n: nat)
    requires n <= |events| && v.state.Buffering? && v.media.complete && !v.media.unavailable && v.streamBuffer >= 0.0
              && Starved(v)
    requires forall i | 0 <= i < n :: events[i].Render? || events[i].Look?
    ensures Run(v, events, n) == v
  {
    if n > 0 {
      StarvedStays(v, events, n - 1);
      if events[n - 1].Render? && Sounds(v, events[n - 1].rate) {
        var Render(frames, rate, at) := events[n - 1];
        NothingWhileBuffering(EnvOf(v, rate), CoreOf(v), frames);
        NoSegments(EnvOf(v, rate), CoreOf(v), at, frames);
      }
    }
  }

  // ---------------------------------------------------------------- withdrawn results

  /** Once its result is withdrawn and it is not playing, a player stays so through any events: it refuses
      Play and every callback buffer it fills is silent. */
  lemma {:induction false} WithdrawnStaysSilent(v: PlayerView, events: seq<Event>, n: nat)
    requires n <= |events| && v.media.unavailable && !v.state.Playing? && !v.state.Buffering?
    ensures var w := Run(v, events, n);
            && w.media.unavailable && !w.state.Playing? && !w.state.Buffering?
            && (forall now :: Commanded(w, Play, now) == Err(ResultUnavailable))
            && (forall rate: nat, i: nat :: RenderedSample(w, rate, i) == 0.0)
  {
    if n > 0 {
      WithdrawnStaysSilent(v, events, n - 1);
    }
  }

  /** Commands, rendering and looking never touch what is being played. */
  lemma {:induction false} OnlyUpdatesChangeMedia(v: PlayerView, events: seq<Event>, n: nat)
    requires n <= |events| && forall i | 0 <= i < n :: !events[i].Grow?
    ensures Run(v, events, n).media == v.media && Run(v, events, n).blocks == v.blocks
  {
    if n > 0 {
      OnlyUpdatesChangeMedia(v, events, n - 1);
    }
  }
}
