/** The player as a value (crates/audio2face3d-gui/src/playback.rs): what one rendered output
    frame does, what the bounded anchor queue means as a clock, and the run invariant. */
module PlaybackModel {
  import opened Common
  import opened AudioTracks
  import opened ClipModel

  datatype PlaybackState = Paused | Playing | Buffering | Ended

  datatype Command = Play | Pause | Seek(time: Float) | SetLoop(looping: bool)

  datatype PlaybackError =
    ResultUnavailable | NotReady | NothingToPlay | SeekOutside | StaleUpdate | AudioRejected | BufferTooLong

  /** Constant-size metadata of the clip being played. */
  datatype Media = Media(
    clipId: nat,
    revision: nat,
    sampleCount: nat,
    readyUntil: real,
    complete: bool,
    jobReady: bool,
    unavailable: bool,
    hasFrames: bool)
  {
    function Duration(): real { sampleCount as real / 16_000.0 }
  }

  function FromClip(v: ClipView): Media {
    Media(v.id, v.revision, SampleCount(v.blocks), ReadyUntil(v), v.session.Completed?, v.session.Completed?,
          v.session.Failed? || v.session.Cancelled?, |v.frames| > 0)
  }

  /** `frames` output frames of `period` seconds each. */
  function Span(frames: nat, period: real): real {
    if frames == 0 then 0.0 else Span(frames - 1, period) + period
  }

  lemma {:induction false} SpanIsProduct(frames: nat, period: real)
    ensures Span(frames, period) == frames as real * period
  {
    if frames > 0 {
      SpanIsProduct(frames - 1, period);
      var rest := (frames - 1) as real;
      assert frames as real == rest + 1.0;
      assert (rest + 1.0) * period == rest * period + period;
    }
  }

  lemma {:induction false} SpanAdd(a: nat, b: nat, period: real)
    ensures Span(a + b, period) == Span(a, period) + Span(b, period)
  {
    if b > 0 {
      SpanAdd(a, b - 1, period);
    }
  }

  lemma {:induction false} SpanGrows(a: nat, b: nat, period: real)
    requires a <= b && 0.0 <= period
    ensures 0.0 <= Span(a, period) <= Span(b, period)
    decreases b
  {
    if b > 0 {
      SpanGrows(if a < b then a else b - 1, b - 1, period);
    }
  }

  /** Output rate as a frame period. */
  function Period(rate: nat): real
    requires rate > 0
  {
    1.0 / rate as real
  }

  /** A device rate of at least 16 kHz has a period of at most 1/16000. */
  lemma PeriodBounds(rate: nat)
    requires rate >= SAMPLE_RATE
    ensures 0.0 < Period(rate) <= 0.0000625
  {
    var p, r := Period(rate), rate as real;
    assert p * r == 1.0;
    assert p > 0.0;
    assert p * 16_000.0 <= p * r;
  }

  /** `rate` frames of one period are a second. */
  lemma RatePeriodsAreASecond(rate: nat)
    requires rate > 0
    ensures Span(rate, Period(rate)) == 1.0
  {
    SpanIsProduct(rate, Period(rate));
  }

  /** `frames` output frames submitted together: the first is heard at `at` and plays media time `media`. */
  datatype Anchor = Anchor(at: real, media: real, frames: nat, period: real) {
    function Length(): real { Span(frames, period) }

    function End(): real { media + Length() }

    /** The media position heard at `now`, once the anchor has started. */
    function Heard(now: real): real { media + MinReal(now - at, Length()) }
  }

  datatype PlayerView = PlayerView(
    media: Media,
    blocks: seq<AudioBlock>,
    state: PlaybackState,
    looping: bool,
    streaming: bool,
    streamBuffer: real,
    underruns: nat,
    submitted: real,
    position: real,
    anchors: seq<Anchor>,
    /** History: a loop wrap has been rendered since the position was last set outright. */
    wrapped: bool)

  // ---------------------------------------------------------------- the clock

  /** The last of the first `n` anchors that has started decides; before any, `base`. */
  function Clock(anchors: seq<Anchor>, n: nat, base: real, now: real): real
    requires n <= |anchors|
  {
    if n == 0 then base
    else if anchors[n - 1].at <= now then anchors[n - 1].Heard(now)
    else Clock(anchors, n - 1, base, now)
  }

  function Audible(v: PlayerView, now: real): real { Clock(v.anchors, |v.anchors|, v.position, now) }

  lemma {:induction false} ClockKept(a: seq<Anchor>, b: seq<Anchor>, n: nat, base: real, now: real)
    requires n <= |a| && n <= |b| && forall i | 0 <= i < n :: a[i] == b[i]
    ensures Clock(a, n, base, now) == Clock(b, n, base, now)
  {
    if n > 0 {
      ClockKept(a, b, n - 1, base, now);
    }
  }

  /** Older anchors only matter as the fallback of the newer ones. */
  lemma {:induction false} ClockJoin(a: seq<Anchor>, b: seq<Anchor>, n: nat, base: real, now: real)
    requires n <= |b|
    ensures Clock(a + b, |a| + n, base, now) == Clock(b, n, Clock(a, |a|, base, now), now)
  {
    if n == 0 {
      ClockKept(a + b, a, |a|, base, now);
    } else {
      ClockJoin(a, b, n - 1, base, now);
    }
  }

  /** `anchor()`: the queue holds 64 entries and drops its oldest one to make room. */
  function Enqueue(anchors: seq<Anchor>, more: Anchor): seq<Anchor> {
    (if |anchors| == 64 then anchors[1..] else anchors) + [more]
  }

  function EnqueueAll(anchors: seq<Anchor>, more: seq<Anchor>, n: nat): seq<Anchor>
    requires n <= |more|
  {
    if n == 0 then anchors else Enqueue(EnqueueAll(anchors, more, n - 1), more[n - 1])
  }

  lemma {:induction false} EnqueueAllFits(anchors: seq<Anchor>, more: seq<Anchor>, n: nat)
    requires n <= |more| && |anchors| + n <= 64
    ensures EnqueueAll(anchors, more, n) == anchors + more[..n]
  {
    if n > 0 {
      EnqueueAllFits(anchors, more, n - 1);
      assert more[..n] == more[..n - 1] + [more[n - 1]];
    }
  }

  // ---------------------------------------------------------------- one output frame

  /** What a call of the renderer sees; `voice` is the sample heard at a media time. */
  datatype Env = Env(media: Media, voice: real -> real, looping: bool, period: real)

  datatype Core = Core(submitted: real, state: PlaybackState, underruns: nat, wrapped: bool)

  datatype Sound = Silent | Sounding(media: real, restart: bool)

  function Exhausted(env: Env, c: Core): bool { c.submitted + 0.000000001 >= env.media.readyUntil }

  function CanWrap(env: Env): bool {
    env.media.complete && env.looping && env.media.readyUntil > 0.0
    && env.media.readyUntil + 0.000001 >= env.media.Duration()
  }

  /** What the next output frame plays. */
  function Hear(env: Env, c: Core): Sound {
    if c.state != Playing then Silent
    else if !Exhausted(env, c) then Sounding(c.submitted, false)
    else if CanWrap(env) then Sounding(0.0, true)
    else Silent
  }

  function Next(env: Env, c: Core): Core {
    match Hear(env, c)
    case Sounding(media, restart) => c.(submitted := media + env.period, wrapped := c.wrapped || restart)
    case Silent =>
      if c.state == Playing && !env.media.complete then c.(underruns := c.underruns + 1, state := Buffering) else c
  }

  function After(env: Env, c: Core, n: nat): Core {
    if n == 0 then c else Next(env, After(env, c, n - 1))
  }

  function Lookup(flat: seq<real>, index: int): Option<real> {
    if 0 <= index < |flat| then Some(flat[index]) else None
  }

  function Blend(a: real, b: real, mix: real): real { a + (b - a) * mix }

  /** Linear interpolation in the flat sequence; past the end the last value holds, or zero. */
  function Interpolate(flat: seq<real>, time: real): real {
    var sample := time * 16_000.0;
    var index := sample.Floor;
    var a := match Lookup(flat, index) case Some(x) => x case None => 0.0;
    var b := match Lookup(flat, index + 1) case Some(x) => x case None => a;
    Blend(a, b, sample - index as real)
  }

  function Voice(blocks: seq<AudioBlock>): real -> real {
    time => Interpolate(Flat(blocks), time)
  }

  function SampleOf(env: Env, c: Core): real {
    match Hear(env, c)
    case Silent => 0.0
    case Sounding(media, _) => env.voice(media)
  }

  lemma {:induction false} AfterAdd(env: Env, c: Core, a: nat, b: nat)
    ensures After(env, c, a + b) == After(env, After(env, c, a), b)
  {
    if b > 0 {
      AfterAdd(env, c, a, b - 1);
    }
  }

  /** Once silent, every later frame of the call is silent and changes nothing more. */
  lemma {:induction false} SilenceLasts(env: Env, c: Core, n: nat)
    requires Hear(env, c).Silent?
    ensures Hear(env, After(env, c, n)).Silent?
    ensures n > 0 ==> After(env, c, n) == Next(env, c)
  {
    if n > 0 {
      SilenceLasts(env, c, n - 1);
    }
  }

  /** A sounding frame is preceded only by sounding frames. */
  lemma SoundBefore(env: Env, c: Core, i: nat, j: nat)
    requires i <= j && Hear(env, After(env, c, j)).Sounding?
    ensures Hear(env, After(env, c, i)).Sounding?
  {
    if Hear(env, After(env, c, i)).Silent? {
      SilenceLasts(env, After(env, c, i), j - i);
      AfterAdd(env, c, i, j - i);
    }
  }

  // ---------------------------------------------------------------- anchors of one call

  /** The anchors of the first `n` frames: frames that follow on share one, a wrap opens a new one. */
  function Segments(env: Env, c: Core, at: real, n: nat): seq<Anchor> {
    if n == 0 then []
    else
      var done := Segments(env, c, at, n - 1);
      match Hear(env, After(env, c, n - 1))
      case Silent => done
      case Sounding(media, restart) =>
        if restart || |done| == 0 then done + [Anchor(at + Span(n - 1, env.period), media, 1, env.period)]
        else done[|done| - 1 := done[|done| - 1].(frames := done[|done| - 1].frames + 1)]
  }

  /** What a listener hears at `now` of the first `n` frames: frame `i` is on from `at + i * period`
      and moves the position by at most one period; silence adds nothing. */
  function HeardAt(env: Env, c: Core, at: real, n: nat, base: real, now: real): real {
    if n == 0 then base
    else
      var start := at + Span(n - 1, env.period);
      match Hear(env, After(env, c, n - 1))
      case Sounding(media, _) =>
        if start <= now then media + MinReal(now - start, env.period) else HeardAt(env, c, at, n - 1, base, now)
      case Silent => HeardAt(env, c, at, n - 1, base, now)
  }

  /** While frames sound, the open anchor ends where the next frame starts, in output and in media time. */
  lemma {:induction false} OpenSegment(env: Env, c: Core, at: real, n: nat)
    requires n > 0 && Hear(env, After(env, c, n - 1)).Sounding?
    ensures var segments := Segments(env, c, at, n);
            && |segments| > 0
            && segments[|segments| - 1].at + segments[|segments| - 1].Length() == at + Span(n, env.period)
            && segments[|segments| - 1].End() == After(env, c, n).submitted
            && segments[|segments| - 1].period == env.period
  {
    if n > 1 {
      SoundBefore(env, c, n - 2, n - 1);
      OpenSegment(env, c, at, n - 1);
    }
  }

  /** An anchor's share of the clock. */
  function Started(a: Anchor, earlier: real, now: real): real { if a.at <= now then a.Heard(now) else earlier }

  /** Lengthening an anchor by one frame adds exactly what that frame is heard as. */
  lemma LongerAnchor(open: Anchor, start: real, earlier: real, now: real)
    requires 0.0 <= open.period && start == open.at + open.Length()
    ensures Started(open.(frames := open.frames + 1), earlier, now)
         == if start <= now then open.End() + MinReal(now - start, open.period) else Started(open, earlier, now)
  {
    SpanGrows(0, open.frames, open.period);
  }

  lemma ExtendedClock(env: Env, c: Core, at: real, n: nat, base: real, now: real)
    requires 0.0 <= env.period && n > 0 && Hear(env, After(env, c, n - 1)).Sounding?
              && !Hear(env, After(env, c, n - 1)).restart
    requires |Segments(env, c, at, n - 1)| > 0
    ensures var before, after, start := Segments(env, c, at, n - 1), Segments(env, c, at, n),
              at + Span(n - 1, env.period);
            (Clock(after, |after|, base, now)
             == if start <= now then After(env, c, n - 1).submitted + MinReal(now - start, env.period)
                 else Clock(before, |before|, base, now))
  {
    var before, after := Segments(env, c, at, n - 1), Segments(env, c, at, n);
    var k := |before| - 1;
    SoundBefore(env, c, n - 2, n - 1);
    OpenSegment(env, c, at, n - 1);
    assert after[k] == before[k].(frames := before[k].frames + 1);
    ClockKept(after, before, k, base, now);
    LongerAnchor(before[k], at + Span(n - 1, env.period), Clock(before, k, base, now), now);
    assert Clock(after, k + 1, base, now) == Started(after[k], Clock(before, k, base, now), now);
  }

  /** The run-length encoded anchors mean exactly the frame-by-frame clock. */
  lemma {:induction false} SegmentsAreTheClock(env: Env, c: Core, at: real, n: nat, base: real, now: real)
    requires 0.0 <= env.period
    ensures var segments := Segments(env, c, at, n);
            Clock(segments, |segments|, base, now) == HeardAt(env, c, at, n, base, now)
  {
    if n > 0 {
      SegmentsAreTheClock(env, c, at, n - 1, base, now);
      var before := Segments(env, c, at, n - 1);
      var after := Segments(env, c, at, n);
      match Hear(env, After(env, c, n - 1)) {
        case Silent =>
        case Sounding(media, restart) =>
          if restart || |before| == 0 {
            ClockKept(after, before, |before|, base, now);
            assert after[|before|].Length() == Span(0, env.period) + env.period;
          } else {
            ExtendedClock(env, c, at, n, base, now);
          }
      }
    }
  }

  /** The frame-by-frame clock does not see where a call ends, if the next call is heard right after it. */
  lemma {:induction false} HeardAtAdd(env: Env, c: Core, at: real, a: nat, b: nat, base: real, now: real)
    ensures HeardAt(env, c, at, a + b, base, now)
         == HeardAt(env, After(env, c, a), at + Span(a, env.period), b, HeardAt(env, c, at, a, base, now), now)
  {
    if b > 0 {
      HeardAtAdd(env, c, at, a, b - 1, base, now);
      AfterAdd(env, c, a, b - 1);
      SpanAdd(a, b - 1, env.period);
    }
  }
}
