/** What a listener gets: any rate interpolates linearly between neighbouring samples, the media's own rate
    reproduces them, looping repeats them, and the clock points at what sounds
    (crates/audio2face3d-gui/src/playback.rs). */
module Fidelity {
  import opened Common
  import opened AudioTracks
  import opened PlaybackModel
  import opened PlaybackLaws

  /** Media time of sample `k`. */
  function Instant(k: nat): real { k as real / 16_000.0 }

  lemma InterpolateAtSample(flat: seq<real>, k: nat)
    requires k < |flat|
    ensures Interpolate(flat, Instant(k)) == flat[k]
  {
    var time := Instant(k);
    assert time * 16_000.0 == k as real;
    assert (time * 16_000.0).Floor == k;
    BlendAtStart(flat[k], if k + 1 < |flat| then flat[k + 1] else flat[k]);
  }

  lemma BlendAtStart(a: real, b: real)
    ensures Blend(a, b, 0.0) == a
  {
  }

  /** The fraction of a period only mixes two neighbours, so no output exceeds its inputs. */
  lemma InterpolateBetween(flat: seq<real>, time: real)
    requires time >= 0.0
    requires (time * 16_000.0).Floor + 1 < |flat|
    ensures var index := (time * 16_000.0).Floor;
            MinReal(flat[index], flat[index + 1]) <= Interpolate(flat, time) <= MaxReal(flat[index], flat[index + 1])
  {
    var sample := time * 16_000.0;
    BlendBetween(flat[sample.Floor], flat[sample.Floor + 1], sample - sample.Floor as real);
  }

  lemma BlendBetween(a: real, b: real, mix: real)
    requires 0.0 <= mix <= 1.0
    ensures a <= b ==> a <= Blend(a, b, mix) <= b
    ensures b <= a ==> b <= Blend(a, b, mix) <= a
  {
    var d := b - a;
    ProductBetween(d, mix);
    Shifted(a, b, d * mix);
    assert Blend(a, b, mix) == a + d * mix;
  }

  lemma Shifted(a: real, b: real, step: real)
    ensures 0.0 <= step <= b - a ==> a <= a + step <= b
    ensures b - a <= step <= 0.0 ==> b <= a + step <= a
  {
  }

  lemma ProductBetween(d: real, mix: real)
    requires 0.0 <= mix <= 1.0
    ensures d >= 0.0 ==> 0.0 <= d * mix <= d
    ensures d <= 0.0 ==> d <= d * mix <= 0.0
  {
  }

  lemma AtPosition(k: nat, m: real)
    requires 0.0 <= m < 1.0
    ensures var sample := (k as real + m) / 16_000.0 * 16_000.0;
            sample == k as real + m && sample.Floor == k && sample - sample.Floor as real == m
  {
  }

  /** Between samples `k` and `k + 1` each of them counts by its nearness. */
  lemma InterpolatesLinearly(flat: seq<real>, k: nat, m: real)
    requires k + 1 < |flat| && 0.0 <= m < 1.0
    ensures Interpolate(flat, (k as real + m) / 16_000.0) == (1.0 - m) * flat[k] + m * flat[k + 1]
  {
    AtPosition(k, m);
    BlendIsWeighted(flat[k], flat[k + 1], m);
  }

  lemma BlendIsWeighted(a: real, b: real, m: real)
    ensures Blend(a, b, m) == (1.0 - m) * a + m * b
  {
    assert (1.0 - m) * a == a - m * a;
    assert (b - a) * m == m * b - m * a;
  }

  /** After the last sample its value holds, and past the end there is silence. */
  lemma HoldsTheLast(flat: seq<real>, k: nat, m: real)
    requires k + 1 >= |flat| && 0.0 <= m < 1.0
    ensures Interpolate(flat, (k as real + m) / 16_000.0) == if k < |flat| then flat[k] else 0.0
  {
    AtPosition(k, m);
    var a := if k < |flat| then flat[k] else 0.0;
    BlendIsWeighted(a, a, m);
    assert (1.0 - m) * a + m * a == a;
  }

  /** A call on a playing player has not used up the media before frame `i`. */
  predicate Reaches(v: PlayerView, rate: nat, i: nat) {
    && Sounds(v, rate) && !v.media.unavailable && CoreOf(v).state.Playing?
    && v.submitted + i as real / rate as real + 0.000000001 < v.media.readyUntil
  }

  lemma SpanOfFrames(i: nat, rate: nat)
    requires rate > 0
    ensures Span(i, Period(rate)) == i as real / rate as real
  {
    SpanIsProduct(i, Period(rate));
    Quotient(i as real, rate as real);
  }

  lemma Quotient(a: real, b: real)
    requires b > 0.0
    ensures a * (1.0 / b) == a / b
  {
  }

  /** Frame `i` sounds `i` frame periods after what was submitted before. */
  lemma ReachedFrame(v: PlayerView, rate: nat, i: nat)
    requires Reaches(v, rate, i)
    ensures After(EnvOf(v, rate), CoreOf(v), i) == CoreOf(v).(submitted := v.submitted + i as real / rate as real)
    ensures Hear(EnvOf(v, rate), After(EnvOf(v, rate), CoreOf(v), i))
         == Sounding(v.submitted + i as real / rate as real, false)
  {
    PeriodBounds(rate);
    SpanOfFrames(i, rate);
    RunsUpTo(EnvOf(v, rate), CoreOf(v), i + 1, i);
  }

  /** The audio from sample `k` on, `m` of the way to the next: each of the two counts by its nearness, and at the end
      the last sample holds. */
  function Mixed(flat: seq<real>, k: nat, m: real): real
    requires k < |flat|
  {
    if k + 1 < |flat| then (1.0 - m) * flat[k] + m * flat[k + 1] else flat[k]
  }

  lemma MixedIsInterpolated(flat: seq<real>, k: nat, m: real)
    requires k < |flat| && 0.0 <= m < 1.0
    ensures Interpolate(flat, (k as real + m) / 16_000.0) == Mixed(flat, k, m)
  {
    if k + 1 < |flat| {
      InterpolatesLinearly(flat, k, m);
    } else {
      HoldsTheLast(flat, k, m);
    }
  }

  /** At any device rate frame `i` plays the audio `i / rate` seconds on. */
  lemma AnyRateInterpolates(v: PlayerView, rate: nat, i: nat)
    requires Reaches(v, rate, i)
    ensures RenderedSample(v, rate, i) == Interpolate(Flat(v.blocks), v.submitted + i as real / rate as real)
  {
    ReachedFrame(v, rate, i);
  }

  lemma InsideAudio(readyUntil: real, samples: nat, k: nat, m: real)
    requires 0.0 <= m && (k as real + m) / 16_000.0 + 0.000000001 < readyUntil <= samples as real / 16_000.0
    ensures k < samples
  {
  }

  /** Played from sample `k`, frame `i` lies `16000 i / rate` samples further on. */
  lemma AnyRateResamples(v: PlayerView, rate: nat, i: nat, k: nat)
    requires Reaches(v, rate, i) && MediaWithin(v.media) && v.media.sampleCount == |Flat(v.blocks)|
    requires v.submitted == Instant(k)
    ensures var flat, j, m := Flat(v.blocks), k + i * 16_000 / rate, (i * 16_000 % rate) as real / rate as real;
            j < |flat| && RenderedSample(v, rate, i) == Mixed(flat, j, m)
  {
    var flat, j, m := Flat(v.blocks), k + i * 16_000 / rate, (i * 16_000 % rate) as real / rate as real;
    AnyRateInterpolates(v, rate, i);
    Further(k, i, rate);
    InsideAudio(v.media.readyUntil, |flat|, j, m);
    MixedIsInterpolated(flat, j, m);
  }

  lemma Further(k: nat, i: nat, rate: nat)
    requires rate > 0
    ensures var j, m := k + i * 16_000 / rate, (i * 16_000 % rate) as real / rate as real;
            0.0 <= m < 1.0 && Instant(k) + i as real / rate as real == (j as real + m) / 16_000.0
  {
    Resampled(i, rate);
  }

  lemma Resampled(i: nat, rate: nat)
    requires rate > 0
    ensures var m := (i * 16_000 % rate) as real / rate as real;
            0.0 <= m < 1.0 && i as real / rate as real == ((i * 16_000 / rate) as real + m) / 16_000.0
  {
    var q, r := i * 16_000 / rate, i * 16_000 % rate;
    assert i * 16_000 == q * rate + r;
    Fraction(i as real, q as real, r as real, rate as real);
  }

  lemma Fraction(i: real, q: real, r: real, rate: real)
    requires 0.0 <= r < rate && i * 16_000.0 == q * rate + r
    ensures 0.0 <= r / rate < 1.0 && i / rate == (q + r / rate) / 16_000.0
  {
    var m := r / rate;
    assert m * rate == r;
    assert (q + m) * rate == i * 16_000.0;
    assert i / rate == (q + m) * rate / 16_000.0 / rate;
  }

  /** The device runs at the media's rate and the next frame is sample `k`. */
  predicate OnGrid(v: PlayerView, k: nat) {
    && Sounds(v, 16_000) && !v.media.unavailable && CoreOf(v).state.Playing?
    && v.submitted == Instant(k) && v.media.sampleCount == |Flat(v.blocks)|
  }

  lemma {:induction false} GridStep(v: PlayerView, k: nat, i: nat)
    requires OnGrid(v, k) && (i > 0 ==> Instant(k + i - 1) + 0.000000001 < v.media.readyUntil)
    ensures After(EnvOf(v, 16_000), CoreOf(v), i) == CoreOf(v).(submitted := Instant(k + i))
  {
    if i > 0 {
      GridStep(v, k, i - 1);
    }
  }

  /** Until the playable end, frame `i` of a call at 16 kHz is exactly sample `k + i` of the audio. */
  lemma NativeRateIsExact(v: PlayerView, k: nat, i: nat)
    requires OnGrid(v, k) && MediaWithin(v.media)
    requires Instant(k + i) + 0.000000001 < v.media.readyUntil
    ensures k + i < |Flat(v.blocks)| && RenderedSample(v, 16_000, i) == Flat(v.blocks)[k + i]
  {
    GridStep(v, k, i);
    InterpolateAtSample(Flat(v.blocks), k + i);
  }

  lemma {:induction false} LoopStep(v: PlayerView, k: nat, i: nat)
    requires OnGrid(v, k) && v.looping && v.media.complete && v.media.readyUntil == v.media.Duration()
    requires k < |Flat(v.blocks)|
    ensures var env := EnvOf(v, 16_000);
            var heard := Hear(env, After(env, CoreOf(v), i));
            heard.Sounding? && heard.media == Instant((k + i) % |Flat(v.blocks)|)
  {
    var n := |Flat(v.blocks)|;
    if i > 0 {
      LoopStep(v, k, i - 1);
      NextIndex(k + i - 1, n);
    } else {
      assert k % n == k;
    }
  }

  lemma NextIndex(k: nat, n: nat)
    requires n > 0
    ensures (k + 1) % n == if k % n + 1 < n then k % n + 1 else 0
  {
    var q, r := k / n, k % n;
    if r + 1 < n {
      Remainder(k + 1, q, r + 1, n);
    } else {
      assert (q + 1) * n == q * n + n;
      Remainder(k + 1, q + 1, 0, n);
    }
  }

  lemma Remainder(k: nat, q: nat, r: nat, n: nat)
    requires n > 0 && r < n && k == q * n + r
    ensures k % n == r
  {
    var d := k / n - q;
    assert k == (k / n) * n + k % n;
    assert d * n == (k / n) * n - q * n == r - k % n;
    Multiples(d, n);
  }

  lemma Multiples(d: int, n: int)
    requires n > 0
    ensures d >= 1 ==> d * n >= n
    ensures d <= -1 ==> d * n <= -n
  {
  }

  /** A fully covered clip looped at 16 kHz repeats its samples for ever, with no gap and no repeated or lost sample at
      the seam. */
  lemma LoopRepeatsTheAudio(v: PlayerView, k: nat, i: nat)
    requires OnGrid(v, k) && v.looping && v.media.complete && v.media.readyUntil == v.media.Duration()
    requires k < |Flat(v.blocks)|
    ensures RenderedSample(v, 16_000, i) == Flat(v.blocks)[(k + i) % |Flat(v.blocks)|]
  {
    LoopStep(v, k, i);
    InterpolateAtSample(Flat(v.blocks), (k + i) % |Flat(v.blocks)|);
  }

  /** A looping player that uses up the media before frame `k` starts over there from the first sample, at any rate. */
  lemma {:induction false} LoopRestarts(v: PlayerView, rate: nat, k: nat, i: nat)
    requires Sounds(v, rate) && !v.media.unavailable && CoreOf(v).state.Playing? && v.looping && v.media.complete
    requires v.media.readyUntil > 0.0 && v.media.readyUntil + 0.000001 >= v.media.Duration()
    requires v.submitted + k as real / rate as real + 0.000000001 >= v.media.readyUntil
    requires k > 0 ==> Reaches(v, rate, k - 1)
    requires i > 0 ==> i as real / rate as real + 0.000000001 < v.media.readyUntil
    ensures After(EnvOf(v, rate), CoreOf(v), k + i + 1).submitted == (i + 1) as real / rate as real
    ensures RenderedSample(v, rate, k + i) == Interpolate(Flat(v.blocks), i as real / rate as real)
  {
    var env, c := EnvOf(v, rate), CoreOf(v);
    PeriodBounds(rate);
    SpanOfFrames(i, rate);
    SpanOfFrames(i + 1, rate);
    if i == 0 {
      SpanOfFrames(k, rate);
      if k > 0 {
        SpanOfFrames(k - 1, rate);
      }
      RunsUpTo(env, c, k, k);
    } else {
      EarlierSooner(i - 1, i, rate);
      LoopRestarts(v, rate, k, i - 1);
      LoopNeverSilent(env, c, k + i);
    }
  }

  /** The first frame at which the media is used up sounds exactly if the player loops a complete clip that can be
      played to within 1e-6 s of its end. */
  lemma LoopsIff(v: PlayerView, rate: nat, k: nat)
    requires Sounds(v, rate) && !v.media.unavailable && CoreOf(v).state.Playing?
    requires v.submitted + k as real / rate as real + 0.000000001 >= v.media.readyUntil
    requires k > 0 ==> Reaches(v, rate, k - 1)
    ensures Hear(EnvOf(v, rate), After(EnvOf(v, rate), CoreOf(v), k)).Sounding? <==>
              v.looping && v.media.complete && v.media.readyUntil > 0.0
              && v.media.readyUntil + 0.000001 >= v.media.sampleCount as real / 16_000.0
  {
    PeriodBounds(rate);
    SpanOfFrames(k, rate);
    if k > 0 {
      SpanOfFrames(k - 1, rate);
    }
    RunsUpTo(EnvOf(v, rate), CoreOf(v), k, k);
  }

  lemma EarlierSooner(i: nat, j: nat, rate: nat)
    requires i <= j && rate > 0
    ensures i as real / rate as real <= j as real / rate as real
  {
  }

  // ---------------------------------------------------------------- what sounds and what the clock says

  lemma {:induction false} HeardAtFrame(env: Env, c: Core, at: real, n: nat, base: real, i: nat)
    requires 0.0 < env.period && i < n && Hear(env, After(env, c, i)).Sounding?
    ensures HeardAt(env, c, at, n, base, at + Span(i, env.period)) == Hear(env, After(env, c, i)).media
  {
    if i < n - 1 {
      SpanGrows(i + 1, n - 1, env.period);
      HeardAtFrame(env, c, at, n - 1, base, i);
    }
  }

  /** At the moment a frame is heard the clock shows the very position whose sound the frame plays, loops included. */
  lemma SoundAndClockAgree(v: PlayerView, n: nat, rate: nat, at: real, i: nat)
    requires Sounds(v, rate) && !v.media.unavailable && i < n
    requires Hear(EnvOf(v, rate), After(EnvOf(v, rate), CoreOf(v), i)).Sounding?
    requires |v.anchors| + |Segments(EnvOf(v, rate), CoreOf(v), at, n)| <= 64
    ensures var heard := Audible(Rendered(v, n, rate, at), at + i as real / rate as real);
            RenderedSample(v, rate, i) == Interpolate(Flat(v.blocks), heard)
  {
    PeriodBounds(rate);
    SpanOfFrames(i, rate);
    RenderedClock(v, n, rate, at, at + i as real / rate as real);
    HeardAtFrame(EnvOf(v, rate), CoreOf(v), at, n, Audible(v, at + i as real / rate as real), i);
  }

  lemma {:induction false} OneAnchor(v: PlayerView, rate: nat, at: real, n: nat)
    requires n > 0 && Reaches(v, rate, n - 1)
    ensures Segments(EnvOf(v, rate), CoreOf(v), at, n) == [Anchor(at, v.submitted, n, Period(rate))]
  {
    var env, c := EnvOf(v, rate), CoreOf(v);
    ReachedFrame(v, rate, n - 1);
    if n > 1 {
      SpanOfFrames(n - 2, rate);
      SpanOfFrames(n - 1, rate);
      PeriodBounds(rate);
      OneAnchor(v, rate, at, n - 1);
    } else {
      assert Segments(env, c, at, 0) == [] && Span(0, env.period) == 0.0;
    }
  }

  /** A call heard from `at` on is heard at the speed of time: `x` seconds into it the clock is `x` seconds further
      than what was submitted before, whatever the queue held. */
  lemma HeardInTime(v: PlayerView, n: nat, rate: nat, at: real, x: real)
    requires n > 0 && Reaches(v, rate, n - 1) && 0.0 <= x <= n as real / rate as real
    ensures Audible(Rendered(v, n, rate, at), at + x) == v.submitted + x
  {
    var segments := Segments(EnvOf(v, rate), CoreOf(v), at, n);
    OneAnchor(v, rate, at, n);
    SpanOfFrames(n, rate);
    assert EnqueueAll(v.anchors, segments, 1) == Enqueue(EnqueueAll(v.anchors, segments, 0), segments[0]);
  }

  /** Pause and Play lose nothing: the next frame sounds at the position that was heard when Pause came. */
  lemma PauseAndPlayResume(v: PlayerView, rate: nat, now: real, later: real)
    requires rate >= 16_000 && Commanded(v, Play, now).Ok? && !v.streaming
    requires Audible(v, now) + 0.000000001 < v.media.readyUntil
    ensures var paused := Commanded(v, Pause, now).value;
            && Commanded(paused, Play, later).Ok?
            && RenderedSample(Commanded(paused, Play, later).value, rate, 0)
                == Interpolate(Flat(v.blocks), Audible(v, now))
  {
    var playing := Commanded(Commanded(v, Pause, now).value, Play, later).value;
    AnyRateInterpolates(playing, rate, 0);
  }

  /** How audio is cut into blocks is inaudible. */
  lemma BlocksAreInaudible(v: PlayerView, w: PlayerView, rate: nat, i: nat)
    requires w == v.(blocks := w.blocks) && Flat(v.blocks) == Flat(w.blocks)
    ensures RenderedSample(v, rate, i) == RenderedSample(w, rate, i)
  {
    if Sounds(v, rate) {
      SameCore(EnvOf(v, rate), EnvOf(w, rate), CoreOf(v), i);
    }
  }

  lemma {:induction false} SameCore(env: Env, other: Env, c: Core, n: nat)
    requires env.(voice := other.voice) == other
    ensures After(env, c, n) == After(other, c, n)
  {
    if n > 0 {
      SameCore(env, other, c, n - 1);
    }
  }
}
