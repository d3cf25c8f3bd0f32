/** When the audible clock runs forward, and when it turns back (crates/audio2face3d-gui/src/playback.rs). */
module ClockLaws {
  import opened Common
  import opened AudioTracks
  import opened PlaybackModel
  import opened PlaybackLaws

  /** Listening later never hears an earlier position. */
  ghost predicate RunsForward(anchors: seq<Anchor>, base: real) {
    forall s: real, t: real | s <= t :: Clock(anchors, |anchors|, base, s) <= Clock(anchors, |anchors|, base, t)
  }

  predicate Forwards(anchors: seq<Anchor>) { forall i | 0 <= i < |anchors| :: 0.0 <= anchors[i].period }

  // ---------------------------------------------------------------- queues in the order of their starts

  predicate StartsAscend(anchors: seq<Anchor>) { forall i, j | 0 <= i < j < |anchors| :: anchors[i].at < anchors[j].at }

  /** Each of the first n anchors takes over where the one before has got to, or later. */
  predicate TakesOver(anchors: seq<Anchor>, base: real, n: nat)
    requires n <= |anchors|
  {
    && (n > 0 ==> base <= anchors[0].media)
    && forall i | 0 <= i < n - 1 :: anchors[i].Heard(anchors[i + 1].at) <= anchors[i + 1].media
  }

  lemma HeardGrows(a: Anchor, s: real, t: real)
    requires 0.0 <= a.period && a.at <= s <= t
    ensures a.media <= a.Heard(s) <= a.Heard(t)
  {
    SpanGrows(0, a.frames, a.period);
  }

  /** What is heard before the next anchor starts does not exceed its first position. */
  lemma {:induction false} BeforeNext(anchors: seq<Anchor>, base: real, n: nat, s: real)
    requires n < |anchors| && Forwards(anchors) && StartsAscend(anchors) && TakesOver(anchors, base, n + 1)
              && s < anchors[n].at
    ensures Clock(anchors, n, base, s) <= anchors[n].media
  {
    if n > 0 {
      if anchors[n - 1].at <= s {
        HeardGrows(anchors[n - 1], s, anchors[n].at);
      } else {
        BeforeNext(anchors, base, n - 1, s);
        HeardGrows(anchors[n - 1], anchors[n - 1].at, anchors[n].at);
      }
    }
  }

  lemma {:induction false} TakingOverRunsForward(anchors: seq<Anchor>, base: real, n: nat, s: real, t: real)
    requires n <= |anchors| && Forwards(anchors) && StartsAscend(anchors) && TakesOver(anchors, base, n) && s <= t
    ensures Clock(anchors, n, base, s) <= Clock(anchors, n, base, t)
  {
    if n > 0 {
      var a := anchors[n - 1];
      if a.at <= s {
        HeardGrows(a, s, t);
      } else if a.at <= t {
        BeforeNext(anchors, base, n - 1, s);
        HeardGrows(a, a.at, t);
      } else {
        TakingOverRunsForward(anchors, base, n - 1, s, t);
      }
    }
  }

  /** Before the first anchor starts only the base is heard. */
  lemma {:induction false} NothingStarted(anchors: seq<Anchor>, n: nat, base: real, now: real)
    requires n <= |anchors| && forall i | 0 <= i < n :: now < anchors[i].at
    ensures Clock(anchors, n, base, now) == base
  {
    if n > 0 {
      NothingStarted(anchors, n - 1, base, now);
    }
  }

  /** The last of the started anchors decides. */
  lemma {:induction false} LastStartedDecides(anchors: seq<Anchor>, i: nat, n: nat, base: real, now: real)
    requires i < n <= |anchors| && anchors[i].at <= now && forall j | i < j < n :: now < anchors[j].at
    ensures Clock(anchors, n, base, now) == anchors[i].Heard(now)
  {
    if n > i + 1 {
      LastStartedDecides(anchors, i, n - 1, base, now);
    }
  }

  lemma BaseTakenOver(anchors: seq<Anchor>, base: real)
    requires |anchors| > 0 && Forwards(anchors) && StartsAscend(anchors) && RunsForward(anchors, base)
    ensures base <= anchors[0].media
  {
    var at := anchors[0].at;
    NothingStarted(anchors, |anchors|, base, at - 1.0);
    LastStartedDecides(anchors, 0, |anchors|, base, at);
    SpanGrows(0, anchors[0].frames, anchors[0].period);
    assert at - 1.0 <= at;
  }

  /** Listening just before the next anchor's start comes as close as wanted to what is heard then. */
  lemma AnchorTakenOver(anchors: seq<Anchor>, base: real, i: nat)
    requires i + 1 < |anchors| && Forwards(anchors) && StartsAscend(anchors) && RunsForward(anchors, base)
    ensures anchors[i].Heard(anchors[i + 1].at) <= anchors[i + 1].media
  {
    var a, b := anchors[i], anchors[i + 1];
    var excess := a.Heard(b.at) - b.media;
    var s := if excess > 0.0 then MaxReal(a.at, b.at - excess * 0.5) else a.at;
    assert a.at <= s < b.at;
    LastStartedDecides(anchors, i, |anchors|, base, s);
    LastStartedDecides(anchors, i + 1, |anchors|, base, b.at);
    SpanGrows(0, b.frames, b.period);
    assert Clock(anchors, |anchors|, base, s) <= Clock(anchors, |anchors|, base, b.at);
    assert a.Heard(s) >= a.Heard(b.at) - (b.at - s);
  }

  /** With anchors in the order of their starts, the clock runs forward if and only if each anchor takes over
      where the one before has got to by then, and the first one from the base. */
  lemma RunsForwardIff(anchors: seq<Anchor>, base: real)
    requires Forwards(anchors) && StartsAscend(anchors)
    ensures RunsForward(anchors, base) <==> TakesOver(anchors, base, |anchors|)
  {
    if RunsForward(anchors, base) {
      if |anchors| > 0 {
        BaseTakenOver(anchors, base);
      }
      forall i | 0 <= i < |anchors| - 1
        ensures anchors[i].Heard(anchors[i + 1].at) <= anchors[i + 1].media
      {
        AnchorTakenOver(anchors, base, i);
      }
    }
    if TakesOver(anchors, base, |anchors|) {
      forall s: real, t: real | s <= t
        ensures Clock(anchors, |anchors|, base, s) <= Clock(anchors, |anchors|, base, t)
      {
        TakingOverRunsForward(anchors, base, |anchors|, s, t);
      }
    }
  }

  // ---------------------------------------------------------------- players that have not wrapped

  /** Each anchor continues at or beyond the end of every earlier one, and beyond the base. */
  predicate Chained(anchors: seq<Anchor>, base: real) {
    && Forwards(anchors)
    && (forall i | 0 <= i < |anchors| :: base <= anchors[i].media)
    && (forall i, j | 0 <= i < j < |anchors| :: anchors[i].End() <= anchors[j].media)
  }

  lemma {:induction false} ClockBelow(anchors: seq<Anchor>, n: nat, base: real, now: real, ceiling: real)
    requires n <= |anchors| && base <= ceiling && forall i | 0 <= i < n :: anchors[i].End() <= ceiling
    ensures Clock(anchors, n, base, now) <= ceiling
  {
    if n > 0 {
      ClockBelow(anchors, n - 1, base, now, ceiling);
    }
  }

  /** A chained queue runs forward whatever the order of its starts. */
  lemma {:induction false} ChainedClock(anchors: seq<Anchor>, n: nat, base: real, s: real, t: real)
    requires n <= |anchors| && Chained(anchors, base) && s <= t
    ensures base <= Clock(anchors, n, base, s) <= Clock(anchors, n, base, t)
  {
    if n > 0 {
      ChainedClock(anchors, n - 1, base, s, t);
      var a := anchors[n - 1];
      if a.at <= s {
        HeardGrows(a, s, t);
      } else if a.at <= t {
        ClockBelow(anchors, n - 1, base, s, a.media);
        HeardGrows(a, a.at, t);
      }
    }
  }

  predicate Forward(v: PlayerView) { !v.wrapped ==> Chained(v.anchors, v.position) }

  /** Without a wrap, a call submits at most one segment, from where the call started. */
  lemma {:induction false} OneSegment(env: Env, c: Core, at: real, n: nat)
    requires !After(env, c, n).wrapped
    ensures !c.wrapped && |Segments(env, c, at, n)| <= 1
    ensures |Segments(env, c, at, n)| == 1 ==>
              Segments(env, c, at, n)[0].media == c.submitted && Segments(env, c, at, n)[0].period == env.period
    ensures |Segments(env, c, at, n)| == 0 ==> After(env, c, n).submitted == c.submitted
  {
    if n > 0 {
      OneSegment(env, c, at, n - 1);
    }
  }

  lemma EnqueueChained(anchors: seq<Anchor>, more: Anchor, base: real)
    requires Chained(anchors, base) && base <= more.media && 0.0 <= more.period
    requires forall i | 0 <= i < |anchors| :: anchors[i].End() <= more.media
    ensures Chained(Enqueue(anchors, more), base)
  {
  }

  lemma RenderKeepsForward(v: PlayerView, n: nat, rate: nat, at: real)
    requires Bounded(v) && Forward(v)
    ensures Forward(Rendered(v, n, rate, at))
  {
    if Sounds(v, rate) && !v.media.unavailable && !Rendered(v, n, rate, at).wrapped {
      var env, c := EnvOf(v, rate), CoreOf(v);
      var segments := Segments(env, c, at, n);
      PeriodBounds(rate);
      OneSegment(env, c, at, n);
      if |segments| == 1 {
        EnqueueChained(v.anchors, segments[0], v.position);
        assert EnqueueAll(v.anchors, segments, 1) == Enqueue(EnqueueAll(v.anchors, segments, 0), segments[0]);
      }
    }
  }

  lemma StepKeepsForward(v: PlayerView, e: Event)
    requires Bounded(v) && Forward(v)
    ensures Forward(Step(v, e))
  {
    match e {
      case Do(command, now) =>
      case Render(frames, rate, at) => RenderKeepsForward(v, frames, rate, at);
      case Look(_) =>
      case Grow(media, first, more, now) =>
    }
  }

  /** Over every run, as long as no loop has wrapped since the position was last set: listening later never hears an
      earlier position, and never one before the base. */
  lemma {:induction false} UnwrappedRunsForward(v: PlayerView, events: seq<Event>, n: nat)
    requires n <= |events| && Bounded(v) && MediaWithin(v.media) && GrowsOnly(v, events) && Forward(v)
    ensures var w := Run(v, events, n); Forward(w) && (!w.wrapped ==> RunsForward(w.anchors, w.position))
  {
    if n > 0 {
      UnwrappedRunsForward(v, events, n - 1);
      RunStaysBounded(v, events, n - 1);
      StepKeepsForward(Run(v, events, n - 1), events[n - 1]);
    }
    var w := Run(v, events, n);
    if !w.wrapped {
      forall s: real, t: real | s <= t
        ensures Clock(w.anchors, |w.anchors|, w.position, s) <= Clock(w.anchors, |w.anchors|, w.position, t)
      {
        ChainedClock(w.anchors, |w.anchors|, w.position, s, t);
      }
    }
  }

  /** A wrap does turn it back: what follows the seam starts at the beginning of the clip. */
  lemma WrapTurnsBack(last: Anchor, restart: Anchor, base: real)
    requires last.at < restart.at && 0.0 <= last.period && 0.0 <= restart.period
    requires base <= last.media && restart.media == 0.0
    ensures RunsForward([last, restart], base) <==> last.Heard(restart.at) <= 0.0
  {
    var anchors := [last, restart];
    RunsForwardIff(anchors, base);
    assert anchors[0].Heard(anchors[0 + 1].at) == last.Heard(restart.at) && anchors[0 + 1].media == 0.0;
  }

  // ---------------------------------------------------------------- evicted anchors

  /** How many anchors a full queue has lost. */
  function Evicted(total: nat): nat { if total > 64 then total - 64 else 0 }

  /** The queue holds the newest 64 of everything ever enqueued. */
  lemma {:induction false} QueueIsASuffix(anchors: seq<Anchor>, more: seq<Anchor>, n: nat)
    requires n <= |more| && |anchors| <= 64
    ensures EnqueueAll(anchors, more, n) == (anchors + more[..n])[Evicted(|anchors| + n)..]
  {
    if n > 0 {
      QueueIsASuffix(anchors, more, n - 1);
      assert more[..n] == more[..n - 1] + [more[n - 1]];
      assert anchors + more[..n] == (anchors + more[..n - 1]) + [more[n - 1]];
    } else {
      assert anchors + more[..0] == anchors;
    }
  }

  /** Some anchor from `m` on has started. */
  predicate SomeStarted(anchors: seq<Anchor>, m: nat, now: real) {
    exists i :: m <= i < |anchors| && anchors[i].at <= now
  }

  lemma {:induction false} BaseMatters(anchors: seq<Anchor>, n: nat, base: real, other: real, now: real)
    requires n <= |anchors|
    ensures Clock(anchors, n, base, now) == Clock(anchors, n, other, now)
            <==> base == other || exists i :: 0 <= i < n && anchors[i].at <= now
  {
    if n > 0 {
      BaseMatters(anchors, n - 1, base, other, now);
    }
  }

  /** Losing the first m anchors goes unheard if and only if a later one has started, or they said what the base
      says. */
  lemma EvictionUnheardIff(anchors: seq<Anchor>, m: nat, base: real, now: real)
    requires m <= |anchors|
    ensures var kept := anchors[m..];
            Clock(kept, |kept|, base, now) == Clock(anchors, |anchors|, base, now)
            <==> SomeStarted(anchors, m, now) || Clock(anchors, m, base, now) == base
  {
    var lost, kept := anchors[..m], anchors[m..];
    assert lost + kept == anchors;
    ClockJoin(lost, kept, |kept|, base, now);
    ClockKept(lost, anchors, m, base, now);
    BaseMatters(kept, |kept|, base, Clock(lost, m, base, now), now);
    if i :| 0 <= i < |kept| && kept[i].at <= now {
      assert anchors[m + i].at <= now;
    }
    if i :| m <= i < |anchors| && anchors[i].at <= now {
      assert kept[i - m].at <= now;
    }
  }

  /** After any call the bounded queue tells the time that an unbounded one would tell, frame by frame, if and only if
      a kept anchor has started or the lost ones said what the position says. */
  lemma BoundedQueueIsExactIff(v: PlayerView, n: nat, rate: nat, at: real, now: real)
    requires Sounds(v, rate) && !v.media.unavailable && |v.anchors| <= 64
    ensures var env, c := EnvOf(v, rate), CoreOf(v);
            var all := v.anchors + Segments(env, c, at, n);
            var lost := Evicted(|all|);
            Audible(Rendered(v, n, rate, at), now) == HeardAt(env, c, at, n, Audible(v, now), now)
            <==> SomeStarted(all, lost, now) || Clock(all, lost, v.position, now) == v.position
  {
    var env, c := EnvOf(v, rate), CoreOf(v);
    var segments := Segments(env, c, at, n);
    var all := v.anchors + segments;
    PeriodBounds(rate);
    QueueIsASuffix(v.anchors, segments, |segments|);
    assert segments[..|segments|] == segments;
    ClockJoin(v.anchors, segments, |segments|, v.position, now);
    SegmentsAreTheClock(env, c, at, n, Audible(v, now), now);
    EvictionUnheardIff(all, Evicted(|all|), v.position, now);
  }

  // ---------------------------------------------------------------- a clock that falls back

  /** Host times of the calls: the first is heard at once, all the others ten seconds later. */
  function TickAt(i: nat): real { if i == 0 then 0.0 else 10.0 }

  function Tick(i: nat): Anchor { Anchor(TickAt(i), i as real / 16_000.0, 1, Period(16_000)) }

  /** A complete clip of one second. */
  function OneSecond(): Media { Media(1, 5, 16_000, 1.0, true, true, false, true) }

  /** The player after Play and n calls of one frame each. */
  function Ticked(blocks: seq<AudioBlock>, n: nat): PlayerView {
    if n == 0 then PlayerView(OneSecond(), blocks, Playing, false, false, 0.1, 0, 0.0, 0.0, [], false)
    else Rendered(Ticked(blocks, n - 1), 1, 16_000, TickAt(n - 1))
  }

  lemma OneTick(v: PlayerView, at: real)
    requires v.media == OneSecond() && v.state.Playing? && !v.looping && v.submitted + 0.000000001 < 1.0
    ensures Rendered(v, 1, 16_000, at)
         == v.(submitted := v.submitted + Period(16_000),
               anchors := Enqueue(v.anchors, Anchor(at, v.submitted, 1, Period(16_000))))
  {
    var env, c := EnvOf(v, 16_000), CoreOf(v);
    assert After(env, c, 1) == Next(env, After(env, c, 0)) == c.(submitted := c.submitted + env.period);
    assert Segments(env, c, at, 0) == [] && Span(0, env.period) == 0.0;
    assert Segments(env, c, at, 1) == [Anchor(at, v.submitted, 1, env.period)];
    assert EnqueueAll(v.anchors, Segments(env, c, at, 1), 1)
        == Enqueue(EnqueueAll(v.anchors, Segments(env, c, at, 1), 0), Segments(env, c, at, 1)[0]);
  }

  lemma {:induction false} Ticks(blocks: seq<AudioBlock>, n: nat)
    requires n <= 64
    ensures var v := Ticked(blocks, n);
            && v == Ticked(blocks, 0).(submitted := v.submitted, anchors := v.anchors)
            && v.submitted == n as real / 16_000.0 && |v.anchors| == n
            && forall i | 0 <= i < n :: v.anchors[i] == Tick(i)
  {
    if n > 0 {
      Ticks(blocks, n - 1);
      OneTick(Ticked(blocks, n - 1), TickAt(n - 1));
    }
  }

  /** Calls alone can turn the clock back: one second after the start 64 calls leave it at the end of the first frame,
      and the 65th, though heard only later, sends it back to the position playback started from. */
  lemma ClockCanFallBack(blocks: seq<AudioBlock>)
    ensures Commanded(Ticked(blocks, 0).(state := Paused), Play, 0.0) == Ok(Ticked(blocks, 0))
    ensures Audible(Ticked(blocks, 64), 1.0) == Period(16_000) > 0.0
    ensures Audible(Ticked(blocks, 65), 1.0) == 0.0
  {
    var v, w := Ticked(blocks, 64), Ticked(blocks, 65);
    PeriodBounds(16_000);
    Ticks(blocks, 64);
    LastStartedDecides(v.anchors, 0, 64, 0.0, 1.0);
    assert Span(1, Period(16_000)) == Span(0, Period(16_000)) + Period(16_000);
    OneTick(v, TickAt(64));
    assert forall i | 0 <= i < 63 :: w.anchors[i] == Tick(i + 1);
    NothingStarted(w.anchors, 64, 0.0, 1.0);
  }
}
