/** The player shared by the audio callback and the controller (crates/audio2face3d-gui/src/playback.rs). */
module Players {
  import opened Common
  import opened AudioTracks
  import opened ClipModel
  import opened PlaybackModel
  import opened PlaybackLaws

  const ANCHOR_LIMIT: nat := 64

  /** One call of the output callback: `write(index, sample)`. */
  datatype Write = Write(index: nat, sample: real)

  /** The calls so far: every index below `n` once, in order, with the sample the frame model plays there. */
  ghost predicate Played(writes: seq<Write>, env: Env, c: Core, n: nat) {
    |writes| == n && forall k | 0 <= k < n :: writes[k] == Write(k, SampleOf(env, After(env, c, k)))
  }

  /** The calls for frames `from` up to `n`, all silent. */
  ghost predicate Zeros(writes: seq<Write>, from: nat, n: nat)
    requires from <= n
  {
    |writes| == n - from && forall k | 0 <= k < n - from :: writes[k] == Write(from + k, 0.0)
  }

  lemma PlayedMore(writes: seq<Write>, env: Env, c: Core, n: nat, sample: real)
    requires Played(writes, env, c, n) && sample == SampleOf(env, After(env, c, n))
    ensures Played(writes + [Write(n, sample)], env, c, n + 1)
  {
  }

  lemma PlayedSilence(writes: seq<Write>, zeros: seq<Write>, env: Env, c: Core, i: nat, n: nat)
    requires i <= n && Played(writes, env, c, i) && Zeros(zeros, i, n)
    requires forall j | i <= j < n :: SampleOf(env, After(env, c, j)) == 0.0
    ensures Played(writes + zeros, env, c, n)
  {
  }

  class Player {
    var media: Media
    var audio: AudioTrack
    var state: PlaybackState
    var looping: bool
    var streaming: bool
    var streamBuffer: real
    var underruns: nat
    var submitted: real
    var position: real
    var anchors: seq<Anchor>
    var audioCursor: nat
    ghost var wrapped: bool

    ghost function View(): PlayerView
      reads this, audio
    {
      PlayerView(media, audio.blocks, state, looping, streaming, streamBuffer, underruns, submitted, position, anchors,
                 wrapped)
    }

    ghost predicate Valid()
      reads this, audio
    {
      && audio.Valid()
      && media.sampleCount == SampleCount(audio.blocks)
      && MediaWithin(media)
      && |audio.blocks| <= MAX_AUDIO_BLOCKS
      && Bounded(View())
    }

    /** A fresh paused player on a second handle to the prepared audio blocks. */
    constructor (prepared: Media, track: AudioTrack)
      requires track.Valid() && |track.blocks| <= MAX_AUDIO_BLOCKS
      requires MediaWithin(prepared) && prepared.sampleCount == SampleCount(track.blocks)
      ensures Valid() && fresh(audio)
      ensures View() == Fresh(prepared, track.blocks)
    {
      media := prepared;
      audio := new AudioTrack.Clone(track);
      state, looping, streaming, streamBuffer := Paused, false, false, 0.1;
      underruns, submitted, position, anchors, audioCursor := 0, 0.0, 0.0, [], 0;
      wrapped := false;
    }

    /** Overwrites the shared player in place with a fresh one. */
    method Install(prepared: Media, track: AudioTrack)
      requires track.Valid() && |track.blocks| <= MAX_AUDIO_BLOCKS
      requires MediaWithin(prepared) && prepared.sampleCount == SampleCount(track.blocks)
      modifies this
      ensures Valid() && fresh(audio)
      ensures View() == Fresh(prepared, track.blocks)
    {
      var clone := new AudioTrack.Clone(track);
      media, audio, state, looping, streaming, streamBuffer := prepared, clone, Paused, false, false, 0.1;
      underruns, submitted, position, anchors, audioCursor, wrapped := 0, 0.0, 0.0, [], 0, false;
    }

    method SetStreaming(enabled: bool, buffer: real) returns (r: Result<(), PlaybackError>)
      requires Valid() && buffer >= 0.0
      modifies this`streaming, this`streamBuffer
      ensures Valid()
      ensures r.Ok? <==> buffer <= MAX_SECONDS
      ensures View() == if r.Ok? then old(View()).(streaming := enabled, streamBuffer := buffer) else old(View())
    {
      if buffer > MAX_SECONDS {
        return Err(BufferTooLong);
      }
      streaming, streamBuffer := enabled, buffer;
      return Ok(());
    }

    /** Searches the anchors from the newest back. */
    method AudiblePosition(now: real) returns (time: real)
      ensures time == Audible(View(), now)
    {
      var i := |anchors|;
      while i > 0 && anchors[i - 1].at > now
        invariant 0 <= i <= |anchors|
        invariant Clock(anchors, |anchors|, position, now) == Clock(anchors, i, position, now)
      {
        i := i - 1;
      }
      if i == 0 {
        return position;
      }
      var a := anchors[i - 1];
      return a.media + MinReal(now - a.at, Span(a.frames, a.period));
    }

    method Command(command: Command, now: real) returns (r: Result<(), PlaybackError>)
      requires Valid()
      modifies this`state, this`submitted, this`position, this`anchors, this`looping, this`wrapped
      ensures Valid()
      ensures var spec := Commanded(old(View()), command, now);
              && (r.Ok? <==> spec.Ok?) && (r.Err? ==> r.error == spec.error)
              && View() == if spec.Ok? then spec.value else old(View())
    {
      ghost var spec := Commanded(View(), command, now);
      CommandKeepsBounds(View(), command, now);
      match command {
        case Play =>
          if media.unavailable {
            return Err(ResultUnavailable);
          }
          if !streaming && !media.jobReady {
            return Err(NotReady);
          }
          if media.sampleCount == 0 || !media.hasFrames {
            return Err(NothingToPlay);
          }
          if state == Ended {
            submitted, position, anchors, wrapped := 0.0, 0.0, [], false;
          }
          var short := streaming && !media.complete && media.readyUntil - submitted < streamBuffer;
          state := if short then Buffering else Playing;
        case Pause =>
          position := AudiblePosition(now);
          submitted, anchors, wrapped := position, [], false;
          state := Paused;
        case Seek(time) =>
          if time.NonFinite? || time.value < 0.0 || time.value > media.readyUntil {
            return Err(SeekOutside);
          }
          submitted, position, anchors, wrapped := time.value, time.value, [], false;
          if state == Ended {
            state := Paused;
          }
        case SetLoop(value) =>
          looping := value;
      }
      assert View() == spec.value;
      return Ok(());
    }

    method ClockSnapshot(now: real) returns (time: real)
      requires Valid()
      modifies this`state
      ensures Valid() && View() == Observed(old(View()), now)
      ensures time == ClockTime(old(View()), now) && 0.0 <= time <= media.Duration()
    {
      AudibleWithin(View(), now);
      var heard := AudiblePosition(now);
      time := MinReal(heard, media.Duration());
      if media.complete && !looping && time + 0.00000001 >= media.Duration() && state == Playing {
        state := Ended;
      }
    }

    method PushAnchor(at: real, from: real, frames: nat, period: real)
      modifies this`anchors
      ensures anchors == if frames == 0 then old(anchors) else Enqueue(old(anchors), Anchor(at, from, frames, period))
    {
      if frames == 0 {
        return;
      }
      if |anchors| == ANCHOR_LIMIT {
        anchors := anchors[1..];
      }
      anchors := anchors + [Anchor(at, from, frames, period)];
    }

    /** The calls of the output callback for frames `from` up to `frames`, all silent. */
    static method WriteZeros(from: nat, frames: nat) returns (writes: seq<Write>)
      requires from <= frames
      ensures Zeros(writes, from, frames)
    {
      writes := [];
      for j := from to frames
        invariant Zeros(writes, from, j)
      {
        writes := writes + [Write(j, 0.0)];
      }
    }

    /** Renders one callback buffer. `writes` are the calls `write(index, sample)` in the order made:
        every index once, in order, with the sample of the flat audio that the frame-by-frame model plays. */
    method RenderAudio(frames: nat, rate: nat, audibleAt: real) returns (writes: seq<Write>)
      requires Valid()
      modifies this`state, this`submitted, this`underruns, this`anchors, this`audioCursor, this`wrapped
      ensures Valid() && View() == Rendered(old(View()), frames, rate, audibleAt)
      ensures |writes| == frames
      ensures forall i | 0 <= i < frames :: writes[i] == Write(i, RenderedSample(old(View()), rate, i))
    {
      ghost var before := View();
      RenderKeepsBounds(before, frames, rate, audibleAt);
      if rate < SAMPLE_RATE || !(state == Playing || state == Buffering) {
        writes := WriteZeros(0, frames);
        return;
      }
      if media.unavailable {
        state := Paused;
        writes := WriteZeros(0, frames);
        return;
      }
      writes := RenderRunning(frames, rate, audibleAt);
    }

    /** `render_audio` of a player that plays or may resume. */
    method RenderRunning(frames: nat, rate: nat, audibleAt: real) returns (writes: seq<Write>)
      requires audio.Valid() && Sounds(View(), rate) && !media.unavailable && 0.0 <= submitted < Limit(media)
      modifies this`state, this`submitted, this`underruns, this`anchors, this`audioCursor, this`wrapped
      ensures View() == Rendered(old(View()), frames, rate, audibleAt)
      ensures Played(writes, EnvOf(old(View()), rate), CoreOf(old(View())), frames)
    {
      ghost var env, core := EnvOf(View(), rate), CoreOf(View());
      ghost var after := Rendered(View(), frames, rate, audibleAt);
      if state == Buffering {
        var ahead := media.readyUntil - submitted;
        if ahead >= streamBuffer || (media.complete && media.readyUntil > submitted) {
          state := Playing;
        } else {
          SilenceAddsNoSegment(env, core, audibleAt, 0, frames);
          NothingWhileBuffering(env, core, frames);
          assert View() == after;
          writes := WriteZeros(0, frames);
          return;
        }
      }
      writes := RenderFrames(env, core, frames, rate, audibleAt);
      assert View() == after;
    }

    /** The rest of a call that has fallen silent before frame `i`. */
    static method FallSilent(ghost env: Env, ghost core: Core, played: seq<Write>, ghost at: real, i: nat, frames: nat)
        returns (writes: seq<Write>)
      requires i < frames && Played(played, env, core, i) && Hear(env, After(env, core, i)).Silent?
      ensures Played(writes, env, core, frames)
      ensures After(env, core, frames) == Next(env, After(env, core, i))
      ensures Segments(env, core, at, frames) == Segments(env, core, at, i)
    {
      var zeros := WriteZeros(i, frames);
      SilenceAddsNoSegment(env, core, at, i, frames);
      PlayedSilence(played, zeros, env, core, i, frames);
      writes := played + zeros;
    }

    ghost function Now(): Core
      reads this
    {
      Core(submitted, state, underruns, wrapped)
    }

    /** The sounding part of `render_audio`: interpolate, loop, run dry, and anchor what was submitted. */
    method RenderFrames(ghost env: Env, ghost core: Core, frames: nat, rate: nat, audibleAt: real)
        returns (writes: seq<Write>)
      requires audio.Valid() && rate >= SAMPLE_RATE
      requires env == Env(media, Voice(audio.blocks), looping, Period(rate))
      requires core == Now() && state == Playing && 0.0 <= submitted < Limit(media)
      modifies this`state, this`submitted, this`underruns, this`anchors, this`audioCursor, this`wrapped
      ensures Now() == After(env, core, frames) && Pushed(env, core, audibleAt, frames, old(anchors), anchors)
      ensures Played(writes, env, core, frames)
    {
      ghost var before, closed := anchors, [];
      var period := Period(rate);
      PeriodBounds(rate);
      writes := [];
      var segment: nat, segmentMedia := 0, submitted;
      for i := 0 to frames
        invariant Ongoing(env, core, audibleAt, i, Now(), before, anchors, closed, segment, segmentMedia)
        invariant 0.0 <= submitted && Played(writes, env, core, i)
      {
        CoreWithin(env, core, i);
        if submitted + 0.000000001 >= media.readyUntil {
          var loops := Exhaust(before, env, core, audibleAt, i, segment, segmentMedia, closed, period);
          if !loops {
            writes := FallSilent(env, core, writes, audibleAt, i, frames);
            return;
          }
          closed, segment, segmentMedia := Segments(env, core, audibleAt, i), i, 0.0;
        } else {
          PlaysOn(env, core, audibleAt, i, Now(), before, anchors, closed, segment, segmentMedia);
        }
        var sample := SoundFrame(env, core, audibleAt, i, before, closed, segment, segmentMedia, period);
        PlayedMore(writes, env, core, i, sample);
        writes := writes + [Write(i, sample)];
      }
      CloseSegment(env, core, audibleAt, frames, before, closed, segment, segmentMedia, period);
    }

    /** Pushes the open anchor before frame `i`; then every frame so far is anchored. */
    method CloseSegment(ghost env: Env, ghost core: Core, audibleAt: real, i: nat, ghost before: seq<Anchor>,
                        ghost closed: seq<Anchor>, segment: nat, segmentMedia: real, period: real)
      requires Ongoing(env, core, audibleAt, i, Now(), before, anchors, closed, segment, segmentMedia)
                && env.period == period
      modifies this`anchors
      ensures Pushed(env, core, audibleAt, i, before, anchors)
    {
      PushAnchor(audibleAt + Span(segment, period), segmentMedia, i - segment, period);
      EnqueueMore(before, closed, Open(audibleAt, segment, segmentMedia, i, period));
    }

    /** The media is used up before frame `i`: close the open anchor, then restart the loop or stop. */
    method Exhaust(ghost before: seq<Anchor>, ghost env: Env, ghost core: Core, audibleAt: real, i: nat,
                   segment: nat, segmentMedia: real, ghost closed: seq<Anchor>, period: real) returns (loops: bool)
      requires env.media == media && env.looping == looping && env.period == period
      requires Ongoing(env, core, audibleAt, i, Now(), before, anchors, closed, segment, segmentMedia)
      requires Exhausted(env, After(env, core, i))
      modifies this`state, this`submitted, this`underruns, this`anchors, this`wrapped
      ensures Pushed(env, core, audibleAt, i, before, anchors)
      ensures loops ==>
                submitted == 0.0
                && MaySound(env, core, audibleAt, i, Now(), before, anchors, Segments(env, core, audibleAt, i), i, 0.0)
      ensures !loops ==> Hear(env, After(env, core, i)).Silent? && Now() == Next(env, After(env, core, i))
    {
      CloseSegment(env, core, audibleAt, i, before, closed, segment, segmentMedia, period);
      loops := media.complete && looping && media.readyUntil > 0.0 && media.readyUntil + 0.000001 >= media.Duration();
      if loops {
        submitted, wrapped := 0.0, true;
      } else if !media.complete {
        underruns := underruns + 1;
        state := Buffering;
      }
    }

    /** Mixes frame `i` and moves on by one period. */
    method SoundFrame(ghost env: Env, ghost core: Core, ghost at: real, i: nat, ghost before: seq<Anchor>,
                      ghost closed: seq<Anchor>,
                      ghost segment: nat, ghost segmentMedia: real, period: real) returns (sample: real)
      requires audio.Valid() && submitted >= 0.0 && env.voice == Voice(audio.blocks) && 0.0 <= env.period == period
      requires MaySound(env, core, at, i, Now(), before, anchors, closed, segment, segmentMedia)
      modifies this`submitted, this`audioCursor
      ensures Ongoing(env, core, at, i + 1, Now(), before, anchors, closed, segment, segmentMedia) && submitted >= 0.0
      ensures sample == SampleOf(env, After(env, core, i))
    {
      SoundsOn(env, core, at, i, Now(), before, anchors, closed, segment, segmentMedia);
      sample := Mix();
      submitted := submitted + period;
    }

    /** One interpolated sample at the submitted position; the block cursor is only a cache. */
    method Mix() returns (value: real)
      requires audio.Valid() && submitted >= 0.0
      modifies this`audioCursor
      ensures value == Voice(audio.blocks)(submitted)
    {
      var sample := submitted * 16_000.0;
      var index := sample.Floor;
      var first, second;
      first, audioCursor := audio.SampleAt(index, audioCursor);
      second, audioCursor := audio.SampleAt(index + 1, audioCursor);
      assert first == Lookup(Flat(audio.blocks), index) && second == Lookup(Flat(audio.blocks), index + 1);
      var a := match first case Some(x) => x case None => 0.0;
      var b := match second case Some(x) => x case None => a;
      value := Blend(a, b, sample - index as real);
    }

    method ApplyUpdate(update: Media, firstBlock: nat, blocks: seq<AudioBlock>, now: real)
        returns (r: Result<(), PlaybackError>)
      requires Valid() && MediaWithin(update)
      // Updates are built from the clip itself, whose playable end never moves back.
      requires update.clipId == media.clipId ==> media.readyUntil <= update.readyUntil
      modifies this`media, this`state, this`submitted, this`position, this`anchors, this`looping, this`wrapped, audio
      ensures Valid() && audio == old(audio)
      ensures r.Ok? <==> old(Accepts(View(), update, firstBlock, blocks))
      ensures r.Ok? ==> View() == old(Updated(View(), update, firstBlock, blocks, now)).value
      ensures r.Err? ==> View() == old(View())
    {
      var extended := Extend(update, firstBlock, blocks);
      if extended.Err? {
        return extended;
      }
      r := Adopt(update, now);
    }

    /** The checks on an update, and its blocks appended. */
    method Extend(update: Media, firstBlock: nat, blocks: seq<AudioBlock>) returns (r: Result<(), PlaybackError>)
      requires audio.Valid()
      modifies audio
      ensures audio.Valid() && (r.Ok? <==> old(Accepts(View(), update, firstBlock, blocks)))
      ensures View() == old(View()).(blocks := if r.Ok? then old(audio.blocks) + blocks else old(audio.blocks))
      ensures r.Ok? ==> |audio.blocks| <= MAX_AUDIO_BLOCKS && update.sampleCount == SampleCount(audio.blocks)
    {
      if media.clipId != update.clipId || update.revision < media.revision || firstBlock != |audio.blocks|
         || audio.samples + BlockSamples(blocks, |blocks|) != update.sampleCount
      {
        return Err(StaleUpdate);
      }
      var appended := audio.AppendShared(blocks);
      if appended.Err? {
        return Err(AudioRejected);
      }
      ContiguousSamples(blocks, old(audio.samples), |blocks|);
      JoinTrack(old(audio.blocks), blocks);
      assert blocks[..|blocks|] == blocks;
      return Ok(());
    }

    method Adopt(update: Media, now: real) returns (r: Result<(), PlaybackError>)
      requires audio.Valid() && |audio.blocks| <= MAX_AUDIO_BLOCKS && update.sampleCount == SampleCount(audio.blocks)
      requires MediaWithin(update) && media.readyUntil <= update.readyUntil && Bounded(View())
      modifies this`media, this`state, this`submitted, this`position, this`anchors, this`looping, this`wrapped
      ensures r.Ok? && Valid()
      ensures View() == WithMedia(old(View()), update, now)
    {
      AdoptKeepsBounds(View(), update, now);
      media := update.(unavailable := media.unavailable || update.unavailable);
      if media.unavailable {
        assert AllWithin(anchors, Limit(media));
        r := Command(Pause, now);
      } else {
        r := Ok(());
      }
    }
  }

  function Fresh(media: Media, blocks: seq<AudioBlock>): PlayerView {
    PlayerView(media, blocks, Paused, false, false, 0.1, 0, 0.0, 0.0, [], false)
  }

  /** The media of `for_controller`: the clip's, with the owning job's verdict. */
  function Prepared(clip: ClipView, ready: bool, unavailable: bool): Media {
    var media := FromClip(clip);
    media.(jobReady := ready, unavailable := media.unavailable || unavailable)
  }

  lemma PreparedWithin(clip: ClipView, ready: bool, unavailable: bool)
    requires Consistent(clip)
    ensures MediaWithin(Prepared(clip, ready, unavailable))
  {
    ReadyWithinDuration(clip);
  }

  /** The anchor the running call would still push. */
  function Open(at: real, segment: nat, media: real, i: nat, period: real): seq<Anchor>
    requires segment <= i
  {
    if segment == i then [] else [Anchor(at + Span(segment, period), media, i - segment, period)]
  }

  /** All frames before `i` are anchored. */
  ghost predicate Pushed(env: Env, c: Core, at: real, i: nat, before: seq<Anchor>, anchors: seq<Anchor>) {
    var segments := Segments(env, c, at, i);
    anchors == EnqueueAll(before, segments, |segments|)
  }

  /** Frames before `i` have sounded: those in `closed` are anchored, the others are the open segment. */
  ghost predicate Ongoing(env: Env, c: Core, at: real, i: nat, now: Core, before: seq<Anchor>, anchors: seq<Anchor>,
                          closed: seq<Anchor>,
                          segment: nat, media: real) {
    && now == After(env, c, i) && now.state.Playing? && segment <= i
    && (segment == i ==> i == 0 && media == now.submitted && closed == [])
    && anchors == EnqueueAll(before, closed, |closed|)
    && Segments(env, c, at, i) == closed + Open(at, segment, media, i, env.period)
  }

  /** Frame `i` is about to sound at the submitted position, as the last of the open segment or the first of a new
      one. */
  ghost predicate MaySound(env: Env, c: Core, at: real, i: nat, now: Core, before: seq<Anchor>, anchors: seq<Anchor>,
                           closed: seq<Anchor>,
                           segment: nat, media: real) {
    var heard := Hear(env, After(env, c, i));
    && heard.Sounding? && heard.media == now.submitted && now.state.Playing?
    && now.(submitted := now.submitted + env.period) == Next(env, After(env, c, i))
    && segment <= i && anchors == EnqueueAll(before, closed, |closed|)
    && Segments(env, c, at, i) == closed + Open(at, segment, media, i, env.period)
    && (segment == i ==> media == heard.media && (closed == [] || heard.restart))
    && (segment < i ==> !heard.restart)
  }

  lemma PlaysOn(env: Env, c: Core, at: real, i: nat, now: Core, before: seq<Anchor>, anchors: seq<Anchor>,
                closed: seq<Anchor>,
                segment: nat, media: real)
    requires Ongoing(env, c, at, i, now, before, anchors, closed, segment, media) && !Exhausted(env, now)
    ensures MaySound(env, c, at, i, now, before, anchors, closed, segment, media)
  {
  }

  lemma SoundsOn(env: Env, c: Core, at: real, i: nat, now: Core, before: seq<Anchor>, anchors: seq<Anchor>,
                 closed: seq<Anchor>,
                 segment: nat, media: real)
    requires MaySound(env, c, at, i, now, before, anchors, closed, segment, media)
    ensures Ongoing(env, c, at, i + 1, now.(submitted := now.submitted + env.period), before, anchors, closed, segment,
                    media)
  {
    OpenGrows(env, c, at, i, closed, segment, media);
  }

  /** One more sounding frame lengthens the open anchor, or opens one at `i` when the caller just started a segment
      there. */
  lemma OpenGrows(env: Env, c: Core, at: real, i: nat, closed: seq<Anchor>, segment: nat, media: real)
    requires segment <= i && Segments(env, c, at, i) == closed + Open(at, segment, media, i, env.period)
    requires Hear(env, After(env, c, i)).Sounding?
    requires segment == i ==>
              media == Hear(env, After(env, c, i)).media && (closed == [] || Hear(env, After(env, c, i)).restart)
    requires segment < i ==> !Hear(env, After(env, c, i)).restart
    ensures Segments(env, c, at, i + 1) == closed + Open(at, segment, media, i + 1, env.period)
  {
  }

  lemma {:induction false} EnqueueKept(anchors: seq<Anchor>, more: seq<Anchor>, rest: seq<Anchor>, n: nat)
    requires n <= |more|
    ensures EnqueueAll(anchors, more + rest, n) == EnqueueAll(anchors, more, n)
  {
    if n > 0 {
      EnqueueKept(anchors, more, rest, n - 1);
    }
  }

  lemma EnqueueMore(anchors: seq<Anchor>, more: seq<Anchor>, rest: seq<Anchor>)
    requires |rest| <= 1
    ensures EnqueueAll(anchors, more + rest, |more + rest|)
         == if rest == [] then EnqueueAll(anchors, more, |more|)
             else Enqueue(EnqueueAll(anchors, more, |more|), rest[0])
  {
    EnqueueKept(anchors, more, rest, |more|);
    if rest == [] {
      assert more + rest == more;
    }
  }

  lemma {:induction false} ContiguousSamples(blocks: seq<AudioBlock>, first: nat, n: nat)
    requires ContiguousFrom(blocks, first) && n <= |blocks|
    ensures first + BlockSamples(blocks, n) == EndFrom(blocks[..n], first)
  {
    if n > 0 {
      ContiguousPrefix(blocks, first, n);
      ContiguousSamples(blocks, first, n - 1);
      assert blocks[..n][..n - 1] == blocks[..n - 1];
    }
    assert n == |blocks| ==> blocks[..n] == blocks;
  }

  lemma JoinsOnlyWhenContiguous(left: seq<AudioBlock>, right: seq<AudioBlock>)
    requires Contiguous(left)
    ensures Contiguous(left + right) <==> ContiguousFrom(right, SampleCount(left))
  {
    var all := left + right;
    if Contiguous(all) {
      CutTrack(all, |left|);
      assert all[..|left|] == left && all[|left|..] == right;
    }
    if ContiguousFrom(right, SampleCount(left)) {
      JoinTrack(left, right);
    }
  }

  /** An update is taken exactly when it belongs to the clip being played, is no older than what the player has, and
      extends its audio without a gap or an overlap to the announced length within the block limit. */
  lemma AcceptedIff(v: PlayerView, media: Media, first: nat, more: seq<AudioBlock>, now: real)
    requires Contiguous(v.blocks)
    ensures Updated(v, media, first, more, now).Some? <==>
              && media.clipId == v.media.clipId && media.revision >= v.media.revision && first == |v.blocks|
              && Contiguous(v.blocks + more) && |v.blocks + more| <= 65_536
              && |Flat(v.blocks + more)| == media.sampleCount
  {
    JoinsOnlyWhenContiguous(v.blocks, more);
    if ContiguousFrom(more, SampleCount(v.blocks)) {
      JoinTrack(v.blocks, more);
      FlatLength(v.blocks + more);
      ContiguousSamples(more, SampleCount(v.blocks), |more|);
      assert more[..|more|] == more;
    }
  }
}
