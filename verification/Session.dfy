/** The session controller: one clip, the player's replica of its audio, and the job's state
    (crates/audio2face3d-gui/src/controller.rs, inference.rs). */
module Sessions {
  import opened Common
  import opened AudioTracks
  import opened ClipModel
  import opened Clips
  import opened PlaybackModel
  import opened PlaybackLaws
  import opened Players
  import Wav

  // ---------------------------------------------------------------- output events

  datatype Layout = Layout(names: seq<string>, capacity: nat, capacities: seq<nat>)

  datatype OutputEvent =
    | StreamInfo(mono16k: bool, curves: Option<Layout>)
    | AudioChunk(mono16k: bool, position: nat, pcm: seq<int>)
    | CurveFrame(layout: seq<string>, time: real, values: seq<Float>, capacity: nat)
    | EmotionTrace(smoothed: seq<EmotionFrame>)
    | Completion
    | Ignored

  function Decode(pcm: seq<int>): seq<Float> {
    seq(|pcm|, i requires 0 <= i < |pcm| => Finite(pcm[i] as real / 32768.0))
  }

  /** Sample `i` of a chunk is PCM16 value `i` over 2^15: the trip there and back through the WAV quantiser loses
      nothing. */
  lemma DecodeInverts(pcm: seq<int>)
    requires forall i | 0 <= i < |pcm| :: -32_768 <= pcm[i] <= 32_767
    ensures |Decode(pcm)| == |pcm|
    ensures forall i | 0 <= i < |pcm| ::
              && Decode(pcm)[i].Finite? && -1.0 <= Decode(pcm)[i].value < 1.0
              && 32_768.0 * Decode(pcm)[i].value == pcm[i] as real && Wav.Quantize(Decode(pcm)[i].value) == pcm[i]
  {
    forall i | 0 <= i < |pcm|
      ensures Wav.Quantize(Decode(pcm)[i].value) == pcm[i]
    {
      Wav.QuantizeInverts(pcm[i]);
    }
  }

  /** When the clip takes the event: the right audio format, the layout it has, and the condition of the push. */
  ghost predicate Taken(v: ClipView, event: OutputEvent) {
    match event
    case StreamInfo(mono16k, curves) =>
      mono16k && curves.Some?
      && NamesFit(v, curves.value.names, LayoutCost(curves.value.capacity, curves.value.capacities))
    case AudioChunk(mono16k, position, pcm) => mono16k && AudioFits(v, position, Decode(pcm)) && v.revision < U64_MAX
    case CurveFrame(layout, time, values, capacity) =>
      v.names == layout && FrameFits(v, Finite(time), values, capacity) && v.revision < U64_MAX
    case EmotionTrace(smoothed) => EmotionsFit(v, smoothed) && v.revision < U64_MAX
    case Completion => v.session.Completed? || (v.session.Receiving() && Covers(v) && v.revision < U64_MAX)
    case Ignored => true
  }

  /** The clip after an event it took. */
  ghost function Collected(v: ClipView, event: OutputEvent): ClipView
    requires Taken(v, event) && v.namesBytes <= v.retained
  {
    match event
    case StreamInfo(_, curves) =>
      WithNames(v, curves.value.names, LayoutCost(curves.value.capacity, curves.value.capacities))
    case AudioChunk(_, _, pcm) => WithAudio(v, Values(Decode(pcm)))
    case CurveFrame(_, time, values, capacity) => WithFrame(v, CurveSample(time, Values(values), capacity))
    case EmotionTrace(smoothed) => WithEmotions(v, smoothed)
    case Completion => WithSession(v, Completed)
    case Ignored => v
  }

  /** The clip after an event it did not take: as it was, except that a completion which the curves do not cover
      marks a clip still receiving as failed. */
  function Refused(v: ClipView, event: OutputEvent): ClipView {
    if event.Completion? && v.session.Receiving() && v.revision < U64_MAX
    then WithSession(v, SessionState.Failed("incomplete collection")) else v
  }

  /** The bridge from output events to the clip. */
  method ApplyOutput(clip: Clip, event: OutputEvent) returns (r: Outcome)
    requires clip.Valid()
    modifies clip, clip.audio
    ensures clip.Valid() && Evolves(old(clip.View()), clip.View())
    ensures r.Ok? <==> Taken(old(clip.View()), event)
    ensures clip.View() == if r.Ok? then Collected(old(clip.View()), event) else Refused(old(clip.View()), event)
  {
    match event {
      case StreamInfo(mono16k, curves) =>
        if !mono16k || curves.None? {
          return Err(BadEvent);
        }
        r := clip.SetNames(curves.value.names, curves.value.capacity, curves.value.capacities);
      case AudioChunk(mono16k, position, pcm) =>
        if !mono16k {
          return Err(BadEvent);
        }
        r := clip.PushAudio(position, Decode(pcm));
      case CurveFrame(layout, time, values, capacity) =>
        if clip.names != layout {
          return Err(BadEvent);
        }
        r := clip.PushFrame(Finite(time), values, capacity);
      case EmotionTrace(smoothed) =>
        r := clip.PushEmotions(smoothed);
      case Completion =>
        r := clip.FinishCollection();
        if r.Err? {
          var failed := clip.SetSession(SessionState.Failed("incomplete collection"));
          if failed.Err? {
            r := failed;
          }
        }
      case Ignored =>
        r := Ok(());
    }
  }

  // ---------------------------------------------------------------- the session as a value

  datatype ControllerState = Idle | Initializing | Receiving | Finalizing | Ready | Cancelled | Failed(message: string)

  datatype SessionView = SessionView(clip: ClipView, state: ControllerState, audioBlocks: nat, revision: nat,
                                     player: PlayerView) {
    predicate Unavailable() { state.Failed? || state.Cancelled? }
  }

  function StateOf(session: SessionState): ControllerState {
    match session
    case Idle => ControllerState.Idle
    case Running => Receiving
    case Completed => Ready
    case Failed(message) => ControllerState.Failed(message)
    case Cancelled => ControllerState.Cancelled
  }

  /** The player holds a prefix of the clip's audio, exactly as far as the controller has recorded. */
  ghost predicate Replica(s: SessionView) {
    && s.player.media.clipId == s.clip.id
    && s.player.media.revision == s.revision <= U64_MAX
    && |s.player.blocks| == s.audioBlocks <= |s.clip.blocks|
    && s.player.blocks == s.clip.blocks[..s.audioBlocks]
    && s.player.media.readyUntil <= ReadyUntil(s.clip)
  }

  ghost predicate Coherent(s: SessionView) {
    && Replica(s)
    && (s.state.Ready? || s.state.Finalizing? ==> s.clip.session.Completed?)
  }

  /** The replica's flat audio is a prefix of the clip's flat audio. */
  lemma ReplicaPlaysAPrefix(s: SessionView)
    requires Replica(s) && Consistent(s.clip)
    ensures Flat(s.player.blocks) <= Flat(s.clip.blocks)
  {
    FlatAppend(s.player.blocks, s.clip.blocks[s.audioBlocks..]);
    assert s.player.blocks + s.clip.blocks[s.audioBlocks..] == s.clip.blocks;
  }

  /** Whatever the audio device and its callbacks do with the shared player, the replica stays one. */
  lemma PlayerUseKeepsReplica(s: SessionView, events: seq<Event>)
    requires Coherent(s) && forall i | 0 <= i < |events| :: !events[i].Grow?
    ensures Coherent(s.(player := Run(s.player, events, |events|)))
  {
    OnlyUpdatesChangeMedia(s.player, events, |events|);
  }

  /** Neither does what the clip collects before it is published. */
  lemma CollectingKeepsReplica(s: SessionView, clip: ClipView)
    requires Coherent(s) && Evolves(s.clip, clip)
    ensures Coherent(s.(clip := clip))
  {
  }

  function NextPlaybackRevision(s: SessionView): nat {
    if s.revision + 1 >= s.clip.revision then s.revision + 1 else s.clip.revision
  }

  /** The metadata of the next update. */
  function PublishedMedia(s: SessionView): Media {
    var media := FromClip(s.clip);
    media.(revision := NextPlaybackRevision(s), jobReady := s.state.Ready?, unavailable := media.unavailable
           || s.Unavailable())
  }

  /** The update a sound session prepares is one its player accepts. */
  lemma UpdateIsAccepted(s: SessionView, now: real)
    requires Coherent(s) && Consistent(s.clip)
    ensures var more := s.clip.blocks[s.audioBlocks..];
            && s.player.blocks + more == s.clip.blocks
            && Accepts(s.player, PublishedMedia(s), s.audioBlocks, more)
            && MediaWithin(PublishedMedia(s))
  {
    var more := s.clip.blocks[s.audioBlocks..];
    CutTrack(s.clip.blocks, s.audioBlocks);
    ContiguousSamples(more, SampleCount(s.player.blocks), |more|);
    assert more[..|more|] == more;
    ReadyWithinDuration(s.clip);
  }

  // ---------------------------------------------------------------- the operations on values

  /** The session after a successful publication. */
  ghost function Published(s: SessionView, now: real): SessionView
    requires Replica(s)
  {
    match Updated(s.player, PublishedMedia(s), s.audioBlocks, s.clip.blocks[s.audioBlocks..], now)
    case Some(player) => s.(player := player, audioBlocks := |s.clip.blocks|, revision := NextPlaybackRevision(s))
    case None => s
  }

  /** Below counter exhaustion a publication goes through; otherwise nothing changes. */
  ghost function AfterPublish(s: SessionView, now: real): SessionView
    requires Replica(s)
  {
    if s.revision < U64_MAX then Published(s, now) else s
  }

  /** Only an exhausted revision counter lets a clip refuse to be marked as ended. */
  predicate Exhaustible(s: SessionView) { s.clip.session.Receiving() && s.clip.revision == U64_MAX }

  /** Marking a session as failed or cancelled; one that is already either stays as it is. */
  predicate Markable(s: SessionView) { s.Unavailable() || !Exhaustible(s) }

  function Marked(s: SessionView, session: SessionState): SessionView {
    if s.Unavailable() then s
    else
      var clip := if s.clip.session.Receiving() then WithSession(s.clip, session) else s.clip;
      s.(clip := clip, state := StateOf(session))
  }

  ghost function Withdrawn(s: SessionView, session: SessionState, now: real): SessionView
    requires Replica(s)
  {
    if Markable(s) then AfterPublish(Marked(s, session), now) else s
  }

  predicate Ending(session: SessionState) { session.Failed? || session.Cancelled? }

  /** The session once an event was applied: taken, refused and so failed, or not even looked at. */
  ghost function AfterEvent(s: SessionView, event: OutputEvent, now: real): SessionView
    requires Replica(s) && s.clip.namesBytes <= s.clip.retained
  {
    if s.Unavailable() then s
    else if Taken(s.clip, event) then
      var clip := Collected(s.clip, event);
      s.(clip := clip, state := if clip.session.Completed? then Finalizing else Receiving)
    else Withdrawn(s.(clip := Refused(s.clip, event)), SessionState.Failed("rejected output"), now)
  }

  /** The session once the job is finished: Ready only after success on a completed clip. */
  ghost function AfterJob(s: SessionView, ok: bool, now: real): SessionView
    requires Replica(s)
  {
    if s.Unavailable() || s.state.Ready? then AfterPublish(s, now)
    else if !ok then Withdrawn(s, SessionState.Failed("job failed"), now)
    else if s.clip.session.Completed? then AfterPublish(s.(state := Ready), now)
    else Withdrawn(s, SessionState.Failed("missing completion"), now)
  }

  /** The invariant of every session. */
  ghost predicate Sound(s: SessionView) {
    Coherent(s) && Consistent(s.clip) && MediaWithin(s.player.media) && Bounded(s.player)
  }

  /** After a publication the player has all of the clip's audio, and a withdrawn result is paused. */
  lemma PublishedMeans(s: SessionView, now: real)
    requires Sound(s) && s.revision < U64_MAX
    ensures var t := Published(s, now);
            && Sound(t) && t.clip == s.clip && t.state == s.state
            && t.player.blocks == s.clip.blocks && t.audioBlocks == |s.clip.blocks|
            && t.player.media
                == PublishedMedia(s).(unavailable := s.player.media.unavailable || PublishedMedia(s).unavailable)
            && (t.player.media.unavailable ==> t.player.state.Paused?)
  {
    UpdateIsAccepted(s, now);
    var more := s.clip.blocks[s.audioBlocks..];
    UpdateKeepsBounds(s.player, PublishedMedia(s), s.audioBlocks, more, now);
    assert s.clip.blocks[..|s.clip.blocks|] == s.clip.blocks;
  }

  /** The metadata that a publication hands to the player, field by field. Its revision is the least one that is newer
      than the player's and no older than the clip's. */
  lemma PublishedMetadata(s: SessionView)
    requires Consistent(s.clip)
    ensures var m := PublishedMedia(s);
            && m.clipId == s.clip.id && m.sampleCount == |Flat(s.clip.blocks)| && m.readyUntil == ReadyUntil(s.clip)
            && (m.complete <==> s.clip.session.Completed?) && (m.jobReady <==> s.state.Ready?)
            && (m.hasFrames <==> s.clip.frames != [])
            && (m.unavailable <==>
                  || s.clip.session.Failed? || s.clip.session.Cancelled? || s.state.Failed? || s.state.Cancelled?)
            && m.revision > s.revision && m.revision >= s.clip.revision
            && (m.revision == s.revision + 1 || m.revision == s.clip.revision)
  {
    FlatLength(s.clip.blocks);
  }

  /** The result is there: neither the clip nor the session has ended badly, nor was it ever withdrawn. */
  predicate Available(s: SessionView) {
    && !s.player.media.unavailable && !s.state.Failed? && !s.state.Cancelled?
    && !s.clip.session.Failed? && !s.clip.session.Cancelled?
  }

  /** Publishing an available result only brings the player the clip's audio and metadata: what is playing plays on
      from where it is. */
  lemma PublishingPlaysOn(s: SessionView, now: real)
    requires Sound(s) && s.revision < U64_MAX && Available(s)
    ensures AfterPublish(s, now)
         == s.(player := s.player.(blocks := s.clip.blocks, media := PublishedMedia(s)),
               audioBlocks := |s.clip.blocks|, revision := PublishedMedia(s).revision)
  {
    UpdateIsAccepted(s, now);
    UpdateKeepsTheRest(s.player, PublishedMedia(s), s.audioBlocks, s.clip.blocks[s.audioBlocks..], now);
  }

  /** Publishing anything else pauses the player where it is heard. */
  lemma PublishingWithdraws(s: SessionView, now: real)
    requires Sound(s) && s.revision < U64_MAX && !Available(s)
    ensures var t := AfterPublish(s, now);
            && t.player.state.Paused? && t.player.media.unavailable && t.player.blocks == s.clip.blocks
            && RestsAt(t.player, Audible(s.player, now))
  {
    UpdateIsAccepted(s, now);
    WithdrawalPauses(s.player, PublishedMedia(s), s.audioBlocks, s.clip.blocks[s.audioBlocks..], now);
  }

  /** So does the job's success on a completed clip: a player that streams it plays on. */
  lemma SuccessPlaysOn(s: SessionView, now: real)
    requires Sound(s) && s.revision < U64_MAX && Available(s) && s.clip.session.Completed?
    ensures var t := AfterJob(s, true, now);
            && t.state.Ready? && t.clip == s.clip && t.player.media.jobReady
            && t.player == s.player.(blocks := s.clip.blocks, media := t.player.media)
  {
    PublishingPlaysOn(s.(state := Ready), now);
  }

  /** What an accepted event adds to the clip; all that is not named stays as it is. */
  lemma CollectedContent(v: ClipView, event: OutputEvent)
    requires Consistent(v) && Taken(v, event)
    ensures var w := Collected(v, event);
            && w.id == v.id && (!event.AudioChunk? ==> w.blocks == v.blocks)
            && (!event.CurveFrame? ==> w.frames == v.frames) && (!event.StreamInfo? ==> w.names == v.names)
            && (!event.EmotionTrace? ==> w.emotions == v.emotions) && (!event.Completion? ==> w.session == v.session)
            && (event.StreamInfo? ==> w.names == event.curves.value.names)
            && (event.EmotionTrace? ==> w.emotions == v.emotions + event.smoothed)
            && (event.Completion? ==> w.session == Completed)
    ensures event.AudioChunk? ==>
              && event.position == |Flat(v.blocks)|
              && Flat(Collected(v, event).blocks)
                  == Flat(v.blocks)
                      + seq(|event.pcm|, i requires 0 <= i < |event.pcm| => event.pcm[i] as real / 32_768.0)
    ensures event.CurveFrame? ==>
              && event.layout == v.names && |event.values| == |v.names| && AllFinite(event.values)
              && Collected(v, event).frames
                  == v.frames + [CurveSample(event.time, Values(event.values), event.capacity)]
  {
    if event.AudioChunk? {
      ChunkIsAudio(v, event.pcm);
    }
  }

  lemma ChunkIsAudio(v: ClipView, pcm: seq<int>)
    requires Consistent(v) && AllFinite(Decode(pcm))
    ensures |Flat(v.blocks)| == SampleCount(v.blocks)
    ensures Flat(WithAudio(v, Values(Decode(pcm))).blocks)
              == Flat(v.blocks) + seq(|pcm|, i requires 0 <= i < |pcm| => pcm[i] as real / 32_768.0)
  {
    FlatLength(v.blocks);
    var chunk := Values(Decode(pcm));
    assert chunk == seq(|pcm|, i requires 0 <= i < |pcm| => pcm[i] as real / 32_768.0);
    if chunk != [] {
      assert Flat([AudioBlock(SampleCount(v.blocks), chunk)]) == chunk;
      FlatAppend(v.blocks, [AudioBlock(SampleCount(v.blocks), chunk)]);
    } else {
      assert WithAudio(v, chunk).blocks == v.blocks;
    }
  }

  /** An event is ignored by an ended session, taken without touching the player, or fails the session for good; the
      clip's own session then says whether it was the completion that failed. */
  lemma EventMeans(s: SessionView, event: OutputEvent, now: real)
    requires Sound(s)
    ensures var t := AfterEvent(s, event, now);
            && (s.Unavailable() ==> t == s)
            && (!s.Unavailable() && Taken(s.clip, event) ==>
                  && t == s.(clip := Collected(s.clip, event), state := t.state)
                  && t.state == if t.clip.session == Completed then Finalizing else Receiving)
            && (!s.Unavailable() && !Taken(s.clip, event) && s.revision < U64_MAX && s.clip.revision + 1 < U64_MAX ==>
                  && t.state == ControllerState.Failed("rejected output") && Silenced(t)
                  && t.player.blocks == s.clip.blocks
                  && t.clip.session
                      == if !s.clip.session.Receiving() then s.clip.session
                         else SessionState.Failed(if event.Completion? then "incomplete collection"
                                                  else "rejected output"))
  {
    if !s.Unavailable() && !Taken(s.clip, event) {
      RefusedMeans(s, event);
      WithdrawnMeans(s.(clip := Refused(s.clip, event)), SessionState.Failed("rejected output"), now);
    }
  }

  /** Ending a session that has not ended yet gives it that very end; the clip's own session ends with it unless it had
      ended before, and what was collected stays. */
  lemma EndingMeans(s: SessionView, session: SessionState, now: real)
    requires Sound(s) && Ending(session) && !s.Unavailable() && Markable(s)
    ensures var t := Withdrawn(s, session, now);
            && (session.Failed? ==> t.state == ControllerState.Failed(session.message))
            && (session.Cancelled? ==> t.state == ControllerState.Cancelled)
            && t.clip.session == (if s.clip.session.Idle? || s.clip.session.Running? then session else s.clip.session)
            && t.clip.blocks == s.clip.blocks && t.clip.frames == s.clip.frames && t.clip.names == s.clip.names
  {
    WithdrawnMeans(s, session, now);
  }

  /** A session starts over with a player that rests at the start of exactly the clip's audio. Play is accepted at once
      exactly when a completed clip that holds something is installed as ready. */
  lemma InstalledMeans(clip: ClipView, state: ControllerState, now: real)
    requires Consistent(clip) && (state.Ready? || state.Finalizing? ==> clip.session.Completed?)
    ensures var t := Installed(clip, state);
            && t.clip == clip && t.state == state && Flat(t.player.blocks) == Flat(clip.blocks)
            && t.player.state.Paused? && RestsAt(t.player, 0.0) && !t.player.looping && !t.player.streaming
            && t.player.streamBuffer == 0.1 && t.player.underruns == 0
            && (Commanded(t.player, Play, now).Ok? <==> state.Ready? && |Flat(clip.blocks)| > 0 && clip.frames != [])
  {
    FlatLength(clip.blocks);
  }

  /** A replaced clip is ready exactly if it is completed, and otherwise its session says what it is. */
  lemma ReplaceMeans(s: SessionView, clip: ClipView)
    requires Sound(s) && Consistent(clip)
    ensures var state := Stepped(s, Replace(clip)).state;
            && (state.Ready? <==> clip.session.Completed?) && (state.Receiving? <==> clip.session.Running?)
            && (state.Idle? <==> clip.session.Idle?) && (state.Cancelled? <==> clip.session.Cancelled?)
            && (state.Failed? <==> clip.session.Failed?) && (state.Failed? ==> state.message == clip.session.message)
  {
  }

  /** A new session waits for a job with an empty clip that can receive, and plays nothing yet. */
  lemma BeginMeans(s: SessionView, identity: nat, now: real)
    requires Sound(s)
    ensures var t := Stepped(s, Begin(identity));
            && t.state == Initializing && t.clip.id == identity && t.clip.session == Running
            && t.clip.blocks == [] && t.clip.frames == [] && t.clip.names == [] && t.player.blocks == []
            && Commanded(t.player, Play, now).Err?
  {
  }

  /** Collected output replaces the clip unless the session has ended; until the job's own result it is Finalizing if
      completed and Receiving if not, and Play has to wait. */
  lemma ReplaceOutputMeans(s: SessionView, clip: ClipView, now: real)
    requires Sound(s) && ReplaceOutput(clip).Legal()
    ensures var t := Stepped(s, ReplaceOutput(clip));
            && (s.Unavailable() ==> t == s)
            && (!s.Unavailable() ==>
                  && t.clip == clip && t.player.blocks == clip.blocks
                  && t.state == (if clip.session == Completed then Finalizing else Receiving)
                  && !t.player.media.jobReady && Commanded(t.player, Play, now).Err?)
  {
  }

  lemma MarkedMeans(s: SessionView, session: SessionState)
    requires Sound(s) && Ending(session) && Markable(s)
    ensures var t := Marked(s, session);
            Sound(t) && t.Unavailable() && Evolves(s.clip, t.clip) && t.player == s.player && t.revision == s.revision
  {
  }

  /** A withdrawal that goes through leaves a failed or cancelled session with a paused, withdrawn player. */
  lemma WithdrawnMeans(s: SessionView, session: SessionState, now: real)
    requires Sound(s) && Ending(session)
    ensures var t := Withdrawn(s, session, now);
            && Sound(t) && Evolves(s.clip, t.clip)
            && (Markable(s) ==> t.state == Marked(s, session).state && t.clip == Marked(s, session).clip)
            && (!Markable(s) ==> t == s)
            && (Markable(s) && s.revision < U64_MAX ==>
                  t.Unavailable() && t.player.media.unavailable && t.player.state.Paused?
                  && t.player.blocks == t.clip.blocks)
  {
    if Markable(s) {
      MarkedMeans(s, session);
      if s.revision < U64_MAX {
        PublishedMeans(Marked(s, session), now);
      }
    }
  }

  lemma RefusedMeans(s: SessionView, event: OutputEvent)
    requires Sound(s) && !Taken(s.clip, event)
    ensures Sound(s.(clip := Refused(s.clip, event))) && Evolves(s.clip, Refused(s.clip, event))
  {
  }

  // ---------------------------------------------------------------- whole runs

  datatype Op =
    | Begin(identity: nat)
    | Replace(clip: ClipView)
    | ReplaceOutput(clip: ClipView)
    | ApplyEvent(event: OutputEvent, now: real)
    | Fail(message: string, now: real)
    | Cancel(now: real)
    | JobFinished(ok: bool, now: real)
    | Publish(now: real)
    | UsePlayer(events: seq<Event>)
  {
    /** The operations that start over with another clip. */
    predicate Restarts() { Begin? || Replace? }

    /** What the callers keep to: clips come from their own methods, and only publishing changes media. */
    ghost predicate Legal() {
      && (Replace? ==> Consistent(clip))
      && (ReplaceOutput? ==> Consistent(clip) && (clip.session.Running? || clip.session.Completed?))
      && (UsePlayer? ==> forall i | 0 <= i < |events| :: !events[i].Grow?)
    }
  }

  /** A session that starts over with a clip: the player is a fresh replica of it. */
  function Installed(clip: ClipView, state: ControllerState): SessionView {
    SessionView(clip, state, |clip.blocks|, clip.revision,
                Fresh(Prepared(clip, state.Ready?, state.Failed? || state.Cancelled?), clip.blocks))
  }

  ghost function Stepped(s: SessionView, op: Op): SessionView
    requires Sound(s)
  {
    match op
    case Begin(identity) => Installed(EmptyClip(identity, Running), Initializing)
    case Replace(clip) => Installed(clip, StateOf(clip.session))
    case ReplaceOutput(clip) =>
      if s.Unavailable() then s else Installed(clip, if clip.session.Completed? then Finalizing else Receiving)
    case ApplyEvent(event, now) => AfterEvent(s, event, now)
    case Fail(message, now) => Withdrawn(s, SessionState.Failed(message), now)
    case Cancel(now) => Withdrawn(s, SessionState.Cancelled, now)
    case JobFinished(ok, now) => AfterJob(s, ok, now)
    case Publish(now) => AfterPublish(s, now)
    case UsePlayer(events) => s.(player := Run(s.player, events, |events|))
  }

  lemma InstalledIsSound(clip: ClipView, state: ControllerState)
    requires Consistent(clip) && (state.Ready? || state.Finalizing? ==> clip.session.Completed?)
    ensures Sound(Installed(clip, state))
  {
    PreparedWithin(clip, state.Ready?, state.Failed? || state.Cancelled?);
    assert clip.blocks[..|clip.blocks|] == clip.blocks;
  }

  /** Collecting an event keeps the clip's invariant and only lets it grow. */
  lemma CollectedMeans(v: ClipView, event: OutputEvent)
    requires Consistent(v) && Taken(v, event)
    ensures Consistent(Collected(v, event)) && Evolves(v, Collected(v, event))
  {
    match event {
      case StreamInfo(_, curves) =>
        NamesAccepted(v, curves.value.names, LayoutCost(curves.value.capacity, curves.value.capacities));
      case AudioChunk(_, _, pcm) => AudioAccepted(v, Values(Decode(pcm)));
      case CurveFrame(_, time, values, capacity) => FrameAccepted(v, CurveSample(time, Values(values), capacity));
      case EmotionTrace(smoothed) => EmotionsAccepted(v, smoothed);
      case Completion => CompletionAccepted(v);
      case Ignored =>
    }
  }

  lemma EventKeepsSound(s: SessionView, event: OutputEvent, now: real)
    requires Sound(s)
    ensures Sound(AfterEvent(s, event, now))
  {
    if !s.Unavailable() {
      if Taken(s.clip, event) {
        CollectedMeans(s.clip, event);
        CollectingKeepsReplica(s, Collected(s.clip, event));
      } else {
        RefusedMeans(s, event);
        WithdrawnMeans(s.(clip := Refused(s.clip, event)), SessionState.Failed("rejected output"), now);
      }
    }
  }

  lemma PublishKeepsSound(s: SessionView, now: real)
    requires Sound(s)
    ensures Sound(AfterPublish(s, now))
  {
    if s.revision < U64_MAX {
      PublishedMeans(s, now);
    }
  }

  lemma JobKeepsSound(s: SessionView, ok: bool, now: real)
    requires Sound(s)
    ensures Sound(AfterJob(s, ok, now))
  {
    if s.Unavailable() || s.state.Ready? {
      PublishKeepsSound(s, now);
    } else if !ok {
      WithdrawnMeans(s, SessionState.Failed("job failed"), now);
    } else if s.clip.session.Completed? {
      PublishKeepsSound(s.(state := Ready), now);
    } else {
      WithdrawnMeans(s, SessionState.Failed("missing completion"), now);
    }
  }

  lemma UseKeepsSound(s: SessionView, events: seq<Event>)
    requires Sound(s) && forall i | 0 <= i < |events| :: !events[i].Grow?
    ensures Sound(s.(player := Run(s.player, events, |events|)))
  {
    PlayerUseKeepsReplica(s, events);
    RunStaysBounded(s.player, events, |events|);
  }

  lemma StepKeepsSound(s: SessionView, op: Op)
    requires Sound(s) && op.Legal()
    ensures Sound(Stepped(s, op))
  {
    match op {
      case Begin(identity) =>
        EmptyIsConsistent(identity, Running);
        InstalledIsSound(EmptyClip(identity, Running), Initializing);
      case Replace(clip) => InstalledIsSound(clip, StateOf(clip.session));
      case ReplaceOutput(clip) => InstalledIsSound(clip, if clip.session.Completed? then Finalizing else Receiving);
      case ApplyEvent(event, now) => EventKeepsSound(s, event, now);
      case Fail(message, now) => WithdrawnMeans(s, SessionState.Failed(message), now);
      case Cancel(now) => WithdrawnMeans(s, SessionState.Cancelled, now);
      case JobFinished(ok, now) => JobKeepsSound(s, ok, now);
      case Publish(now) => PublishKeepsSound(s, now);
      case UsePlayer(events) => UseKeepsSound(s, events);
    }
  }

  /** Step `i` of a history. */
  ghost predicate StepAt(states: seq<SessionView>, ops: seq<Op>, i: nat)
    requires |states| == |ops| + 1 && i < |ops|
  {
    Sound(states[i]) && ops[i].Legal() && states[i + 1] == Stepped(states[i], ops[i])
  }

  /** A history of a session: states with the operations between them. */
  ghost predicate History(states: seq<SessionView>, ops: seq<Op>) {
    |states| == |ops| + 1 && Sound(states[0]) && forall i: nat | i < |ops| :: StepAt(states, ops, i)
  }

  lemma SoundNext(states: seq<SessionView>, ops: seq<Op>, i: nat)
    requires |states| == |ops| + 1 && i < |ops| && StepAt(states, ops, i)
    ensures Sound(states[i + 1])
  {
    StepKeepsSound(states[i], ops[i]);
  }

  lemma SoundAt(states: seq<SessionView>, ops: seq<Op>, i: nat)
    requires History(states, ops) && i < |states|
    ensures Sound(states[i])
  {
    if i > 0 {
      assert StepAt(states, ops, i - 1);
      SoundNext(states, ops, i - 1);
    }
  }

  lemma HistoryGrows(states: seq<SessionView>, ops: seq<Op>, op: Op)
    requires History(states, ops) && op.Legal() && Sound(states[|ops|])
    ensures History(states + [Stepped(states[|ops|], op)], ops + [op])
  {
    var longer, more := states + [Stepped(states[|ops|], op)], ops + [op];
    forall i: nat | i < |more|
      ensures StepAt(longer, more, i)
    {
      if i < |ops| {
        assert StepAt(states, ops, i);
      }
    }
  }

  /** Any legal operations at all have a history. */
  lemma {:induction false} EveryRunIsAHistory(s: SessionView, ops: seq<Op>) returns (states: seq<SessionView>)
    requires Sound(s) && forall i | 0 <= i < |ops| :: ops[i].Legal()
    ensures History(states, ops) && states[0] == s
  {
    if ops == [] {
      states := [s];
    } else {
      var n := |ops| - 1;
      var before := EveryRunIsAHistory(s, ops[..n]);
      SoundAt(before, ops[..n], n);
      HistoryGrows(before, ops[..n], ops[n]);
      assert ops[..n] + [ops[n]] == ops;
      states := before + [Stepped(before[n], ops[n])];
    }
  }

  /** What soundness says at every point of every run. */
  lemma RunsStaySound(states: seq<SessionView>, ops: seq<Op>, i: nat)
    requires History(states, ops) && i < |states|
    ensures var t := states[i];
            && Flat(t.player.blocks) <= Flat(t.clip.blocks)
            && |t.player.blocks| == t.audioBlocks && t.player.media.revision == t.revision
            && (t.state.Ready? || t.state.Finalizing? ==> t.clip.session.Completed?)
            && (forall now :: 0.0 <= Audible(t.player, now) < Limit(t.player.media))
  {
    SoundAt(states, ops, i);
    ReplicaPlaysAPrefix(states[i]);
    forall now
      ensures 0.0 <= Audible(states[i].player, now) < Limit(states[i].player.media)
    {
      AudibleWithin(states[i].player, now);
    }
  }

  /** In every history a publication of an available result leaves the player playing, or not, exactly as it was. */
  lemma HistoriesPlayOn(states: seq<SessionView>, ops: seq<Op>, i: nat)
    requires History(states, ops) && i < |ops| && ops[i].Publish?
    requires Available(states[i]) && states[i].revision < U64_MAX
    ensures states[i + 1].player.(blocks := states[i].player.blocks, media := states[i].player.media)
              == states[i].player
    ensures states[i + 1].clip == states[i].clip && states[i + 1].state == states[i].state
    ensures states[i + 1].player.blocks == states[i].clip.blocks
    ensures states[i + 1].player.media.readyUntil == ReadyUntil(states[i].clip)
  {
    assert StepAt(states, ops, i);
    PublishingPlaysOn(states[i], ops[i].now);
    PublishedMetadata(states[i]);
  }

  lemma EndedSteps(states: seq<SessionView>, ops: seq<Op>, i: nat)
    requires |states| == |ops| + 1 && i < |ops| && StepAt(states, ops, i) && states[i].Unavailable()
              && !ops[i].Restarts()
    ensures states[i + 1].state == states[i].state && states[i + 1].clip == states[i].clip
  {
  }

  /** A failed or cancelled session stays exactly that until it is restarted. */
  lemma {:induction false} EndedIsAbsorbing(states: seq<SessionView>, ops: seq<Op>, i: nat, j: nat)
    requires History(states, ops) && i <= j < |states| && states[i].Unavailable()
    requires forall k | i <= k < j :: !ops[k].Restarts()
    ensures states[j].state == states[i].state && states[j].clip == states[i].clip
    decreases j
  {
    if i < j {
      EndedIsAbsorbing(states, ops, i, j - 1);
      assert StepAt(states, ops, j - 1);
      EndedSteps(states, ops, j - 1);
    }
  }

  /** Nothing of a withdrawn result is heard. */
  ghost predicate Silenced(s: SessionView) {
    s.Unavailable() && s.player.media.unavailable && !s.player.state.Playing? && !s.player.state.Buffering?
  }

  lemma PublishKeepsSilence(s: SessionView, now: real)
    requires Sound(s) && Silenced(s)
    ensures Silenced(AfterPublish(s, now))
  {
  }

  lemma SilencedSteps(states: seq<SessionView>, ops: seq<Op>, i: nat)
    requires |states| == |ops| + 1 && i < |ops| && StepAt(states, ops, i) && Silenced(states[i]) && !ops[i].Restarts()
    ensures Silenced(states[i + 1])
  {
    var s := states[i];
    match ops[i] {
      case ReplaceOutput(_) =>
      case ApplyEvent(_, _) =>
      case Fail(_, now) => PublishKeepsSilence(s, now);
      case Cancel(now) => PublishKeepsSilence(s, now);
      case JobFinished(_, now) => PublishKeepsSilence(s, now);
      case Publish(now) => PublishKeepsSilence(s, now);
      case UsePlayer(events) => WithdrawnStaysSilent(s.player, events, |events|);
    }
  }

  lemma {:induction false} SilenceStays(states: seq<SessionView>, ops: seq<Op>, i: nat, j: nat)
    requires History(states, ops) && i <= j < |states| && Silenced(states[i])
    requires forall k | i <= k < j :: !ops[k].Restarts()
    ensures Silenced(states[j])
    decreases j
  {
    if i < j {
      SilenceStays(states, ops, i, j - 1);
      assert StepAt(states, ops, j - 1);
      SilencedSteps(states, ops, j - 1);
    }
  }

  /** After a failure or a cancellation has gone through, until a restart: Play is refused and every sample is zero. */
  lemma EndedIsSilent(states: seq<SessionView>, ops: seq<Op>, i: nat, j: nat)
    requires History(states, ops) && i <= j < |states| && Silenced(states[i])
    requires forall k | i <= k < j :: !ops[k].Restarts()
    ensures forall now :: Commanded(states[j].player, Play, now) == Err(ResultUnavailable)
    ensures forall rate: nat, k: nat :: RenderedSample(states[j].player, rate, k) == 0.0
  {
    SilenceStays(states, ops, i, j);
    WithdrawnStaysSilent(states[j].player, [], 0);
  }

  /** Ready is only ever entered with a completed clip, by installing one or by the job's success. */
  lemma ReadyIsEarned(states: seq<SessionView>, ops: seq<Op>, i: nat)
    requires History(states, ops) && i < |ops| && states[i + 1].state.Ready?
    ensures states[i + 1].clip.session.Completed?
    ensures states[i].state.Ready? || ops[i].Replace?
              || (ops[i].JobFinished? && ops[i].ok && states[i].clip.session.Completed?)
  {
    assert StepAt(states, ops, i);
    SoundNext(states, ops, i);
    ReadyStep(states[i], ops[i]);
  }

  lemma ReadyStep(s: SessionView, op: Op)
    requires Sound(s) && op.Legal() && Stepped(s, op).state.Ready?
    ensures s.state.Ready? || op.Replace? || (op.JobFinished? && op.ok && s.clip.session.Completed?)
  {
  }

  /** No counter that the job's end needs is exhausted. */
  predicate JobGoesThrough(s: SessionView, ok: bool) {
    s.revision < U64_MAX && (s.state.Ready? || (ok && s.clip.session.Completed?) || Markable(s))
  }

  /** A job's end that goes through leaves a playable completed clip or a silenced session, all audio published. */
  lemma JobMeans(s: SessionView, ok: bool, now: real)
    requires Sound(s) && JobGoesThrough(s, ok)
    ensures var t := AfterJob(s, ok, now);
            && (t.state.Ready? ==> t.player.media.jobReady && t.player.media.complete)
            && (!t.state.Ready? ==> t.Unavailable() && t.player.media.unavailable && t.player.state.Paused?)
            && t.player.blocks == t.clip.blocks
  {
    if s.Unavailable() || s.state.Ready? {
      PublishedMeans(s, now);
    } else if ok && s.clip.session.Completed? {
      PublishedMeans(s.(state := Ready), now);
    } else {
      WithdrawnMeans(s, SessionState.Failed(if ok then "missing completion" else "job failed"), now);
    }
  }

  /** Once the job is finished, the session is Ready, Failed or Cancelled, unless its clip's revision counter is
      exhausted;
      it is Ready exactly if it was, or on success with a completed clip. */
  lemma JobSettlesTheSession(s: SessionView, ok: bool, now: real)
    requires Sound(s)
    ensures var t := AfterJob(s, ok, now);
            && (t.state.Ready? || t.Unavailable() || (t.state == s.state && Exhaustible(s)))
            && (t.state.Ready? <==> s.state.Ready? || (ok && s.clip.session.Completed? && !s.Unavailable()))
  {
  }

  // ---------------------------------------------------------------- the controller

  class SessionController {
    var clip: Clip
    const player: Player
    var audioBlocks: nat
    var state: ControllerState
    var revision: nat

    ghost function View(): SessionView
      reads this, clip, clip.audio, player, player.audio
    {
      SessionView(clip.View(), state, audioBlocks, revision, player.View())
    }

    ghost predicate Valid()
      reads this, clip, clip.audio, player, player.audio
    {
      && clip.Valid() && player.Valid() && player.audio != clip.audio
      && Coherent(View())
    }

    /** `new` over an existing shared player, which it overwrites with an empty idle clip. */
    constructor (shared: Player, identity: nat)
      modifies shared
      ensures Valid() && player == shared && fresh(clip) && fresh(clip.audio) && fresh(player.audio)
      ensures state == ControllerState.Idle && clip.id == identity
    {
      player := shared;
      var empty := new Clip(identity, false);
      clip, audioBlocks, state, revision := empty, 0, ControllerState.Idle, 0;
      new;
      Install(empty, ControllerState.Idle);
    }

    predicate IsUnavailable()
      reads this
    {
      state.Failed? || state.Cancelled?
    }

    /** `for_controller`: the clip's metadata with the job's verdict. */
    static method Prepare(next: Clip, ready: bool, unavailable: bool) returns (media: Media)
      requires next.Valid()
      ensures media == Prepared(next.View(), ready, unavailable) && MediaWithin(media)
      ensures media.sampleCount == SampleCount(next.audio.blocks)
    {
      PreparedWithin(next.View(), ready, unavailable);
      var until := next.Ready();
      media := Media(next.id, next.revision, next.audio.samples, until, next.session.Completed?, ready,
                     next.session.Failed? || next.session.Cancelled? || unavailable, |next.frames| > 0);
    }

    /** Prepares the player's handles and flags before it is overwritten, so the new clip is never briefly playable. */
    method Install(next: Clip, to: ControllerState)
      requires next.Valid() && next.audio != player.audio
      requires to.Ready? || to.Finalizing? ==> next.session.Completed?
      modifies this, player
      ensures Valid() && clip == next && fresh(player.audio)
      ensures clip.View() == old(next.View()) && View() == Installed(clip.View(), to)
    {
      var media := Prepare(next, to.Ready?, to.Failed? || to.Cancelled?);
      player.Install(media, next.audio);
      audioBlocks, revision, state, clip := |next.audio.blocks|, next.revision, to, next;
      assert next.audio.blocks[..audioBlocks] == next.audio.blocks;
    }

    method Begin(identity: nat)
      requires Valid()
      modifies this, player
      ensures Valid() && fresh(clip) && fresh(clip.audio) && fresh(player.audio)
      ensures View() == Installed(EmptyClip(identity, Running), Initializing)
    {
      var next := new Clip(identity, true);
      Install(next, Initializing);
    }

    method Replace(next: Clip)
      requires Valid() && next.Valid() && next.audio != player.audio
      modifies this, player
      ensures Valid() && clip == next && fresh(player.audio)
      ensures clip.View() == old(next.View()) && View() == Installed(clip.View(), StateOf(clip.session))
    {
      Install(next, StateOf(next.session));
    }

    /** Installs collected output while the job's own result is still pending. The output is Running or Completed. */
    method ReplaceOutput(next: Clip) returns (r: Outcome)
      requires Valid() && next.Valid() && next.audio != player.audio
      requires next.session.Running? || next.session.Completed?
      modifies this, player
      ensures Valid() && (r.Ok? <==> !old(IsUnavailable()))
      ensures r.Err? ==> View() == old(View())
      ensures r.Ok? ==> clip == next && clip.View() == old(next.View())
      ensures r.Ok? ==> View() == Installed(clip.View(), if clip.session.Completed? then Finalizing else Receiving)
    {
      if IsUnavailable() {
        return Err(ClipError.Ended);
      }
      Install(next, if next.session.Completed? then Finalizing else Receiving);
      return Ok(());
    }

    /** Metadata collected before the player is locked. */
    method PrepareUpdate() returns (media: Media)
      requires Valid()
      ensures media == PublishedMedia(View())
    {
      var next := if revision + 1 >= clip.revision then revision + 1 else clip.revision;
      var ready := clip.Ready();
      media := Media(clip.id, next, clip.audio.samples, ready, clip.session.Completed?, state.Ready?,
                     clip.session.Failed? || clip.session.Cancelled? || IsUnavailable(), |clip.frames| > 0);
    }

    /** Copies what the clip gained into the player. Below counter exhaustion the player always accepts. */
    method Publish(now: real) returns (r: Outcome)
      requires Valid()
      modifies this, player, player.audio
      ensures Valid() && clip == old(clip) && player.audio == old(player.audio)
      ensures r.Ok? <==> old(revision) < U64_MAX
      ensures View() == AfterPublish(old(View()), now)
      ensures r.Ok? ==> player.audio.blocks == clip.audio.blocks
    {
      ghost var before := View();
      var blocks := clip.audio.SharedFrom(audioBlocks);
      if blocks.Err? || revision == U64_MAX {
        return Err(RevisionExhausted);
      }
      PublishedMeans(before, now);
      UpdateIsAccepted(before, now);
      var media := PrepareUpdate();
      var applied := player.ApplyUpdate(media, audioBlocks, blocks.value, now);
      audioBlocks, revision := |clip.audio.blocks|, media.revision;
      assert View() == Published(before, now);
      return Ok(());
    }

    /** Marks the session as failed or cancelled, whichever `ending` says; false when the clip refuses. */
    method Mark(ending: SessionState) returns (ok: bool)
      requires Valid() && Ending(ending)
      modifies this, clip
      ensures Valid() && clip == old(clip)
      ensures ok <==> Markable(old(View()))
      ensures View() == if ok then Marked(old(View()), ending) else old(View())
    {
      ghost var before := View();
      if IsUnavailable() {
        return true;
      }
      if clip.session.Receiving() {
        var ended := clip.SetSession(ending);
        if ended.Err? {
          return false;
        }
      }
      state := StateOf(ending);
      MarkedMeans(before, ending);
      assert View() == Marked(before, ending);
      return true;
    }

    /** What failing and cancelling have in common: mark the session, then publish the withdrawal. */
    method Withdraw(ending: SessionState, now: real) returns (r: Outcome)
      requires Valid() && Ending(ending)
      modifies this, clip, player, player.audio
      ensures Valid() && clip == old(clip) && player.audio == old(player.audio)
      ensures r.Ok? <==> Markable(old(View())) && old(revision) < U64_MAX
      ensures View() == Withdrawn(old(View()), ending, now)
    {
      var marked := Mark(ending);
      if !marked {
        return Err(RevisionExhausted);
      }
      r := Publish(now);
    }

    method Fail(message: string, now: real) returns (r: Outcome)
      requires Valid()
      modifies this, clip, player, player.audio
      ensures Valid() && clip == old(clip) && player.audio == old(player.audio)
      ensures r.Ok? <==> Markable(old(View())) && old(revision) < U64_MAX
      ensures View() == Withdrawn(old(View()), SessionState.Failed(message), now)
      ensures r.Ok? ==> Silenced(View()) && player.audio.blocks == clip.audio.blocks
    {
      WithdrawnMeans(View(), SessionState.Failed(message), now);
      r := Withdraw(SessionState.Failed(message), now);
    }

    method Cancel(now: real) returns (r: Outcome)
      requires Valid()
      modifies this, clip, player, player.audio
      ensures Valid() && clip == old(clip) && player.audio == old(player.audio)
      ensures r.Ok? <==> Markable(old(View())) && old(revision) < U64_MAX
      ensures View() == Withdrawn(old(View()), SessionState.Cancelled, now)
      ensures r.Ok? ==> Silenced(View()) && player.audio.blocks == clip.audio.blocks
    {
      WithdrawnMeans(View(), SessionState.Cancelled, now);
      r := Withdraw(SessionState.Cancelled, now);
    }

    /** Applies one event of a batch; the caller publishes afterwards. A rejected event fails the session. */
    method ApplyEvent(event: OutputEvent, now: real) returns (r: Outcome)
      requires Valid()
      modifies this, clip, clip.audio, player, player.audio
      ensures Valid() && clip == old(clip) && player.audio == old(player.audio)
      ensures r.Ok? <==> !old(IsUnavailable()) && Taken(old(clip.View()), event)
      ensures View() == AfterEvent(old(View()), event, now)
    {
      ghost var before := View();
      if IsUnavailable() {
        return Err(ClipError.Ended);
      }
      r := ApplyOutput(clip, event);
      CollectingKeepsReplica(before, clip.View());
      if r.Err? {
        assert View() == before.(clip := Refused(before.clip, event));
        var failed := Fail("rejected output", now);
        return;
      }
      state := if clip.session.Completed? then Finalizing else Receiving;
    }

    method ApplyEventFor(identity: nat, event: OutputEvent, now: real) returns (r: Outcome)
      requires Valid()
      modifies this, clip, clip.audio, player, player.audio
      ensures Valid() && clip == old(clip) && player.audio == old(player.audio)
      ensures r.Ok? <==> identity == old(clip.id) && !old(IsUnavailable()) && Taken(old(clip.View()), event)
      ensures View() == if identity == old(clip.id) then AfterEvent(old(View()), event, now) else old(View())
    {
      if clip.id != identity {
        return Err(BadEvent);
      }
      r := ApplyEvent(event, now);
    }

    method JobFinished(ok: bool, now: real) returns (r: Outcome)
      requires Valid()
      modifies this, clip, player, player.audio
      ensures Valid() && clip == old(clip) && player.audio == old(player.audio)
      ensures r.Ok? <==> JobGoesThrough(old(View()), ok)
      ensures View() == AfterJob(old(View()), ok, now)
    {
      if IsUnavailable() || state.Ready? {
        r := Publish(now);
      } else if !ok {
        r := Fail("job failed", now);
      } else if clip.session.Completed? {
        state := Ready;
        r := Publish(now);
      } else {
        r := Fail("missing completion", now);
      }
    }

    /** A view never mixes the clock of one clip with the curves of another. */
    method ClockFor(now: real) returns (time: real)
      requires Valid()
      modifies player
      ensures Valid() && player.View() == Observed(old(player.View()), now) && player.media.clipId == clip.id
      ensures 0.0 <= time <= Duration(clip.View())
    {
      time := player.ClockSnapshot(now);
      CutTrack(clip.audio.blocks, audioBlocks);
    }
  }
}
