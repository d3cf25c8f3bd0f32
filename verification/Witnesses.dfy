/** The inputs on which a law fails, built with the program's own operations: nothing in them is out of reach. */
module Witnesses {
  import opened Common
  import opened AudioTracks
  import opened ClipModel
  import opened Clips
  import opened PlaybackModel
  import opened PlaybackLaws
  import opened Players
  import opened Sessions

  /** A tenth of a second of silence, as it is pushed. */
  function Silence(): seq<Float> { seq(1600, i => Finite(0.0)) }

  lemma SilenceIsFinite()
    ensures AllFinite(Silence()) && Values(Silence()) == Quiet()
  {
  }

  function Blank(): ClipView { EmptyClip(1, Running) }

  function Named(): ClipView { WithNames(Blank(), ["jawOpen"], 31) }

  function Sounding(): ClipView { WithAudio(Named(), Quiet()) }

  function Key(time: real): CurveSample { CurveSample(time, [0.0], 1) }

  /** A running clip with one curve, a tenth of a second of audio and one frame at its start. */
  function Started(): ClipView { WithFrame(Sounding(), Key(0.0)) }

  lemma NamesFitBlank()
    ensures NamesFit(Blank(), ["jawOpen"], LayoutCost(1, [7])) && LayoutCost(1, [7]) == 31
  {
    assert |"jawOpen"| == 7;
    assert LayoutCost(1, [7]) == 24 + (NamesCost([7], 0) + 7);
  }

  lemma SilenceFitsNamed(v: ClipView)
    requires v == Named()
    ensures ReadyForSilence(v)
  {
    SilenceIsFinite();
  }

  method NewNamed() returns (clip: Clip)
    ensures fresh(clip) && fresh(clip.audio) && clip.Valid() && ReadyForSilence(clip.View())
  {
    clip := new Clip(1, true);
    assert clip.View() == Blank();
    NamesFitBlank();
    var named := clip.SetNames(["jawOpen"], 1, [7]);
    SilenceFitsNamed(clip.View());
  }

  ghost predicate ReadyForSilence(v: ClipView) {
    AudioFits(v, 0, Silence()) && v.revision < U64_MAX && WithAudio(v, Quiet()) == Sounding()
  }

  method NewSounding() returns (clip: Clip)
    ensures fresh(clip) && fresh(clip.audio) && clip.Valid() && clip.View() == Sounding()
  {
    clip := NewNamed();
    SilenceIsFinite();
    var sounded := clip.PushAudio(0, Silence());
  }

  /** Pushes one frame of the one curve. */
  method PushKey(clip: Clip, time: real)
    requires clip.Valid() && FrameFits(clip.View(), Finite(time), [Finite(0.0)], 1) && clip.revision < U64_MAX
    modifies clip
    ensures clip.Valid() && clip.View() == WithFrame(old(clip.View()), Key(time))
  {
    assert Values([Finite(0.0)]) == [0.0];
    var framed := clip.PushFrame(Finite(time), [Finite(0.0)], 1);
  }

  method StartClip() returns (clip: Clip)
    ensures fresh(clip) && fresh(clip.audio) && clip.Valid() && clip.View() == Started()
  {
    clip := NewSounding();
    PushKey(clip, 0.0);
  }

  lemma ShortTailIsCollected()
    ensures FrameFits(Started(), Finite(0.0499995), [Finite(0.0)], 1)
    ensures var v := WithFrame(Started(), Key(0.0499995));
            v.session.Receiving() && Covers(v) && v.revision < U64_MAX && WithSession(v, Completed) == ShortTail()
  {
    assert Started().frames == [Key(0.0)];
    assert WithFrame(Started(), Key(0.0499995)).frames == ShortTail().frames;
    assert Sounding().blocks == ShortTail().blocks;
  }

  /** The clip of `EndCanGoUnreported`, collected event by event. */
  method CollectShortTail() returns (clip: Clip)
    ensures fresh(clip) && fresh(clip.audio) && clip.Valid() && clip.View() == ShortTail()
  {
    clip := StartClip();
    ShortTailIsCollected();
    PushKey(clip, 0.0499995);
    var finished := clip.FinishCollection();
  }

  /** Its player, sought to the end of what can be played and told to play: no render and no snapshot will ever end
      it. */
  method PlayShortTail(now: real) returns (player: Player)
    ensures player.Valid() && player.state == Playing && player.media == FromClip(ShortTail())
    ensures forall events: seq<Event> | forall i | 0 <= i < |events| :: events[i].Render? || events[i].Look? ::
              Run(player.View(), events, |events|) == player.View()
  {
    var clip := CollectShortTail();
    ReadyWithinDuration(clip.View());
    var media := SessionController.Prepare(clip, clip.session.Completed?, false);
    player := new Player(media, clip.audio);
    EndCanGoUnreported(now);
    var sought := player.Command(Seek(Finite(player.media.readyUntil)), now);
    var played := player.Command(Play, now);
  }

  function Second(): ClipView { WithFrame(Started(), Key(0.05)) }

  function Third(): ClipView { WithFrame(Second(), Key(0.1)) }

  lemma RunningIsCollected()
    ensures FrameFits(Started(), Finite(0.05), [Finite(0.0)], 1) && FrameFits(Second(), Finite(0.1), [Finite(0.0)], 1)
    ensures FromClip(Third()) == StillReceiving()
  {
    assert Started().frames == [Key(0.0)] && Second().frames == [Key(0.0), Key(0.05)];
    assert Third().frames == [Key(0.0), Key(0.05), Key(0.1)];
  }

  /** The clip of `ChunkingNeedsABuffer`: still running, its curves at the end of its audio. */
  method CollectRunning() returns (clip: Clip)
    ensures fresh(clip) && fresh(clip.audio) && clip.Valid() && FromClip(clip.View()) == StillReceiving()
  {
    clip := StartClip();
    RunningIsCollected();
    PushKey(clip, 0.05);
    PushKey(clip, 0.1);
  }

  /** The player of `ChunkingNeedsABuffer`: stream without a buffer, seek to the end of what is ready, play. */
  function Waiting(blocks: seq<AudioBlock>): PlayerView {
    PlayerView(StillReceiving(), blocks, Playing, false, true, 0.0, 0, 0.1, 0.1, [], false)
  }

  method PlayRunning(now: real) returns (player: Player)
    ensures fresh(player) && fresh(player.audio) && player.Valid() && player.View() == Waiting(player.audio.blocks)
  {
    var clip := CollectRunning();
    var media := SessionController.Prepare(clip, clip.session.Completed?, false);
    player := new Player(media, clip.audio);
    var streaming := player.SetStreaming(true, 0.0);
    var sought := player.Command(Seek(Finite(0.1)), now);
    var played := player.Command(Play, now);
  }

  lemma WaitingDiffers(blocks: seq<AudioBlock>, at: real, later: real)
    ensures Rendered(Waiting(blocks), 2, 16_000, at).underruns == 1
    ensures Rendered(Rendered(Waiting(blocks), 1, 16_000, at), 1, 16_000, later).underruns == 2
  {
    ChunkingNeedsABuffer(blocks, 0.0, at, later);
  }

  /** Two frames at once and two frames one by one, on two such players: one underrun against two. */
  method RenderTwice(now: real, at: real, later: real) returns (once: nat, twice: nat)
    ensures once == 1 && twice == 2
  {
    var whole := PlayRunning(now);
    WaitingDiffers(whole.audio.blocks, at, later);
    var all := whole.RenderAudio(2, 16_000, at);
    once := whole.underruns;
    var halves := PlayRunning(now);
    WaitingDiffers(halves.audio.blocks, at, later);
    var first := halves.RenderAudio(1, 16_000, at);
    var second := halves.RenderAudio(1, 16_000, later);
    twice := halves.underruns;
  }
}
