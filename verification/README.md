# A Dafny model of the Audio2Face-3D desktop and runtime protocols

The neural kernels are opaque; what this project models is the code around them that decides whether the
result is right:

- **Media** (`AudioTrack.dfy`, `ClipModel.dfy`, `Clip.dfy`): a clip grows under budgets and revision counters; its
  immutable audio blocks are shared with the player.
- **Playback** (`PlaybackModel.dfy`, `PlaybackLaws.dfy`, `ClockLaws.dfy`, `Fidelity.dfy`, `Player.dfy`,
  `Witnesses.dfy`): the audio callback resamples, loops, runs dry and
  re-buffers; a bounded queue of anchors turns submitted frames into an audible clock.
- **Session** (`Session.dfy`): the controller that owns the clip, replicates it into the player and settles the job.
- **Timeline** (`Timeline.dfy`): the min/max envelope and its revision-keyed cache.
- **Audio device** (`Device.dfy`, `DeviceProgress.dfy`): command thread, worker, error callbacks and render callbacks as a
  transition system in which every lock region and every atomic operation is one step; what every interleaving keeps, and
  what each thread achieves when it runs.
- **Completion** (`Completion.dfy`): per-track pending counters, waker lists and first errors.
- **Interactive passes** (`Interactive.dfy`): the host and the device BlendShape futures.
- **WAV** (`Wav.dfy`): streaming resampling with a moving window.
- **Server responses** (`Response.dfy`): the response stream, the worker that feeds it and the end of a request.
- **OBJ splitting and morphing** (`MorphTransform.dfy`, `MorphSplit.dfy`, `MorphEdges.dfy`, `MorphChannels.dfy`,
  `MorphConvert.dfy`): from source faces and
  expressions to parts with morph targets, and what evaluating them means.

Objects that the program updates in place are classes here (`Clip`, `AudioTrack`, `Player`, `SessionController`,
`Timeline`, `ExecutionCompletion`, the futures, `ResponseStream`). Each has a `View()`, and its methods are proved against
functions on views; the laws over whole runs are lemmas about those functions.

Times, samples, positions and weights are `real`; `as usize` is the floor. A floating point argument that the program
checks is a `Float`, a number or not a finite one. Counters that the program checks for exhaustion are bounded by
`U64_MAX` and have their error outcome.

## Where a law needs a condition

Each of these laws fails for some inputs. The lemmas named give an input that fails, and the exact condition under which the law holds.

- **End of playback.** A clip that passes collection may be playable only up to 1e-6 s before the end of its audio, while a
  snapshot reports `Ended` only within 1e-8 s of the duration: `EndCanGoUnreported`, built by `Witnesses.PlayShortTail`;
  exactly when it is reported: `EndReportedIff`.
- **Buffering.** A player in Buffering with nothing left stays there even when the clip completes: `StarvedStays`; exactly when
  it plays on: `BufferingResumesIff`.
- **Chunk invariance.** Samples and clock never depend on how frames are cut into calls; state and underrun count do when a call
  runs dry and the stream buffer asks for no more than is left: `ChunkingNeedsABuffer`, built by `Witnesses.RenderTwice`;
  exactly when they do not: `ChunkInvariance`, `ChunkInvarianceIff`.
- **Stable results.** A late registration reopens a ready execution and a second end of scheduling can replace its result:
  `LateRegistrationReopens`, `SecondScheduleChangesResult`; exactly when a result stays: `StableStepIff`, `ReadyResultIsStable`.
- **Audible clock.** A queue of 64 anchors that all lie in the future has forgotten what is being heard, and the clock falls back
  to the base position: `ClockCanFallBack`; exactly when eviction goes unheard: `EvictionUnheardIff`,
  `BoundedQueueIsExactIff`; exactly when the clock of a queue runs forward: `RunsForwardIff`; that it does without a loop
  wrap: `UnwrappedRunsForward`.
- **Fail and cancel** leave the session as it is exactly when the clip's revision counter is exhausted while it still receives:
  `Markable` in `Session.dfy`.

## Model

| member | source | states |
|---|---|---|
| `AudioTracks.FlatLength` | crates/audio2face3d-gui/src/core/audio_track.rs:25-27 | A well-formed block list of total length n flattens to exactly n samples. |
| `AudioTracks.BlockInFlat` | crates/audio2face3d-gui/src/core/audio_track.rs:49-75 | Sample k of block i is sample start(i) + k of the flat sequence. |
| `AudioTracks.LastStartedContains` | crates/audio2face3d-gui/src/core/audio_track.rs:49-75 | The partition point used by the lookup lands on the one block that contains the index, empty blocks included. |
| `AudioTracks.CutTrack` | crates/audio2face3d-gui/src/core/audio_track.rs:100-106 | Cutting at any block gives two contiguous parts whose flat sequences concatenate to the whole. |
| `AudioTracks.JoinTrack` | crates/audio2face3d-gui/src/core/audio_track.rs:107-121 | Appending blocks that start at the current end keeps the track contiguous. |
| `AudioTracks.AudioTrack.SampleAt` | crates/audio2face3d-gui/src/core/audio_track.rs:49-75 | For every cursor value, stale or out of range: the result is the flat element, None exactly past the end, and the cursor ends on the containing block. |
| `AudioTracks.AudioTrack.Get` | crates/audio2face3d-gui/src/core/audio_track.rs:41-48 | Equals the flat element, None exactly past the end. |
| `AudioTracks.AudioTrack.Push` | crates/audio2face3d-gui/src/core/audio_track.rs:88-99 | The flat sequence grows by exactly the pushed samples; nothing else changes. |
| `AudioTracks.AudioTrack.SharedFrom` | crates/audio2face3d-gui/src/core/audio_track.rs:100-106 | Returns exactly the blocks from the index on; an error exactly past the block count. |
| `AudioTracks.AudioTrack.AppendShared` | crates/audio2face3d-gui/src/core/audio_track.rs:107-121 | Accepts exactly the contiguous continuations within the block limit; a rejection changes nothing. |
| `ClipModel.CoveredIsLongest` | crates/audio2face3d-gui/src/core.rs:320-348 | The frame-by-frame coverage counter is the length of the longest gap-free prefix. |
| `ClipModel.FramesAscend` | crates/audio2face3d-gui/src/core.rs:320-348 | Frames accepted one by one are strictly ascending in time as a whole. |
| `ClipModel.EmotionsJoin` | crates/audio2face3d-gui/src/core.rs:203-229 | A batch accepted after an ordered trace gives an ordered trace. |
| `ClipModel.EvolvesTransitive` | crates/audio2face3d-gui/src/core.rs:139-156 | Growth composes over any number of mutations: same identity, blocks as a prefix, counters never back, and an unchanged layout or curve counter means unchanged names or frames. |
| `ClipModel.ReadyWithinDuration` | crates/audio2face3d-gui/src/core.rs:349-362 | In every reachable clip the playable end lies between 0 and the audio duration. |
| `ClipModel.ReadyGrows` | crates/audio2face3d-gui/src/core.rs:352-362 | More audio, more frames and more coverage never move the playable end back, given that an accepted collection stays accepted. |
| `ClipModel.CompletedIsLoopable` | crates/audio2face3d-gui/src/core.rs:186-202 | Every clip that passed collection can be played to within the looping tolerance of its audio end. |
| `ClipModel.AudioAccepted` | crates/audio2face3d-gui/src/core.rs:287-319 | An accepted audio push keeps every clip invariant: revision sum, retained-byte accounting, budget and contiguity. |
| `ClipModel.FrameAccepted` | crates/audio2face3d-gui/src/core.rs:320-348 | An accepted frame keeps them too, and coverage keeps meaning the longest gap-free prefix. |
| `ClipModel.EmotionsAccepted` | crates/audio2face3d-gui/src/core.rs:203-229 | An accepted emotion batch keeps them too. |
| `ClipModel.ReadyMeans` | crates/audio2face3d-gui/src/core.rs:349-362 | The playable end told by the media alone: the end of the audio or the last frame before the first gap, whichever comes first, with 50 ms added once a clip without a gap is completed. |
| `ClipModel.CoversMeans` | crates/audio2face3d-gui/src/core.rs:186-202 | A collection can be completed if and only if no frame leaves a gap and the last one reaches to within 50 ms (and 1e-6 s) of the end of the audio. |
| `ClipModel.BlocksCostMeans` | crates/audio2face3d-gui/src/core.rs:313-319 | Blocks cost four bytes a sample and 56 for each block that holds any. |
| `ClipModel.LayoutCostMeans` | crates/audio2face3d-gui/src/core.rs:255-266 | A layout costs 24 bytes for each string its list has room for, and the room of each string. |
| `ClipModel.RetainedMeans` | crates/audio2face3d-gui/src/core.rs:287-348 | In every reachable clip the retained bytes are those of the names, samples, blocks, curve values, frames and emotions, at most half of the budget. |
| `Clips.Clip.constructor` | crates/audio2face3d-gui/src/core.rs:97-115 | A new clip is empty and satisfies the invariant. |
| `Clips.Clip.NextRevision` | crates/audio2face3d-gui/src/core.rs:139-156 | The pair of counters after a change: both one up, None exactly when one of them is exhausted; the revision stays the sum of its components. |
| `Clips.Clip.Ready` | crates/audio2face3d-gui/src/core.rs:352-362 | Computes the playable end. |
| `Clips.Clip.FinishCollection` | crates/audio2face3d-gui/src/core.rs:186-202 | Succeeds exactly when curves exist and cover the audio within the tolerance without a gap; otherwise the clip is unchanged. |
| `Clips.Clip.SetSession` | crates/audio2face3d-gui/src/core.rs:170-185 | Changes only the session; ended sessions reject; a rejection leaves every field as it was. |
| `Clips.Clip.SetNames` | crates/audio2face3d-gui/src/core.rs:243-276 | Accepts exactly a valid first layout within the budget; repeating the same layout changes nothing; a rejection leaves every field as it was. |
| `Clips.Clip.ValidateAudio` | crates/audio2face3d-gui/src/core.rs:295-312 | Accepts exactly chunks that start where the audio ends, are within all limits and all finite. |
| `Clips.Clip.StoreAudio` | crates/audio2face3d-gui/src/core.rs:313-319 | Appends one block, its cost and one revision. |
| `Clips.Clip.PushAudio` | crates/audio2face3d-gui/src/core.rs:287-319 | Accepted exactly under those conditions, then appended as one block; otherwise every field is unchanged. |
| `Clips.Clip.StoreFrame` | crates/audio2face3d-gui/src/core.rs:320-348 | Appends one frame and updates the coverage exactly when the frame opens no gap. |
| `Clips.Clip.PushFrame` | crates/audio2face3d-gui/src/core.rs:320-348 | Accepted exactly for finite, later, correctly sized frames within the budget; otherwise every field is unchanged. |
| `Clips.Clip.CheckEmotions` | crates/audio2face3d-gui/src/core.rs:203-229 | The batch loop accepts exactly ordered finite continuations and sums their cost. |
| `Clips.Clip.PushEmotions` | crates/audio2face3d-gui/src/core.rs:203-229 | All-or-nothing append of a batch. |
| `PlaybackModel.ClockJoin` | crates/audio2face3d-gui/src/playback.rs:274-286 | Older anchors matter only as the fallback of newer ones: the clock over a concatenation is the clock of the rest over the clock of the beginning. |
| `PlaybackModel.EnqueueAllFits` | crates/audio2face3d-gui/src/playback.rs:466-479 | A bounded queue that evicts nothing is concatenation. |
| `PlaybackModel.PeriodBounds` | crates/audio2face3d-gui/src/playback.rs:377-403 | An accepted device rate advances at most 1/16000 s a frame. |
| `PlaybackModel.RatePeriodsAreASecond` | crates/audio2face3d-gui/src/playback.rs:457-457 | `rate` periods make a second. |
| `PlaybackModel.AfterAdd` | crates/audio2face3d-gui/src/playback.rs:403-441 | The frame loop composes: a frames and then b frames are a + b frames. |
| `PlaybackModel.SilenceLasts` | crates/audio2face3d-gui/src/playback.rs:403-441 | The first silent frame makes the rest of the call silent and changes state once. |
| `PlaybackModel.OpenSegment` | crates/audio2face3d-gui/src/playback.rs:417-465 | While frames sound the open anchor ends exactly where the next frame starts, in output and in media time. |
| `PlaybackModel.ExtendedClock` | crates/audio2face3d-gui/src/playback.rs:274-286 | Lengthening the last anchor by a frame changes the clock exactly by what that frame is heard as. |
| `PlaybackModel.SegmentsAreTheClock` | crates/audio2face3d-gui/src/playback.rs:417-479 | The run-length encoded anchors of a call mean exactly the frame-by-frame audible clock, for every moment. |
| `PlaybackModel.HeardAtAdd` | crates/audio2face3d-gui/src/playback.rs:274-286 | The frame-by-frame clock does not see where one call ends and the next begins. |
| `PlaybackLaws.CallsResume` | crates/audio2face3d-gui/src/playback.rs:403-465 | Unless a call tears, the next one continues in exactly the state its last frame left. |
| `PlaybackLaws.TornMeans` | crates/audio2face3d-gui/src/playback.rs:403-441 | A call tears exactly when it runs dry before its end with a stream buffer that what is left ahead already satisfies; then the next call plays on with nothing to play. |
| `PlaybackLaws.BufferPreventsTearing` | crates/audio2face3d-gui/src/playback.rs:403-416 | More than 1e-9 s of stream buffer always prevents it. |
| `PlaybackLaws.RenderedClock` | crates/audio2face3d-gui/src/playback.rs:377-479 | What a call that evicts no anchor makes audible, frame by frame, at every moment. |
| `PlaybackLaws.ChunkInvariance` | crates/audio2face3d-gui/src/playback.rs:377-465 | For every player state, a frames then b frames always give the samples of a + b frames, and leave the same submitted position, state and underrun count if and only if the first call does not tear. |
| `PlaybackLaws.ChunkInvarianceIff` | crates/audio2face3d-gui/src/playback.rs:403-441 | With k the dry boundary: the state agrees if and only if a <= k or what is ready beyond frame k is less than the stream buffer. |
| `PlaybackLaws.ChunkClockInvariance` | crates/audio2face3d-gui/src/playback.rs:377-479 | And, torn or not, the same audible clock at every moment when the second call follows on and no anchor is evicted. |
| `PlaybackLaws.ChunkingNeedsABuffer` | crates/audio2face3d-gui/src/playback.rs:403-416 | A concrete player that fails: streaming without a buffer, sought to the end of what is ready and told to play, counts two underruns in two one-frame calls and one in a two-frame call. |
| `PlaybackLaws.AudibleWithin` | crates/audio2face3d-gui/src/playback.rs:274-286 | For any wall time the audible position stays in [0, ready_until + 1/16000), and without a loop wrap never passes what was submitted. |
| `PlaybackLaws.SoundInsideAudio` | crates/audio2face3d-gui/src/playback.rs:442-457 | Every sounding frame interpolates from an index inside the audio. |
| `PlaybackLaws.RenderKeepsBounds` | crates/audio2face3d-gui/src/playback.rs:377-465 | Rendering keeps the player invariant. |
| `PlaybackLaws.CommandKeepsBounds` | crates/audio2face3d-gui/src/playback.rs:287-336 | So does every accepted command. |
| `PlaybackLaws.UpdateKeepsBounds` | crates/audio2face3d-gui/src/playback.rs:231-254 | So does every accepted media update that does not move the playable end back. |
| `PlaybackLaws.RunStaysBounded` | crates/audio2face3d-gui/src/playback.rs:274-336 | Over every run of commands, renders, snapshots and growth the invariant and the audible bounds hold. |
| `PlaybackLaws.PlaysOut` | crates/audio2face3d-gui/src/playback.rs:403-441 | On a complete clip without looping every frame sounds until the media is exhausted. |
| `PlaybackLaws.StopsAt` | crates/audio2face3d-gui/src/playback.rs:403-441 | It stops at the first frame boundary at which the media is exhausted. |
| `PlaybackLaws.RestsOnSubmitted` | crates/audio2face3d-gui/src/playback.rs:274-286 | Past the last anchor the clock rests on the submitted position. |
| `PlaybackLaws.EndReportedIff` | crates/audio2face3d-gui/src/playback.rs:355-376 | Playing a complete clip out makes later snapshots report Ended if and only if the frame boundary it stops on is within 1e-8 s of the duration. |
| `PlaybackLaws.EndIsReported` | crates/audio2face3d-gui/src/playback.rs:355-376 | When the curves reach the end of the audio, enough frames always lead to Ended. |
| `PlaybackLaws.NeverEnds` | crates/audio2face3d-gui/src/playback.rs:355-376 | Short of that tolerance no later render or snapshot ever reports Ended. |
| `PlaybackLaws.EndCanGoUnreported` | crates/audio2face3d-gui/src/playback.rs:355-376 | A concrete clip accepted by collection that stays Playing through all later renders and snapshots. |
| `Witnesses.CollectShortTail` | crates/audio2face3d-gui/src/core.rs:186-348 | That clip is built by the collection operations. |
| `Witnesses.PlayShortTail` | crates/audio2face3d-gui/src/playback.rs:287-336 | And its player by the player operations. |
| `Witnesses.RenderTwice` | crates/audio2face3d-gui/src/playback.rs:377-465 | The player whose calls do not compose, built and rendered: one underrun against two. |
| `ClockLaws.RunsForwardIff` | crates/audio2face3d-gui/src/playback.rs:274-286 | With anchors in the order of their starts, the clock runs forward if and only if each anchor takes over where the one before has got to, and the first one from the base position. |
| `ClockLaws.ChainedClock` | crates/audio2face3d-gui/src/playback.rs:274-286 | Anchors that each continue at or beyond the end of the ones before run forward whatever the order of their starts. |
| `ClockLaws.UnwrappedRunsForward` | crates/audio2face3d-gui/src/playback.rs:274-336 | Over every run without a loop wrap since the position was last set, listening later never hears an earlier position. |
| `ClockLaws.WrapTurnsBack` | crates/audio2face3d-gui/src/playback.rs:429-432 | After a wrap it does, unless nothing had been heard before it. |
| `ClockLaws.EvictionUnheardIff` | crates/audio2face3d-gui/src/playback.rs:466-479 | Losing the oldest anchors goes unheard if and only if a later one has started or they said what the base position says. |
| `ClockLaws.BoundedQueueIsExactIff` | crates/audio2face3d-gui/src/playback.rs:377-479 | After any call the bounded queue tells the time an unbounded one would if and only if a kept anchor has started or the lost ones said what the base position says. |
| `ClockLaws.ClockCanFallBack` | crates/audio2face3d-gui/src/playback.rs:466-479 | A concrete run of 65 calls that turns the clock back. |
| `PlaybackLaws.LoopNeverSilent` | crates/audio2face3d-gui/src/playback.rs:420-441 | A looping player that can wrap sounds on every frame and never counts an underrun. |
| `PlaybackLaws.AcceptedClipsLoop` | crates/audio2face3d-gui/src/playback.rs:420-441 | Every clip accepted by collection can wrap, so looping it never falls silent. |
| `PlaybackLaws.BufferingResumesIff` | crates/audio2face3d-gui/src/playback.rs:403-416 | A Buffering player on a complete clip plays on at the next call if and only if media is left, or none is missing and no buffer is asked for. |
| `PlaybackLaws.StarvedStays` | crates/audio2face3d-gui/src/playback.rs:403-416 | Otherwise it stays Buffering through every later render and snapshot and is never reported as Ended. |
| `PlaybackLaws.WithdrawnStaysSilent` | crates/audio2face3d-gui/src/playback.rs:397-403 | Once withdrawn, through every run: Play is refused and every sample is zero. |
| `PlaybackLaws.OnlyUpdatesChangeMedia` | crates/audio2face3d-gui/src/playback.rs:287-336 | Commands, renders and snapshots never change the media or the blocks. |
| `PlaybackLaws.PauseMeans` | crates/audio2face3d-gui/src/playback.rs:316-321 | Pause succeeds always, and then the clock shows for ever the position that was heard; nothing but position and state changes. |
| `PlaybackLaws.SeekMeans` | crates/audio2face3d-gui/src/playback.rs:322-332 | Seek succeeds if and only if the time is finite and inside the playable media; then the clock rests there, and only an ended player changes state. |
| `PlaybackLaws.PlayMeans` | crates/audio2face3d-gui/src/playback.rs:290-315 | When Play is accepted, both ways; it moves nothing unless the player has ended, which starts over, and it waits exactly when the stream has less ahead than its buffer. |
| `PlaybackLaws.LoopMeans` | crates/audio2face3d-gui/src/playback.rs:333-333 | Looping is switched as told and nothing else. |
| `PlaybackLaws.ClockTimeMeans` | crates/audio2face3d-gui/src/playback.rs:355-357 | The reported time is the audible position cut off at the duration, and differs from it by less than one frame. |
| `PlaybackLaws.ObservedMeans` | crates/audio2face3d-gui/src/playback.rs:357-364 | A snapshot turns Playing into Ended exactly when a complete clip is heard to its end without looping, and changes nothing else. |
| `PlaybackLaws.UpdateKeepsTheRest` | crates/audio2face3d-gui/src/playback.rs:231-254 | As long as neither player nor update is unavailable, an accepted update changes blocks and media only: state, position, anchors, looping, streaming and underruns stay. |
| `PlaybackLaws.WithdrawalPauses` | crates/audio2face3d-gui/src/playback.rs:246-252 | Otherwise it pauses the player where it is heard, and the result stays withdrawn. |
| `PlaybackLaws.SilentUnlessPlaying` | crates/audio2face3d-gui/src/playback.rs:384-403 | Paused, ended, on too slow a device or withdrawn, a player renders silence and changes nothing but that withdrawal stops it. |
| `PlaybackLaws.BufferingWaits` | crates/audio2face3d-gui/src/playback.rs:406-416 | A Buffering player on a clip still being received plays on with the next frame exactly when a full buffer, and more than nothing, is ahead. |
| `Fidelity.InterpolateBetween` | crates/audio2face3d-gui/src/playback.rs:442-457 | At any rate every output sample lies between the two neighbouring source samples. |
| `Fidelity.InterpolatesLinearly` | crates/audio2face3d-gui/src/playback.rs:442-457 | Between samples k and k + 1, the fraction m on, the value is (1 - m) times the one plus m times the other. |
| `Fidelity.HoldsTheLast` | crates/audio2face3d-gui/src/playback.rs:446-455 | After the last sample its value holds; past the end there is silence. |
| `Fidelity.AnyRateInterpolates` | crates/audio2face3d-gui/src/playback.rs:442-457 | At any device rate frame i of a call plays the audio i / rate seconds on from what was submitted. |
| `Fidelity.AnyRateResamples` | crates/audio2face3d-gui/src/playback.rs:417-457 | So played from sample k, frame i mixes samples j = k + floor(16000 i / rate) and j + 1 by the exact fraction, and at the end holds the last. |
| `Fidelity.LoopRestarts` | crates/audio2face3d-gui/src/playback.rs:417-441 | At any rate a looping player that uses up the media before frame k plays frame k + i as the audio i / rate seconds from the start. |
| `Fidelity.LoopsIff` | crates/audio2face3d-gui/src/playback.rs:417-441 | The first frame at which the media is used up sounds if and only if the player loops a complete clip that can be played to within 1e-6 s of its end. |
| `Fidelity.SoundAndClockAgree` | crates/audio2face3d-gui/src/playback.rs:417-479 | At the moment a frame is heard the clock shows the very position whose sound the frame plays, loops included. |
| `Fidelity.HeardInTime` | crates/audio2face3d-gui/src/playback.rs:274-286 | x seconds into a call the clock is x seconds further than what was submitted before it, whatever the queue held. |
| `Fidelity.PauseAndPlayResume` | crates/audio2face3d-gui/src/playback.rs:287-336 | After Pause and Play the next frame sounds at the position that was heard when Pause came. |
| `Fidelity.NativeRateIsExact` | crates/audio2face3d-gui/src/playback.rs:417-457 | At 16 kHz from sample k, output frame i is exactly sample k + i, up to the playable end. |
| `Fidelity.LoopRepeatsTheAudio` | crates/audio2face3d-gui/src/playback.rs:420-457 | A fully covered clip looped at 16 kHz repeats its samples for ever: frame i is sample (k + i) mod n, with nothing lost or doubled at the seam. |
| `Fidelity.BlocksAreInaudible` | crates/audio2face3d-gui/src/playback.rs:442-457 | Two players whose block lists flatten to the same audio render the same samples at every rate. |
| `Players.Player.Install` | crates/audio2face3d-gui/src/playback.rs:223-230 | The player becomes a fresh paused one on its own handle to the given blocks, keeping nothing of the old one. |
| `Players.Player.SetStreaming` | crates/audio2face3d-gui/src/playback.rs:181-189 | Accepts exactly buffers within the media limit; a rejection changes nothing. |
| `Players.Player.AudiblePosition` | crates/audio2face3d-gui/src/playback.rs:274-286 | The backward search over the anchors computes the clock. |
| `Players.Player.Command` | crates/audio2face3d-gui/src/playback.rs:287-336 | Each command changes the player exactly as specified; a refused command changes nothing. |
| `Players.Player.ClockSnapshot` | crates/audio2face3d-gui/src/playback.rs:355-376 | Returns the clock capped at the duration; only a completed, non-looping Playing player at its end becomes Ended. |
| `Players.Player.PushAnchor` | crates/audio2face3d-gui/src/playback.rs:466-479 | Appends a non-empty anchor and evicts the oldest beyond 64. |
| `Players.Player.RenderAudio` | crates/audio2face3d-gui/src/playback.rs:377-465 | Writes every output index once, in order, with the sample of the frame-by-frame model on the flat audio; the new state is that model's. What the samples are at any rate: `Fidelity.AnyRateResamples`. |
| `Players.Player.RenderFrames` | crates/audio2face3d-gui/src/playback.rs:403-465 | The sounding part of the loop: state, output and anchors agree with the frame-by-frame model at each frame. |
| `Players.Player.Exhaust` | crates/audio2face3d-gui/src/playback.rs:417-441 | At the end of media: close the open anchor, then restart, run dry or stop as the model does. |
| `Players.Player.Mix` | crates/audio2face3d-gui/src/playback.rs:442-457 | One interpolated sample of the flat audio whatever the block cursor holds; the two neighbours count as `Fidelity.InterpolatesLinearly` says. |
| `Players.Player.ApplyUpdate` | crates/audio2face3d-gui/src/playback.rs:231-254 | Accepted exactly for the next blocks of the same clip, and then only blocks and media change unless the result is withdrawn (`PlaybackLaws.UpdateKeepsTheRest`); a rejection changes nothing. |
| `Players.Player.Adopt` | crates/audio2face3d-gui/src/playback.rs:246-254 | New metadata; unavailability is never taken back and pauses the player, and otherwise nothing but the metadata changes. |
| `Players.AcceptedIff` | crates/audio2face3d-gui/src/playback.rs:231-246 | An update is taken if and only if it belongs to the clip being played, is no older, and extends its audio contiguously to the announced length within the block limit. |
| `Sessions.ApplyOutput` | crates/audio2face3d-gui/src/inference.rs:254-299 | Each output event is accepted exactly when its format and layout match and its push would be, and then changes the clip exactly as the push does; a refused one leaves it, but an uncovered completion fails a receiving clip. |
| `Sessions.ReplicaPlaysAPrefix` | crates/audio2face3d-gui/src/controller.rs:171-187 | The player's flat audio is a prefix of the controller clip's flat audio. |
| `Sessions.PlayerUseKeepsReplica` | crates/audio2face3d-gui/src/controller.rs:171-187 | Nothing the audio device does with the shared player breaks the agreement. |
| `Sessions.CollectingKeepsReplica` | crates/audio2face3d-gui/src/controller.rs:97-112 | Nor does anything the clip collects before it is published. |
| `Sessions.UpdateIsAccepted` | crates/audio2face3d-gui/src/playback.rs:231-254 | The update a coherent session prepares passes every check of its player. |
| `Sessions.CollectedMeans` | crates/audio2face3d-gui/src/inference.rs:254-299 | An accepted event keeps every clip invariant and only lets the clip grow. |
| `Sessions.DecodeInverts` | crates/audio2face3d-gui/src/inference.rs:273-278 | Sample i of a chunk is PCM value i over 2^15, and the WAV quantiser turns it back into that value. |
| `Sessions.CollectedContent` | crates/audio2face3d-gui/src/inference.rs:254-299 | What an accepted event adds: a chunk exactly its samples at the end of the flat audio, a frame its time and values, a trace its frames, stream info the names, completion the state; all else stays. |
| `Sessions.PublishedMeans` | crates/audio2face3d-gui/src/controller.rs:171-187 | After a publication the player has all of the clip's audio and its metadata; a withdrawn result is paused. |
| `Sessions.PublishedMetadata` | crates/audio2face3d-gui/src/playback.rs:75-123 | The metadata handed over, field by field; its revision is the next one that is newer than the player's and no older than the clip's. |
| `Sessions.PublishingPlaysOn` | crates/audio2face3d-gui/src/controller.rs:171-187 | Publishing an available result changes the player's blocks and media only: what is playing plays on. |
| `Sessions.PublishingWithdraws` | crates/audio2face3d-gui/src/controller.rs:171-187 | Publishing any other pauses the player where it is heard. |
| `Sessions.HistoriesPlayOn` | crates/audio2face3d-gui/src/controller.rs:171-187 | The same for every publication in every history. |
| `Sessions.SuccessPlaysOn` | crates/audio2face3d-gui/src/controller.rs:157-169 | The job's success on a completed clip makes it ready and lets a player that streams it play on. |
| `Sessions.EventMeans` | crates/audio2face3d-gui/src/controller.rs:97-112 | An event is ignored by an ended session, taken without touching the player, or fails the session and silences it. |
| `Sessions.EndingMeans` | crates/audio2face3d-gui/src/controller.rs:128-152 | Failing or cancelling gives a session that very end, and its clip too unless that had ended; what was collected stays. |
| `Sessions.InstalledMeans` | crates/audio2face3d-gui/src/controller.rs:68-82 | A session starts over with a player at rest at the start of exactly the clip's audio; Play is accepted exactly for a completed clip that holds something and is installed as ready. |
| `Sessions.ReplaceMeans` | crates/audio2face3d-gui/src/controller.rs:58-67 | A replaced clip is ready exactly if it is completed, and otherwise as its session says, message included. |
| `Sessions.BeginMeans` | crates/audio2face3d-gui/src/controller.rs:53-57 | A new session is Initializing with an empty clip that can receive, and Play is refused. |
| `Sessions.ReplaceOutputMeans` | crates/audio2face3d-gui/src/controller.rs:84-95 | Collected output replaces the clip unless the session has ended: Finalizing exactly if completed, and Play has to wait for the job. |
| `Sessions.WithdrawnMeans` | crates/audio2face3d-gui/src/controller.rs:128-152 | A withdrawal that goes through leaves an ended session with a paused, withdrawn player. |
| `Sessions.StepKeepsSound` | crates/audio2face3d-gui/src/controller.rs:53-187 | Every controller operation and every use of the player keeps the session invariant, the player bounds included. |
| `Sessions.EveryRunIsAHistory` | crates/audio2face3d-gui/src/controller.rs:53-187 | Any legal operations have a history, so the laws of histories hold of every run. |
| `Sessions.RunsStaySound` | crates/audio2face3d-gui/src/controller.rs:53-187 | At every point of every run the player's audio is a prefix of the clip's, bookkeeping agrees, Ready and Finalizing mean a completed clip, and the audible position is in bounds. |
| `Sessions.EndedIsAbsorbing` | crates/audio2face3d-gui/src/controller.rs:128-152 | In every history a Failed or Cancelled session keeps its state and clip until begin or replace. |
| `Sessions.EndedIsSilent` | crates/audio2face3d-gui/src/controller.rs:128-152 | Once a failure or cancellation has gone through, until a restart Play is refused and every sample is zero. |
| `Sessions.JobMeans` | crates/audio2face3d-gui/src/controller.rs:157-169 | A job's end that goes through leaves a playable completed clip or a silenced session, with all audio published. |
| `Sessions.ReadyIsEarned` | crates/audio2face3d-gui/src/controller.rs:157-169 | Ready is entered only by replacing with a completed clip or by a successful job on a completed clip. |
| `Sessions.JobSettlesTheSession` | crates/audio2face3d-gui/src/controller.rs:157-169 | After `job_finished` the session is Ready, Failed or Cancelled, short of counter exhaustion; Ready exactly if it was, or on success with a completed clip. |
| `Sessions.SessionController.constructor` | crates/audio2face3d-gui/src/controller.rs:30-40 | Starts Idle with an empty clip and a coherent player. |
| `Sessions.SessionController.Prepare` | crates/audio2face3d-gui/src/playback.rs:223-230 | The player metadata of a clip with the job's verdict. |
| `Sessions.SessionController.Install` | crates/audio2face3d-gui/src/controller.rs:68-82 | The player becomes a fresh replica of exactly the new clip; bookkeeping agrees. |
| `Sessions.SessionController.Begin` | crates/audio2face3d-gui/src/controller.rs:53-57 | Starts over Initializing with a new Running clip. |
| `Sessions.SessionController.Replace` | crates/audio2face3d-gui/src/controller.rs:58-67 | Installs the clip with the state its session implies. |
| `Sessions.SessionController.ReplaceOutput` | crates/audio2face3d-gui/src/controller.rs:84-95 | Refused exactly when unavailable; otherwise Finalizing or Receiving and never job-ready. |
| `Sessions.SessionController.PrepareUpdate` | crates/audio2face3d-gui/src/playback.rs:110-123 | The metadata of the next update. |
| `Sessions.SessionController.Publish` | crates/audio2face3d-gui/src/controller.rs:171-187 | Succeeds exactly below counter exhaustion; then player and clip have the same flat audio, and the player of an available result plays on (`Sessions.PublishingPlaysOn`); a failure changes nothing. |
| `Sessions.SessionController.Withdraw` | crates/audio2face3d-gui/src/controller.rs:128-152 | Marks the clip and the state, then publishes the withdrawal; the whole new session is stated. |
| `Sessions.SessionController.Mark` | crates/audio2face3d-gui/src/controller.rs:128-152 | Marks the session as ended unless the clip's revision counter is exhausted; an ended session is left as it is. |
| `Sessions.SessionController.Fail` | crates/audio2face3d-gui/src/controller.rs:128-140 | Succeeds exactly short of counter exhaustion; then the session is Failed, the player paused and withdrawn with all audio published. |
| `Sessions.SessionController.Cancel` | crates/audio2face3d-gui/src/controller.rs:141-152 | The same for Cancelled. |
| `Sessions.SessionController.ApplyEvent` | crates/audio2face3d-gui/src/controller.rs:97-112 | Accepted exactly when the session is available and the clip takes the event; then the clip has it and the state is Finalizing exactly for a completed clip; a refused event fails and withdraws the session. |
| `Sessions.SessionController.ApplyEventFor` | crates/audio2face3d-gui/src/controller.rs:113-127 | As the event itself for the session's own clip; for another clip it changes nothing. |
| `Sessions.SessionController.JobFinished` | crates/audio2face3d-gui/src/controller.rs:157-170 | Succeeds exactly short of counter exhaustion and leaves exactly the session the job's outcome calls for. |
| `Sessions.SessionController.ClockFor` | crates/audio2face3d-gui/src/controller.rs:188-194 | The clock always belongs to the controller's clip and lies within its duration. |
| `Timelines.PeakIsMinMax` | crates/audio2face3d-gui/src/core.rs:396-427 | A bucket's range is exactly the minimum and maximum of the window frames in it. |
| `Timelines.CountedOnce` | crates/audio2face3d-gui/src/core.rs:396-427 | Every window frame is counted in one bucket and no other. |
| `Timelines.EnvelopeIsMinMax` | crates/audio2face3d-gui/src/core.rs:396-427 | Every returned range is attained and bounds all its bucket's frames; None exactly for empty buckets. |
| `Timelines.BucketIsColumn` | crates/audio2face3d-gui/src/core.rs:412-418 | A time of the window falls into bucket b if and only if it lies in the b-th of n equal parts of the window, the last one closed. |
| `Timelines.EnvelopeInTime` | crates/audio2face3d-gui/src/core.rs:396-427 | In terms of time alone: entry b is None exactly if no frame time lies in that part, and otherwise the attained minimum and maximum of the frames that do; n is the bucket count up to 4096. |
| `Timelines.EnvelopeRange` | crates/audio2face3d-gui/src/core.rs:396-427 | The binary-searched loop computes that envelope, for every window, channel and bucket count; what it shows is `Timelines.EnvelopeInTime`. |
| `Timelines.EvolvingStaysFaithful` | crates/audio2face3d-gui/src/core.rs:139-156 | Same clip id, layout and curve revisions mean same names and frames, so no clip mutation makes a cached entry wrong. |
| `Timelines.PrepareIsFresh` | crates/audio2face3d-gui/src/ui.rs:358-393 | After prepare every cached entry equals a fresh envelope and every selected channel is present. |
| `Timelines.PrepareReuses` | crates/audio2face3d-gui/src/ui.rs:364-390 | With clip, revisions, width and range unchanged every entry is kept untouched; otherwise all are dropped; only selected channels are added. |
| `Timelines.WorldStep` | crates/audio2face3d-gui/src/ui.rs:358-393 | Mutating, replacing and preparing keep every cache faithful. |
| `Timelines.CacheIsCorrect` | crates/audio2face3d-gui/src/ui.rs:358-393 | Over every sequence of clip mutations, replacements and prepares, each cached entry equals a fresh envelope. |
| `Timelines.Timeline.Prepare` | crates/audio2face3d-gui/src/ui.rs:358-393 | The cache update computes the specified cache, reusing entries exactly when clip and revisions match. |
| `Timelines.Timeline.RevealPosition` | crates/audio2face3d-gui/src/ui.rs:241-250 | Leaves the view alone while the playhead is inside; otherwise the playhead comes to the middle, or as near to it as the ends allow. |
| `Devices.StepKeeps` | crates/audio2face3d-gui/src/audio.rs:146-305 | Every atomic step of command thread, worker, error callbacks and render callbacks keeps the protocol invariant. |
| `Devices.InvariantAlways` | crates/audio2face3d-gui/src/audio.rs:146-305 | The invariant holds after every interleaving. |
| `Devices.CommandStepKeeps` | crates/audio2face3d-gui/src/audio.rs:146-205 | The command thread's steps keep it. |
| `Devices.WorkerStepKeeps` | crates/audio2face3d-gui/src/audio.rs:220-305 | The worker's steps keep it. |
| `Devices.ReporterStepKeeps` | crates/audio2face3d-gui/src/audio.rs:47-65 | Fault publications keep it. |
| `Devices.RendererStepKeeps` | crates/audio2face3d-gui/src/audio.rs:363-391 | Render callbacks keep it. |
| `Devices.NoLostWakeUp` | crates/audio2face3d-gui/src/audio.rs:244-305 | In every interleaving, if the worker sleeps without a token while a request, shutdown or READY fault of its stream is pending, its producer has still to unpark it. |
| `Devices.RequestIsCurrent` | crates/audio2face3d-gui/src/audio.rs:146-176 | Only between bumping the generation and writing the request does the request lag behind. |
| `Devices.QuiescentIsUpToDate` | crates/audio2face3d-gui/src/audio.rs:244-305 | When commands and callbacks have returned, a sleeping worker has acted on the newest generation and no shutdown or fault is pending. |
| `Devices.JoinNeverHangs` | crates/audio2face3d-gui/src/audio.rs:196-205 | `drop` never joins a worker that sleeps without a token. |
| `Devices.VisibleFailureIsCurrent` | crates/audio2face3d-gui/src/audio.rs:220-243 | Whenever the player lock is free a visible failure is of the current generation and the player is neither Playing nor Buffering. |
| `Devices.ObsoleteEpochsHaveNoEffect` | crates/audio2face3d-gui/src/audio.rs:363-391 | No obsolete epoch ever pauses, advances or sounds the player, drops a newer stream or reports its error. |
| `Devices.FaultsAreCounted` | crates/audio2face3d-gui/src/audio.rs:47-89 | Each epoch hands its fault out at most once and counts every report after the first. |
| `Devices.FirstFaultStays` | crates/audio2face3d-gui/src/audio.rs:47-65 | A stored fault is never replaced. |
| `DeviceProgress.CommandTakesEffect` | crates/audio2face3d-gui/src/audio.rs:146-176 | An accepted command, step by step: the generation goes up, the old failure is forgotten, the worker is asked for a stream exactly if the player plays, and is woken. |
| `DeviceProgress.RefusalChangesLittle` | crates/audio2face3d-gui/src/audio.rs:146-160 | A refused one leaves generation, request and failure alone. |
| `DeviceProgress.DropAsksForShutdown` | crates/audio2face3d-gui/src/audio.rs:196-205 | `drop` pauses, asks for the shutdown and leaves a token before it joins. |
| `DeviceProgress.ErrorIsTakenOnce` | crates/audio2face3d-gui/src/audio.rs:186-194 | Taking the error hands out the visible failure and clears it. |
| `DeviceProgress.RunRequestOpensAStream` | crates/audio2face3d-gui/src/audio.rs:254-305 | Asked to run, the worker alone replaces its stream by a healthy one of the asking generation and sleeps. |
| `DeviceProgress.StopRequestDropsTheStream` | crates/audio2face3d-gui/src/audio.rs:254-305 | Asked to stop, it drops its stream and sleeps. |
| `DeviceProgress.OvertakenStreamIsNotUsed` | crates/audio2face3d-gui/src/audio.rs:269-277 | A stream overtaken by a newer command while opening is not used. |
| `DeviceProgress.ShutdownRequestEnds` | crates/audio2face3d-gui/src/audio.rs:255-259 | Asked to shut down, it drops its stream and exits for good. |
| `DeviceProgress.RefusedStreamFails` | crates/audio2face3d-gui/src/audio.rs:278-281 | A stream that cannot be opened is handled as a failure of its generation. |
| `DeviceProgress.FailureIsHandled` | crates/audio2face3d-gui/src/audio.rs:220-243 | A failure of the generation in force pauses the player, becomes visible and takes the stream down. |
| `DeviceProgress.OldFailureIsIgnored` | crates/audio2face3d-gui/src/audio.rs:220-243 | One of an older generation changes nothing. |
| `DeviceProgress.WorkerEffectsAreLogged` | crates/audio2face3d-gui/src/audio.rs:220-243 | Nothing the worker does to the player or, on a failure, to a stream escapes the history that the safety laws speak of. |
| `DeviceProgress.FaultIsTaken` | crates/audio2face3d-gui/src/audio.rs:284-294 | A published fault of the active stream is taken, once, and handled as a failure of its generation. |
| `DeviceProgress.RefusedStreamsFaultIsTaken` | crates/audio2face3d-gui/src/audio.rs:278-281 | A fault published while its stream was being opened is taken with the failure to open it. |
| `DeviceProgress.PlayStartsAStream` | crates/audio2face3d-gui/src/audio.rs:146-305 | Play, from a player at rest to the worker asleep again: the player plays and the stream is a healthy one of the new generation. |
| `DeviceProgress.FirstReportIsStored` | crates/audio2face3d-gui/src/audio.rs:50-65 | The first report of a stream is stored as its fault and published. |
| `DeviceProgress.LaterReportsAreCounted` | crates/audio2face3d-gui/src/audio.rs:60-65 | Every later one is counted; the stored fault stays. |
| `DeviceProgress.HealthyStreamSounds` | crates/audio2face3d-gui/src/audio.rs:363-391 | A render callback of a healthy stream of the generation in force sounds exactly once if the player is free, and gives the lock back. |
| `DeviceProgress.OldStreamIsSilent` | crates/audio2face3d-gui/src/audio.rs:363-391 | One of an old generation or of a faulted stream is silent. |
| `DeviceProgress.BusyPlayerIsSilent` | crates/audio2face3d-gui/src/audio.rs:363-391 | One that finds the player locked is silent and counted as contention. |
| `DeviceProgress.LateFaultIsSilent` | crates/audio2face3d-gui/src/audio.rs:378-384 | Even with the lock in hand a callback whose stream has failed or been superseded meanwhile makes no sound. |
| `Completions.KeptAlways` | crates/audio2face3d/src/audio2x.rs:444-514 | After every run: pending is registrations minus accepted completions, every registered waker is either waiting or recorded as woken, once, and nobody waits for a condition that holds. |
| `Completions.WokenByTheStepThatMakesReady` | crates/audio2face3d/src/audio2x.rs:626-641 | The step that makes everything ready wakes every waiter once; no other step wakes any. |
| `Completions.TrackWokenByTheStepThatMakesReady` | crates/audio2face3d/src/audio2x.rs:626-648 | The same for each track. |
| `Completions.ErrorIffSomeTaskFailed` | crates/audio2face3d/src/audio2x.rs:654-664 | The whole result is an error if and only if some registered task failed, and then the first error of the lowest failing track. |
| `Completions.TracksThatFail` | crates/audio2face3d/src/audio2x.rs:474-514 | In a disciplined run a track holds an error if and only if one of its completions failed. |
| `Completions.ReportingTrackIsOrderFree` | crates/audio2face3d/src/audio2x.rs:654-664 | The reporting track does not depend on the interleaving. |
| `Completions.StableStepIff` | crates/audio2face3d/src/audio2x.rs:444-535 | One operation leaves a ready result as it is if and only if it is no further registration, and ends the schedule again only with the same report or behind a failure. |
| `Completions.ReadyResultIsStable` | crates/audio2face3d/src/audio2x.rs:444-535 | Through a whole run a ready result never changes if and only if every operation in it is harmless in that sense. |
| `Completions.LateRegistrationReopens` | crates/audio2face3d/src/audio2x.rs:444-459 | A task registered after the schedule ended makes a ready execution pending again. |
| `Completions.SecondScheduleChangesResult` | crates/audio2face3d/src/audio2x.rs:460-473 | Ending the schedule twice with two reports replaces a successful result: a concrete run. |
| `Completions.TracksFollowTheRun` | crates/audio2face3d/src/audio2x.rs:444-514 | Told by the operations alone, in every disciplined run a track's counter is what was registered less what was completed, and its error the failure reported for it first. |
| `Completions.ReadyIff` | crates/audio2face3d/src/audio2x.rs:643-648 | An execution is ready if and only if its schedule has ended and every registered task of every track has been completed. |
| `Completions.PollersWait` | crates/audio2face3d/src/audio2x.rs:516-535 | Whoever polls in vain waits in the list through any operations until the one that makes everything ready. |
| `Completions.TrackPollersWait` | crates/audio2face3d/src/audio2x.rs:595-618 | The same for whoever polls one track. |
| `Completions.DetachedIff` | crates/audio2face3d/src/audio2x.rs:537-570 | The result counts as observed once a poll of the whole execution was ready, and the execution as detached if and only if it was dropped before that. |
| `Completions.CompletionHandsOut` | crates/audio2face3d/src/audio2x.rs:474-514 | A completion hands out the waiters of its own track if it makes it ready, and the woken history records exactly those. |
| `Completions.ExecutionCompletion.constructor` | crates/audio2face3d/src/audio2x.rs:428-443 | Starts with nothing registered. |
| `Completions.ExecutionCompletion.AddOne` | crates/audio2face3d/src/audio2x.rs:444-459 | Counts one task; an unknown track is an error and changes nothing. |
| `Completions.ExecutionCompletion.ReadyWakers` | crates/audio2face3d/src/audio2x.rs:626-641 | Takes exactly the wakers whose condition holds. |
| `Completions.ExecutionCompletion.Finish` | crates/audio2face3d/src/audio2x.rs:460-473 | Stores the report and returns exactly the wakers it makes ready, per track and overall; the woken histories grow by exactly those. |
| `Completions.ExecutionCompletion.CompleteOne` | crates/audio2face3d/src/audio2x.rs:474-514 | An unregistered or unknown completion changes nothing and returns nobody; else the first error is kept and exactly the newly ready waiters are returned and recorded as woken. |
| `Completions.ExecutionCompletion.PollEverything` | crates/audio2face3d/src/audio2x.rs:516-535 | Ready exactly when all is ready, else the waker is registered. |
| `Completions.ExecutionCompletion.PollOne` | crates/audio2face3d/src/audio2x.rs:595-618 | The same for one track. |
| `Completions.ExecutionCompletion.Drop` | crates/audio2face3d/src/audio2x.rs:398-410 | Detaching changes no result and forgets no waiting track. |
| `Interactive.OutcomeMeans` | crates/audio2face3d/src/audio2face.rs:658-828 | An ordered pass completes if and only if the callback agrees to every frame 0..total-1, and otherwise ends with the first frame it declines; a single frame completes if and only if the callback agrees to it. |
| `Interactive.FramesInOrder` | crates/audio2face3d/src/audio2face.rs:658-828 | The i-th callback, or job, of an ordered pass is for frame i, and of a single pass for its frame. |
| `Interactive.AgreedMeans` | crates/audio2face3d/src/audio2face.rs:658-828 | The running condition of a pass is that the callback agreed to each frame so far. |
| `Interactive.HostInOrder` | crates/audio2face3d/src/audio2face.rs:658-828 | In every state of a host pass callbacks and jobs were for frames 0, 1, 2 and so on, all but possibly the last callback agreed, and a single pass has only its frame. |
| `Interactive.DeviceInOrder` | crates/audio2face3d/src/audio2face.rs:1070-1170 | The same for a device pass. |
| `Interactive.HostFuture.constructor` | crates/audio2face3d/src/audio2face.rs:641-657 | A new pass has no job and no callback. |
| `Interactive.HostPollKeeps` | crates/audio2face3d/src/audio2face.rs:658-826 | Every poll keeps callbacks and jobs in frame order, makes at most one callback and starts at most one job; at most one job is outstanding and emitted equals callbacks. |
| `Interactive.HostInterrupted` | crates/audio2face3d/src/audio2face.rs:673-687 | An interrupt seen on entry ends the pass without callback or job; one seen after the callback ends it with that callback. |
| `Interactive.HostStatus` | crates/audio2face3d/src/audio2face.rs:729-757 | A pass without error is Interrupted if and only if an interrupt was seen on entry, or its callback declined or was followed by one before the status was decided; Complete means every frame agreed. |
| `Interactive.HostErrors` | crates/audio2face3d/src/audio2face.rs:689-727 | Which error ends a host pass: each kind exactly for its cause, and no callback with it unless only the next job cannot be enqueued. |
| `Interactive.HostUndisturbed` | crates/audio2face3d/src/audio2face.rs:658-826 | Undisturbed, the report is the outcome of the callbacks alone. |
| `Interactive.HostFuture.Poll` | crates/audio2face3d/src/audio2face.rs:658-826 | Leaves exactly the state and result the laws above are about, so frame i is the i-th called back; an interrupt ends the pass. |
| `Interactive.HostFuture.Advance` | crates/audio2face3d/src/audio2face.rs:689-825 | The part of a poll that finds no job running. |
| `Interactive.HostFuture.Collect` | crates/audio2face3d/src/audio2face.rs:689-758 | A finished job's result leads to exactly one callback, for the next frame in order, or to an error without one; an interrupt after it ends the pass. |
| `Interactive.HostFuture.Start` | crates/audio2face3d/src/audio2face.rs:760-825 | Ends an ordered pass exactly at its total, else starts the job of the next frame. |
| `Interactive.DeviceFuture.constructor` | crates/audio2face3d/src/audio2face.rs:1054-1069 | A new device pass. |
| `Interactive.DevicePollKeeps` | crates/audio2face3d/src/audio2face.rs:1070-1170 | The device pass makes at most one callback a poll, in frame order. |
| `Interactive.DeviceInterrupted` | crates/audio2face3d/src/audio2face.rs:1086-1098 | An interrupt ends the device pass as it does the host pass. |
| `Interactive.DeviceStatus` | crates/audio2face3d/src/audio2face.rs:1135-1165 | Its ending has the same meaning, in both directions. |
| `Interactive.DeviceErrors` | crates/audio2face3d/src/audio2face.rs:1104-1134 | The device pass fails if and only if the layer cannot begin or fails on the frame that is due. |
| `Interactive.DeviceUndisturbed` | crates/audio2face3d/src/audio2face.rs:1070-1170 | Undisturbed, its report is the outcome of the callbacks alone. |
| `Interactive.DeviceFuture.Poll` | crates/audio2face3d/src/audio2face.rs:1070-1170 | Leaves exactly the state and result those laws are about, so frame i is the i-th called back; an interrupt ends the pass. |
| `Interactive.DeviceFuture.Compute` | crates/audio2face3d/src/audio2face.rs:1104-1165 | The frame of a poll: its callback, and the end of the pass if it is one. |
| `Interactive.RunHost` | crates/audio2face3d/src/audio2face.rs:658-828 | Whatever each job's delay, an undisturbed host pass calls back frames 0, 1, 2 and so on up to the first the callback declines, and reports so many, Complete exactly if none was declined. |
| `Interactive.RunDevice` | crates/audio2face3d/src/audio2face.rs:1070-1170 | So does the device pass. |
| `Interactive.HostMatchesDevice` | crates/audio2face3d/src/audio2face.rs:1070-1170 | Host and device give the same report and the same callbacks for the same answers. |
| `Wav.ScaledIsProduct` | crates/audio2face3d-gui/src/wav.rs:49-90 | The accumulated position is the product frame * rate. |
| `Wav.PositionInside` | crates/audio2face3d-gui/src/wav.rs:49-90 | Every output frame's centre lies inside the source. |
| `Wav.WindowsAdvance` | crates/audio2face3d-gui/src/wav.rs:49-90 | Windows only move forward, so the ring never needs a dropped frame again. |
| `Wav.BytesRoundTrip` | crates/audio2face3d-gui/src/wav.rs:90-100 | The two little-endian bytes read back as the same sample for every 16-bit value. |
| `Wav.EncodesLittleEndian` | crates/audio2face3d-gui/src/wav.rs:91-91 | The low byte comes first, and the two bytes are the sample modulo 2^16. |
| `Wav.QuantizeInverts` | crates/audio2face3d-gui/src/wav.rs:88-91 | Every PCM16 value survives the trip to a real sample and back. |
| `Wav.QuantizeIsMonotone` | crates/audio2face3d-gui/src/wav.rs:88-91 | Clamping and rounding keep the order of samples. |
| `Wav.QuantizeIsNearest` | crates/audio2face3d-gui/src/wav.rs:88-91 | The nearest PCM16 value is chosen, halves away from zero, and values beyond the range saturate. |
| `Wav.MonoMeans` | crates/audio2face3d-gui/src/wav.rs:36-48 | A mono frame is its sample, a stereo frame the mean of its two; it is there if and only if the file holds all of its samples and they decode. |
| `Wav.OutputIsAsLong` | crates/audio2face3d-gui/src/wav.rs:49-49 | The output has exactly as many frames as whole 16 kHz periods fit into the source. |
| `Wav.WindowIsNear` | crates/audio2face3d-gui/src/wav.rs:59-61 | The window holds exactly the source frames less than 64 before the position or at most 64 after it. |
| `Wav.WeightIsOfDistance` | crates/audio2face3d-gui/src/wav.rs:77-84 | A source frame counts by its exact distance from the position, fraction included. |
| `Wav.CutoffKeepsTheBand` | crates/audio2face3d-gui/src/wav.rs:54-54 | The low pass lets 94 percent of the narrower of the two bands through. |
| `Wav.NativeRateIsCopied` | crates/audio2face3d-gui/src/wav.rs:56-57 | At 16 kHz a PCM16 mono file is copied value by value. |
| `Wav.ImpulseSum` | crates/audio2face3d-gui/src/wav.rs:75-86 | One frame of level 1 among silence is summed with its own weight inside the window, and else not at all. |
| `Wav.SumsAdd` | crates/audio2face3d-gui/src/wav.rs:75-86 | Sums of signals add. |
| `Wav.SumsScale` | crates/audio2face3d-gui/src/wav.rs:75-86 | And they scale with the level. |
| `Wav.NormIsOfOnes` | crates/audio2face3d-gui/src/wav.rs:75-86 | The norm is the sum of a signal of constant level 1. |
| `Wav.QuotientMeans` | crates/audio2face3d-gui/src/wav.rs:87-91 | The value is the sum over the norm; over a vanishing norm it saturates on its own side. |
| `Wav.ImpulseResponse` | crates/audio2face3d-gui/src/wav.rs:49-91 | So an impulse comes out in every output frame whose window reaches it, shaped by the coefficient of its distance and normalised. |
| `Wav.ConstantStaysConstant` | crates/audio2face3d-gui/src/wav.rs:75-87 | The window is normalised: a constant source keeps its level wherever the weights do not cancel, at the edges too. |
| `Wav.Reader.Mono` | crates/audio2face3d-gui/src/wav.rs:30-48 | Downmix of the next frame of the file, None exactly where the file cannot supply it. |
| `Wav.Advance` | crates/audio2face3d-gui/src/wav.rs:55-75 | Afterwards the ring holds exactly source frames first..last, base = first and read = last + 1; it fails exactly if a frame does not decode. |
| `Wav.Convolve` | crates/audio2face3d-gui/src/wav.rs:70-88 | The sum over the ring is the sum over the whole source restricted to the window; every access is inside the ring. |
| `Wav.Drain` | crates/audio2face3d-gui/src/wav.rs:94-100 | Consumes exactly the rest of the source. |
| `Wav.Convert` | crates/audio2face3d-gui/src/wav.rs:49-100 | For any rate: succeeds exactly when all frames decode, has consumed exactly those, keeps the ring within 128, and yields the direct form sample by sample. |
| `Wav.Load` | crates/audio2face3d-gui/src/wav.rs:4-102 | Accepts exactly supported headers with decodable data; the output is the direct form. |
| `Responses.ResponseStream.PollNext` | crates/audio2face3d-server/src/session.rs:75-119 | Each poll changes stream and channel exactly as the delivery rule says; it ends exactly on an error or an end. |
| `Responses.FinishRequest` | crates/audio2face3d-server/src/cleanup.rs:6-25 | Success is sent only if streaming and close succeeded; a streaming error takes precedence; the stage and the flag tell which failed. |
| `Responses.KeptAlways` | crates/audio2face3d-server/src/session.rs:152-234 | Over every schedule of worker steps, crashes, deadlines, drops and polls the delivery invariant holds. |
| `Responses.DeliveryIsAPrefix` | crates/audio2face3d-server/src/session.rs:75-119 | What was yielded is an in-order prefix of what was sent, with at most one error. |
| `Responses.NothingAfterTheEnd` | crates/audio2face3d-server/src/session.rs:75-119 | After an error or an end only None follows. |
| `Responses.CleanEndIsSuccess` | crates/audio2face3d-server/src/session.rs:75-119 | A clean end means the worker succeeded and everything sent was delivered. |
| `Responses.SuccessStatusIsEarned` | crates/audio2face3d-server/src/session.rs:208-234 | The success status is yielded only if streaming and closing succeeded, and as the last message. |
| `Responses.PollMeans` | crates/audio2face3d-server/src/session.rs:75-119 | One poll by what it meets: an end is final, the deadline cancels and fails, a worker's failure precedes queued messages, then messages in order, then waiting exactly while more may come. |
| `Responses.DrainsToTheEnd` | crates/audio2face3d-server/src/session.rs:104-118 | Once the worker has succeeded and gone, polling yields everything queued, in order, and then the end. |
| `Responses.AnyExchangeCanSucceed` | crates/audio2face3d-server/src/session.rs:152-234 | For any data frames and any channel there is a schedule in which the client receives header, exactly these frames, event and success status, then a clean end, and the slot is free. |
| `Responses.FailureIsFinal` | crates/audio2face3d-server/src/session.rs:152-234 | Any step of the worker that does not work, from starting to closing the backend, rules out a clean end, whatever comes after. |
| `Responses.CancelledSendsNothing` | crates/audio2face3d-server/src/session.rs:136-150 | Once cancelled, by deadline, drop or shutdown, nothing more is sent. |
| `Responses.EndingCancels` | crates/audio2face3d-server/src/session.rs:60-92 | Deadline, drop and shutdown do cancel. |
| `Responses.SlotHeldByWorker` | crates/audio2face3d-server/src/service.rs:135-176 | The execution slot is free only after the worker ended and reported. |
| `Transforms.PositionMoves` | crates/audio2face3d-gui/src/obj2morph/transform.rs:59-66 | Moving a point by d moves its image by delta(d). |
| `Transforms.DeltaAdds` | crates/audio2face3d-gui/src/obj2morph/transform.rs:64-66 | delta is additive. |
| `Transforms.DeltaScales` | crates/audio2face3d-gui/src/obj2morph/transform.rs:64-66 | delta is homogeneous. |
| `Transforms.BasisIsRightHanded` | crates/audio2face3d-gui/src/obj2morph/transform.rs:27-33 | For every accepted pair of axes the basis is a right-handed triple of source axes: nothing is mirrored. |
| `Transforms.DeltaIsSimilar` | crates/audio2face3d-gui/src/obj2morph/transform.rs:64-66 | Every displacement is stretched by the same factor. |
| `Transforms.AxesLand` | crates/audio2face3d-gui/src/obj2morph/transform.rs:27-66 | Of two points the one further along the configured up or forward axis of the source is the one further along y or z in the model. |
| `Transforms.Extent` | crates/audio2face3d-gui/src/obj2morph/transform.rs:34-42 | The loop finds the attained least and greatest height along each axis. |
| `Transforms.NewTransform` | crates/audio2face3d-gui/src/obj2morph/transform.rs:27-58 | Fails exactly when no two retained points differ by more than 1e-12 in height; otherwise the one transform for which the moved points are exactly as tall as configured and centred as configured in all three directions. |
| `Splits.Triangulated` | crates/audio2face3d-gui/src/obj2morph/topology.rs:46-127 | One or two triangles whose corners are the face's; how they cover it is `Edges.TriangulationCovers`. |
| `Edges.TriangulationCovers` | crates/audio2face3d-gui/src/obj2morph/topology.rs:64-115 | The triangles of a face have exactly the directed edges of its boundary and those of the diagonal, once each way. |
| `Edges.BoundaryOnce` | crates/audio2face3d-gui/src/obj2morph/topology.rs:64-115 | With distinct corners each directed boundary edge belongs to exactly one triangle, and none runs the other way. |
| `Edges.DiagonalOnce` | crates/audio2face3d-gui/src/obj2morph/topology.rs:111-115 | The only other edges are one diagonal, once in each direction: between corners 0 and 2 exactly when the face says so, else between 1 and 3. |
| `Edges.TriangulationKeepsArea` | crates/audio2face3d-gui/src/obj2morph/topology.rs:111-115 | Whichever way a quad is cut, and even if it is not flat, its triangles together have the quad's own area vector. |
| `Edges.KeptEdges` | crates/audio2face3d-gui/src/obj2morph/convert.rs:31-48 | A group has exactly the directed edges of its faces and their diagonals, as often. |
| `Edges.PartEdges` | crates/audio2face3d-gui/src/obj2morph/convert.rs:31-125 | Read through its vertex list, so does a part. |
| `Edges.FaceInOnePart` | crates/audio2face3d-gui/src/obj2morph/convert.rs:31-125 | Each retained face belongs to exactly one part, the one with its key, and each of its boundary edges is found there. |
| `Edges.ConversionKeepsEdges` | crates/audio2face3d-gui/src/obj2morph/convert.rs:142-330 | The parts of a conversion still have exactly these edges. |
| `Edges.SameKeyIff` | crates/audio2face3d-gui/src/obj2morph/convert.rs:37-44 | Faces go together if and only if they have the same material, or the same object, group and material. |
| `Edges.LessOrders` | crates/audio2face3d-gui/src/obj2morph/convert.rs:26-26 | Parts are ordered by object, then group, then material: a strict total order. |
| `Splits.GroupFaces` | crates/audio2face3d-gui/src/obj2morph/convert.rs:31-53 | The groups are in key order, one per key of a retained face, each with exactly its faces' triangles in source order; all retained corners in source order; exact excluded counts; an error exactly outside 1..64 groups. |
| `Splits.CountExcludedMeans` | crates/audio2face3d-gui/src/obj2morph/convert.rs:33-36 | The count of an excluded material is the number of its faces. |
| `Splits.Extend` | crates/audio2face3d-gui/src/obj2morph/convert.rs:49-52 | One more face goes to its own group only. |
| `Splits.SplitConserves` | crates/audio2face3d-gui/src/obj2morph/convert.rs:31-53 | Every triangle occurs in the groups exactly as often as in the retained faces. |
| `Splits.Distinguish` | crates/audio2face3d-gui/src/obj2morph/convert.rs:81-87 | The distinct source vertices in increasing order. |
| `Splits.Remap` | crates/audio2face3d-gui/src/obj2morph/convert.rs:95-99 | Part indices read back through the vertex list are the source indices. |
| `Splits.RemapIsInjective` | crates/audio2face3d-gui/src/obj2morph/convert.rs:95-99 | Two corners share a part vertex if and only if they share the source vertex. |
| `Splits.SharedVerticesAgree` | crates/audio2face3d-gui/src/obj2morph/convert.rs:100-111 | A source vertex used by several parts has the same position and normal in each. |
| `Splits.SplitParts` | crates/audio2face3d-gui/src/obj2morph/convert.rs:79-125 | Each part is its group's surface with each used vertex once; an error exactly above 100000 vertices in all. |
| `Splits.GroupsAreUnique` | crates/audio2face3d-gui/src/obj2morph/convert.rs:28-53 | The faces have exactly one grouping. |
| `Splits.MakeGeometry` | crates/audio2face3d-gui/src/obj2morph/convert.rs:25-135 | Succeeds exactly for 1..64 groups, a retained surface with height, defined normals and at most 100000 vertices, and else reports the first of these that fails; the result is the moved and split surface, with exactly the edges of its faces (`Edges.PartEdges`). |
| `Splits.SurfaceIsPreserved` | crates/audio2face3d-gui/src/obj2morph/convert.rs:31-125 | Read through their vertex lists the parts hold every retained source triangle exactly as often as the source and nothing else, and each vertex lies where the transform sends its source vertex. |
| `Conversions.Validate` | crates/audio2face3d-gui/src/obj2morph/topology.rs:6-24 | Accepts exactly expressions with the neutral's counts and corners. |
| `Conversions.ValidateAll` | crates/audio2face3d-gui/src/obj2morph/convert.rs:169-182 | All expressions of all channels. |
| `Channels.DeltaSumIsDelta` | crates/audio2face3d-gui/src/obj2morph/convert.rs:195-208 | The accumulated delta is the image of the summed source displacement. |
| `Channels.SourcesAddUp` | crates/audio2face3d-gui/src/obj2morph/convert.rs:195-208 | Each further source of a channel adds the way from the neutral vertex to its own. |
| `Channels.SignificantMeans` | crates/audio2face3d-gui/src/obj2morph/convert.rs:254-277 | A displacement counts if and only if some coordinate differs from zero by more than 1e-8. |
| `Channels.Accumulate` | crates/audio2face3d-gui/src/obj2morph/convert.rs:193-208 | The loop computes it at every vertex. |
| `Conversions.CountMoving` | crates/audio2face3d-gui/src/obj2morph/convert.rs:254-269 | The number of retained vertices that move by more than 1e-8. |
| `Conversions.AddTargets` | crates/audio2face3d-gui/src/obj2morph/convert.rs:270-297 | A part gets the target exactly when the channel moves one of its vertices, with each vertex's own delta. |
| `Conversions.AddChannel` | crates/audio2face3d-gui/src/obj2morph/convert.rs:209-297 | Accepted exactly when the posed normals exist and a retained vertex moves. |
| `Conversions.AddChannels` | crates/audio2face3d-gui/src/obj2morph/convert.rs:193-310 | Succeeds exactly when every channel can be used, and else reports why the first one cannot; every part carries exactly the channels that move it, in order. |
| `Conversions.MorphedIsValid` | crates/audio2face3d-gui/src/validation.rs:19-123 | Once every channel is usable the final validation accepts exactly models with at most 600000 corners and neutral normals that are not zero. |
| `Conversions.Conclude` | crates/audio2face3d-gui/src/obj2morph/convert.rs:193-317 | The channel loop and the final validation: success exactly then, the first failure otherwise. |
| `Conversions.Convert` | crates/audio2face3d-gui/src/obj2morph/convert.rs:142-330 | Succeeds exactly for matching topologies, a faultless geometry, usable channels and a valid model, and else reports the first of these that fails; the model is the split neutral surface, without holes (`Edges.ConversionKeepsEdges`), with exactly its moving channels. |
| `Channels.SharedDeltasAgree` | crates/audio2face3d-gui/src/obj2morph/convert.rs:284-296 | Parts that share a vertex and a channel move and turn it alike. |
| `Channels.UnitHasLengthOne` | crates/audio2face3d-gui/src/model.rs:88-95 | Every evaluated normal has length one and the direction of the blend; one too short to have a direction becomes the z axis. |
| `Channels.Evaluate` | crates/audio2face3d-gui/src/model.rs:73-97 | Accepts exactly finite weights, one per target, on a well-formed mesh; the positions are the blend, the normals the blend at unit length. |
| `Channels.BlendIsWeighted` | crates/audio2face3d-gui/src/model.rs:78-87 | The blend is the base plus the weighted deltas of the part's channels. |
| `Channels.SkippingCostsLittle` | crates/audio2face3d-gui/src/obj2morph/convert.rs:270-277 | Leaving out channels that do not move the part costs at most 1e-8 times their weights, a coordinate. |
| `Channels.WeightedIsPose` | crates/audio2face3d-gui/src/obj2morph/convert.rs:195-208 | Weighted model-space deltas are the image of the weighted source-space pose. |
| `Channels.MorphIsFaithful` | crates/audio2face3d-gui/src/model.rs:73-97 | For all weights, evaluating a part gives the transformed image of the posed source vertex up to that slack. |
| `Channels.SingleSourceIsWeighted` | crates/audio2face3d-gui/src/model.rs:73-97 | A single-source channel alone at any weight w takes each vertex that part of the way from the neutral face to the expression, exactly on parts that carry it and within 1e-8 w a coordinate elsewhere. |
| `Channels.SingleSourceIsReproduced` | crates/audio2face3d-gui/src/model.rs:73-97 | At weight 1 that is the transformed expression position. |
| `Conversions.ConversionIsFaithful` | crates/audio2face3d-gui/src/obj2morph/convert.rs:142-330 | The same for every part, vertex and weighting of a converted model. |
| `Conversions.PosedIsTheExpression` | crates/audio2face3d-gui/src/obj2morph/convert.rs:209-230 | The pose whose normals a single-source channel takes is the expression itself, moved into model space. |
| `Conversions.PosedNormalIsReproduced` | crates/audio2face3d-gui/src/obj2morph/convert.rs:278-297 | A channel alone at weight 1 gives the vertices of a part that carries it the normals of the posed surface. |

## Left out

- The player that owns its clip (`Player::replace`, `append_audio`, `append_frame`): a compatibility path; the modelled player is fed by the controller.
- `values_at`, `emotion_at`, `envelope` and the demo clip: interpolation and lookups without state.
- CPAL devices, stream creation and sample formats: starting a stream succeeds, fails or is superseded as a free choice.
- Weak memory: atomics in `audio.rs` and `audio2x.rs` are sequentially consistent.
- Rounding of f32 and f64, overflow to infinity, and the trigonometry of the resampling coefficient, which is a parameter.
- Clips.Clip.SetNames: the retained size of a name list is computed from given capacities, because the allocator decides them.
- Interactive.HostFuture.Poll: the interrupt counter does not wrap around at 2^64; layers and job queue are outcomes given to the poll.
- Interactive.DeviceFuture.Poll: the same, and `timestamp` arithmetic is not modelled.
- Completions.KeptAlways: `wait_blocking`, lock poisoning and the factory futures are not modelled.
- Responses.KeptAlways: Tokio channels, cancellation and deadlines are abstract queues and flags; authentication, admission and reading input are one free choice each.
- Wav.Load: the file container and its sample decoding are given as a list of decoded samples.
- Timelines.Timeline.Prepare: drawing, scrolling and zooming are not modelled.
- Transforms.NewTransform: overflow of scale or centre cannot happen over `real`.
- Splits.Triangulated: which diagonal a quad gets, and which quads are refused as degenerate, is given with the face.
- Splits.GroupFaces: names are ranks in string order; configuration warnings and face numbers are not modelled.
- Splits.MakeGeometry: the normals of a surface are given by a rule, because they need square roots.
- Conversions.Convert: reading and hashing files, decoded-size and GLB limits, the report's statistics and warnings, and the material, name and finiteness checks of the final validation are not modelled; posed and neutral normals are given by rules.
- Channels.Evaluate: the square root is a parameter; material, name and finiteness checks of mesh validation are not modelled.
- GLB encoding, rendering, the desktop shell, configuration parsing, model download, the inference backends and the solvers: I/O or outside code.
