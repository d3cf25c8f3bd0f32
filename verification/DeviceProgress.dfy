/** What the audio device's threads achieve when they get to run (crates/audio2face3d-gui/src/audio.rs): each of them
    taken alone from start to end. What interleaving may do to them is the subject of `Devices`. */
module DeviceProgress {
  import opened Common
  import opened Devices

  /** The same action n times in a row. */
  function Repeat(s: State, a: Action, n: nat): State {
    if n == 0 then s else Apply(Repeat(s, a, n - 1), a)
  }

  // ---------------------------------------------------------------- the command thread

  function Commands(c: Control, accepted: bool, plays: bool, n: nat): Control {
    if n == 0 then c else StepCommand(Commands(c, accepted, plays, n - 1), accepted, plays)
  }

  /** An accepted command ends the generation before it: the player does what was asked, an old failure is forgotten,
      the worker is asked for a stream exactly if the player now plays, and is woken. */
  lemma CommandTakesEffect(c: Control, plays: bool)
    requires c.command.Idle? && c.lock.None?
    ensures Commands(Begin(c, Locked, false), true, plays, 6)
         == c.(generation := c.generation + 1, request := Request(c.generation + 1, plays, false), playing := plays,
               failure := None, token := true, dropping := false)
  {
    var b := Begin(c, Locked, false);
    assert Commands(b, true, plays, 1) == b.(playing := plays, command := Applied);
    assert Commands(b, true, plays, 2) == b.(playing := plays, generation := c.generation + 1, command := Bumped);
    var bumped := b.(playing := plays, generation := c.generation + 1, failure := None);
    assert Commands(b, true, plays, 3) == bumped.(command := Cleared);
    assert Commands(b, true, plays, 4) == bumped.(lock := None, command := Released(plays));
    assert Commands(b, true, plays, 5).command == Written;
  }

  /** A refused one leaves generation, request and failure alone, and never starts playback. */
  lemma RefusalChangesLittle(c: Control, plays: bool)
    requires c.command.Idle? && c.lock.None?
    ensures Commands(Begin(c, Locked, false), false, plays, 2)
         == c.(playing := c.playing && plays, dropping := false)
  {
    var b := Begin(c, Locked, false);
    assert Commands(b, false, plays, 0) == b;
    assert Commands(b, false, plays, 1) == b.(playing := c.playing && plays, command := Refusing);
  }

  /** Dropping the output pauses, asks for a shutdown and leaves the token for the worker it then joins. */
  lemma DropAsksForShutdown(c: Control, accepted: bool, plays: bool)
    requires c.command.Idle? && c.lock.None?
    ensures Commands(Begin(c, Locked, true), accepted, plays, 8)
         == c.(generation := c.generation + 1, request := Request(c.generation + 1, false, true), playing := false,
               failure := None, token := true, command := Joining, dropping := true)
  {
    var b := Begin(c, Locked, true);
    assert Commands(b, accepted, plays, 1) == b.(playing := false, command := Applied);
    assert Commands(b, accepted, plays, 2).command == Bumped;
    assert Commands(b, accepted, plays, 3).command == Cleared;
    assert Commands(b, accepted, plays, 4).command == Released(false);
    assert Commands(b, accepted, plays, 5).command == Written;
    assert Commands(b, accepted, plays, 6).command == SetShutdown;
    assert Commands(b, accepted, plays, 7).command == ShutdownWritten;
  }

  /** Taking the error hands out the visible failure, once. */
  lemma ErrorIsTakenOnce(s: State, accepted: bool, plays: bool)
    requires s.ctl.command.Idle? && s.ctl.lock.None? && FailureCurrent(s.ctl)
    ensures var begun := Apply(s, BeginTakeError);
            var taken := Repeat(begun, CommandStep(accepted, plays), 2);
            && taken.ctl == s.ctl.(failure := None, dropping := false) && taken.faults == s.faults
            && taken.log.errors
                == s.log.errors + if s.ctl.failure.Some? then [Act(s.ctl.failure.value, s.ctl.generation)] else []
  {
    var begun := Apply(s, BeginTakeError);
    var first := Repeat(begun, CommandStep(accepted, plays), 1);
    assert Repeat(begun, CommandStep(accepted, plays), 0) == begun;
    assert first == Apply(begun, CommandStep(accepted, plays));
    assert first.ctl.command == TakeTaken;
  }

  // ---------------------------------------------------------------- the worker

  /** Control and faults after n steps of the worker alone. */
  function Works(c: Control, f: Faults, opens: bool, n: nat): (Control, Faults) {
    if n == 0 then (c, f)
    else
      var (d, g) := Works(c, f, opens, n - 1);
      (StepWorker(d, g, opens), WorkerFaults(d, g))
  }

  predicate NewRequest(c: Control) { c.worker.ReadRequest? && c.request.generation != c.seen && !c.request.shutdown }

  lemma ReadsRequest(c: Control, f: Faults, opens: bool)
    requires NewRequest(c)
    ensures Works(c, f, opens, 2)
         == (c.(active := None, seen := c.request.generation, worker := CheckCurrent(c.request.running)), f)
  {
    assert Works(c, f, opens, 1) == (c.(worker := Decide(c.request)), f);
  }

  /** What the worker does between taking no fault and falling asleep. */
  lemma FallsAsleep(c: Control, f: Faults, opens: bool, n: nat)
    requires var (d, g) := Works(c, f, opens, n);
             d.worker.TakeFault? && !Ready(g, d.active) && !RequestPending(d)
    ensures var (d, g) := Works(c, f, opens, n);
            Works(c, f, opens, n + 4) == (d.(worker := Park), g)
  {
    var (d, g) := Works(c, f, opens, n);
    assert Works(c, f, opens, n + 1) == (d.(worker := BeforeWait), g);
    assert Works(c, f, opens, n + 2) == (d.(worker := RecheckRequest), g);
    assert Works(c, f, opens, n + 3) == (d.(worker := RecheckFault(false)), g);
  }

  /** Asked to run, the worker replaces its stream by a new one of the asking generation and sleeps. */
  lemma RunRequestOpensAStream(c: Control, f: Faults)
    requires NewRequest(c) && c.request.running && c.request.generation == c.generation
    ensures Works(c, f, true, 9)
         == (c.(active := Some(|f.epochs|), seen := c.generation, worker := Park),
             f.(epochs := f.epochs + [Epoch(c.generation, Healthy, None, 0, 0, 0)]))
  {
    ReadsRequest(c, f, true);
    var d := c.(active := None, seen := c.generation, worker := CheckCurrent(true));
    var g := f.(epochs := f.epochs + [Epoch(c.generation, Healthy, None, 0, 0, 0)]);
    assert Works(c, f, true, 3) == (d.(worker := Starting(|f.epochs|)), g);
    assert Works(c, f, true, 4) == (d.(worker := Opened(|f.epochs|)), g);
    assert Works(c, f, true, 5) == (d.(worker := TakeFault, active := Some(|f.epochs|)), g);
    FallsAsleep(c, f, true, 5);
  }

  /** Asked to stop, it drops its stream and sleeps. */
  lemma StopRequestDropsTheStream(c: Control, f: Faults, opens: bool)
    requires NewRequest(c) && !c.request.running
    ensures Works(c, f, opens, 7) == (c.(active := None, seen := c.request.generation, worker := Park), f)
  {
    ReadsRequest(c, f, opens);
    assert Works(c, f, opens, 3) == (c.(active := None, seen := c.request.generation, worker := TakeFault), f);
    FallsAsleep(c, f, opens, 3);
  }

  /** A stream that an even newer command has overtaken while it was opened is not used. */
  lemma OvertakenStreamIsNotUsed(c: Control, f: Faults, e: nat, opens: bool)
    requires c.worker == Opened(e) && c.generation != c.seen
    ensures Works(c, f, opens, 1) == (c.(worker := TakeFault), f)
  {
    assert Works(c, f, opens, 0) == (c, f);
  }

  /** Asked to shut down, it drops its stream and exits for good. */
  lemma ShutdownRequestEnds(c: Control, f: Faults, opens: bool, n: nat)
    requires c.worker.ReadRequest? && c.request.shutdown
    ensures Works(c, f, opens, n + 2) == (c.(active := None, worker := Exited), f)
  {
    if n == 0 {
      assert Works(c, f, opens, 1) == (c.(worker := Decide(c.request)), f);
    } else {
      ShutdownRequestEnds(c, f, opens, n - 1);
    }
  }

  /** A failure of the generation in force pauses the player, becomes visible and takes the stream down. */
  lemma FailureIsHandled(c: Control, f: Faults, opens: bool, from: Origin)
    requires c.worker == FailLock(c.generation, from) && c.lock.None?
    ensures Works(c, f, opens, 6)
         == (c.(playing := false, failure := Some(c.generation), active := None,
                worker := if from.FromStart? then TakeFault else BeforeWait), f)
  {
    var held := c.(lock := Some(ByWorker));
    assert Works(c, f, opens, 1) == (held.(worker := FailCheck(c.generation, from)), f);
    assert Works(c, f, opens, 2) == (held.(worker := FailPause(c.generation, from)), f);
    assert Works(c, f, opens, 3) == (held.(playing := false, worker := FailStore(c.generation, from)), f);
    var stored := held.(playing := false, failure := Some(c.generation));
    assert Works(c, f, opens, 4) == (stored.(worker := FailUnlock(c.generation, from, true)), f);
    assert Works(c, f, opens, 5) == (stored.(lock := None, worker := FailDrop(c.generation, from)), f);
  }

  /** One of an older generation changes nothing. */
  lemma OldFailureIsIgnored(c: Control, f: Faults, opens: bool, previous: nat, from: Origin)
    requires c.worker == FailLock(previous, from) && previous != c.generation && c.lock.None?
    ensures Works(c, f, opens, 3) == (c.(worker := if from.FromStart? then TakeFault else BeforeWait), f)
  {
    var held := c.(lock := Some(ByWorker));
    assert Works(c, f, opens, 1) == (held.(worker := FailCheck(previous, from)), f);
    assert Works(c, f, opens, 2) == (held.(worker := FailUnlock(previous, from, false)), f);
  }

  /** A published fault of the active stream is taken, once, and handled as a failure of its generation. */
  lemma FaultIsTaken(c: Control, f: Faults, opens: bool)
    requires c.worker.TakeFault? && Ready(f, c.active)
    ensures var e := c.active.value;
            var (d, g) := Works(c, f, opens, 1);
            && d == c.(worker := FailLock(f.epochs[e].generation, FromFault)) && !Ready(g, c.active)
            && g == f.(epochs := f.epochs[e := f.epochs[e].(status := Handled, handed := f.epochs[e].handed + 1)])
  {
    assert Works(c, f, opens, 0) == (c, f);
  }

  /** A stream that cannot be opened is a failure too. */
  lemma RefusedStreamFails(c: Control, f: Faults)
    requires NewRequest(c) && c.request.running && c.request.generation == c.generation && c.lock.None?
    ensures var (d, g) := Works(c, f, false, 5);
            && d == c.(active := None, seen := c.generation, worker := FailLock(c.generation, FromStart))
            && |g.epochs| == |f.epochs| + 1
  {
    ReadsRequest(c, f, false);
    var d := c.(active := None, seen := c.generation, worker := CheckCurrent(true));
    var g := f.(epochs := f.epochs + [Epoch(c.generation, Healthy, None, 0, 0, 0)]);
    assert Works(c, f, false, 3) == (d.(worker := Starting(|f.epochs|)), g);
    assert Works(c, f, false, 4) == (d.(worker := Refused(|f.epochs|)), g);
  }

  lemma {:induction false} WorksAfter(c: Control, f: Faults, d: Control, opens: bool, n: nat)
    requires StepWorker(c, f, opens) == d && WorkerFaults(c, f) == f
    ensures Works(c, f, opens, n + 1) == Works(d, f, opens, n)
  {
    if n > 0 {
      WorksAfter(c, f, d, opens, n - 1);
    }
  }

  /** A token wakes the worker for the request it then finds. */
  lemma WokenForARun(c: Control, f: Faults)
    requires c.worker.Park? && c.token && NewRequest(c.(worker := ReadRequest))
    requires c.request.running && c.request.generation == c.generation
    ensures Works(c, f, true, 10)
         == (c.(token := false, active := Some(|f.epochs|), seen := c.generation),
             f.(epochs := f.epochs + [Epoch(c.generation, Healthy, None, 0, 0, 0)]))
  {
    var awake := c.(token := false, worker := ReadRequest);
    WorksAfter(c, f, awake, true, 9);
    RunRequestOpensAStream(awake, f);
  }

  /** Play from a player at rest to the sleeping worker and back to sleep: the player plays, the old stream is replaced
      by a healthy one of the new generation, and no failure is visible. */
  lemma PlayStartsAStream(c: Control, f: Faults)
    requires c.command.Idle? && c.lock.None? && c.worker.Park? && c.seen <= c.generation
    ensures var g := c.generation + 1;
            Works(Commands(Begin(c, Locked, false), true, true, 6), f, true, 10)
              == (c.(generation := g, seen := g, request := Request(g, true, false), playing := true, failure := None,
                     token := false, active := Some(|f.epochs|), dropping := false),
                  f.(epochs := f.epochs + [Epoch(g, Healthy, None, 0, 0, 0)]))
  {
    CommandTakesEffect(c, true);
    WokenForARun(Commands(Begin(c, Locked, false), true, true, 6), f);
  }

  /** Nothing the worker does to the player or, on a failure, to a stream escapes the history: whose failure it was, and
      what was in force or dropped. */
  lemma WorkerEffectsAreLogged(s: State, opens: bool)
    ensures var t := Apply(s, WorkerStep(opens));
            && (t.ctl.playing != s.ctl.playing ==>
                  && s.ctl.worker.FailPause? && !t.ctl.playing
                  && t.log.pauses == s.log.pauses + [Act(s.ctl.worker.failed, s.ctl.generation)])
            && (s.ctl.worker.FailDrop? && s.ctl.active.Some? && s.ctl.active.value < |s.faults.epochs| ==>
                  t.log.drops
                    == s.log.drops + [Act(s.ctl.worker.failed, s.faults.epochs[s.ctl.active.value].generation)])
            && (t.ctl.active != s.ctl.active && s.ctl.active.Some? ==>
                  s.ctl.worker.FailDrop? || s.ctl.worker.Decide? || s.ctl.worker.Opened?)
  {
  }

  /** A fault that was published while the stream was being opened is taken with the failure to open it. */
  lemma RefusedStreamsFaultIsTaken(c: Control, f: Faults, e: nat, opens: bool)
    requires c.worker == Refused(e) && e < |f.epochs|
    ensures var (d, g) := Works(c, f, opens, 1);
            && d == c.(worker := FailLock(c.seen, FromStart)) && !Ready(g, Some(e))
            && (f.epochs[e].status == FaultReady ==>
                  g.epochs == f.epochs[e := f.epochs[e].(status := Handled, handed := f.epochs[e].handed + 1)])
            && (f.epochs[e].status != FaultReady ==> g == f)
  {
    assert Works(c, f, opens, 0) == (c, f);
  }

  // ---------------------------------------------------------------- the callbacks

  function Reports(f: Faults, i: nat, n: nat): Faults
    requires i < |f.reporters|
    ensures |Reports(f, i, n).reporters| == |f.reporters|
  {
    if n == 0 then f else StepReporter(Reports(f, i, n - 1), i)
  }

  /** The first report of a stream is stored as its fault and published. */
  lemma FirstReportIsStored(f: Faults, i: nat)
    requires i < |f.reporters| && f.reporters[i].pc == Report && f.reporters[i].epoch < |f.epochs|
    requires f.epochs[f.reporters[i].epoch].status == Healthy
    ensures var e := f.reporters[i].epoch;
            && Reports(f, i, 3).epochs
                == f.epochs[e := f.epochs[e].(status := FaultReady, fault := Some(i),
                                              reports := f.epochs[e].reports + 1)]
            && Reports(f, i, 3).reporters[i] == Reporter(e, Unpark) && Unparks(Reports(f, i, 3), i)
  {
    var e := f.reporters[i].epoch;
    var one := Reports(f, i, 1);
    assert one == StepReporter(Reports(f, i, 0), i) == StepReporter(f, i);
    var two := Reports(f, i, 2);
    assert two == StepReporter(one, i);
    assert two.epochs[e].fault == Some(i) && two.reporters[i] == Reporter(e, Publishing);
  }

  /** Every later one is only counted; the stored fault stays. */
  lemma LaterReportsAreCounted(f: Faults, i: nat)
    requires i < |f.reporters| && f.reporters[i].pc == Report && f.reporters[i].epoch < |f.epochs|
    requires f.epochs[f.reporters[i].epoch].status != Healthy
    ensures var e := f.reporters[i].epoch;
            && Reports(f, i, 1).epochs
                == f.epochs[e := f.epochs[e].(repeated := f.epochs[e].repeated + 1, reports := f.epochs[e].reports + 1)]
            && Reports(f, i, 1).reporters[i] == Reporter(e, Unpark) && Unparks(Reports(f, i, 1), i)
  {
    assert Reports(f, i, 0) == f;
  }

  /** And either wakes the worker. */
  lemma ReportWakes(s: State, i: nat)
    requires i < |s.faults.reporters| && Unparks(s.faults, i)
    ensures var t := Apply(s, ReporterStep(i));
            && t.ctl == s.ctl.(token := true) && t.faults.epochs == s.faults.epochs
            && t.faults.reporters[i].pc == Reported
  {
  }

  /** A sleeping worker that finds a token consumes it and reads the request again. */
  lemma TokenWakes(s: State, opens: bool)
    requires s.ctl.worker.Park? && s.ctl.token
    ensures Apply(s, WorkerStep(opens)).ctl == s.ctl.(token := false, worker := ReadRequest)
  {
  }

  predicate Fresh(s: State, i: nat) {
    && i < |s.renders.renderers| && s.renders.renderers[i].pc == CheckFault
    && s.renders.renderers[i].epoch < |s.faults.epochs|
    && s.faults.epochs[s.renders.renderers[i].epoch].generation == s.renders.renderers[i].generation
  }

  /** The state with renderer i replaced. */
  function At(s: State, i: nat, r: Renderer): State
    requires i < |s.renders.renderers|
  {
    s.(renders := s.renders.(renderers := s.renders.renderers[i := r]))
  }

  /** A step that only looks. */
  lemma Looks(s: State, i: nat, r: Renderer, stops: bool)
    requires i < |s.renders.renderers| && r.epoch < |s.faults.epochs|
    requires r.pc.CheckFault? || r.pc.CheckGeneration? || r.pc.Recheck? || r.pc.RecheckHealth? || r.pc.Rendered?
    ensures Apply(At(s, i, r), RendererStep(i, stops)) == At(s, i, r.(pc := RendererNext(s.ctl, s.faults, r)))
  {
  }

  lemma Locks(s: State, i: nat, r: Renderer, stops: bool)
    requires i < |s.renders.renderers| && r.epoch < |s.faults.epochs| && r.pc.TryLock? && s.ctl.lock.None?
    ensures Apply(At(s, i, r), RendererStep(i, stops))
         == At(s.(ctl := s.ctl.(lock := Some(ByRenderer(i)))), i, r.(pc := Recheck))
  {
  }

  lemma PlaysOut(s: State, i: nat, r: Renderer, stops: bool)
    requires i < |s.renders.renderers| && r.epoch < |s.faults.epochs| && r.pc.Sound?
    ensures Apply(At(s, i, r), RendererStep(i, stops))
         == At(s.(ctl := s.ctl.(playing := s.ctl.playing && !stops),
                  log := s.log.(sounds := s.log.sounds + [Act(r.generation, s.ctl.generation)])),
               i, r.(pc := Unlock))
  {
  }

  lemma Unlocks(s: State, i: nat, r: Renderer, stops: bool)
    requires i < |s.renders.renderers| && r.epoch < |s.faults.epochs| && r.pc.Unlock?
    ensures Apply(At(s, i, r), RendererStep(i, stops)) == At(s.(ctl := s.ctl.(lock := None)), i, r.(pc := Rendered))
  {
  }

  /** A render callback of a healthy stream of the generation in force sounds exactly once if the player is free, and
      gives the lock back. */
  lemma HealthyStreamSounds(s: State, i: nat, stops: bool)
    requires Fresh(s, i) && s.ctl.lock.None?
    requires var r := s.renders.renderers[i];
             r.generation == s.ctl.generation && s.faults.epochs[r.epoch].status == Healthy
    ensures var t := Repeat(s, RendererStep(i, stops), 7);
            && t.ctl == s.ctl.(playing := s.ctl.playing && !stops) && t.faults == s.faults
            && t.log == s.log.(sounds := s.log.sounds + [Act(s.ctl.generation, s.ctl.generation)])
            && t.renders == s.renders.(renderers := s.renders.renderers[i := s.renders.renderers[i].(pc := Rendered)])
  {
    var r, a := s.renders.renderers[i], RendererStep(i, stops);
    var held := s.(ctl := s.ctl.(lock := Some(ByRenderer(i))));
    Reaches(s, i, stops);
    Looks(held, i, r.(pc := Recheck), stops);
    assert Repeat(s, a, 4) == At(held, i, r.(pc := RecheckHealth));
    Looks(held, i, r.(pc := RecheckHealth), stops);
    assert Repeat(s, a, 5) == At(held, i, r.(pc := Sound));
    PlaysOut(held, i, r.(pc := Sound), stops);
    var sounded := held.(ctl := held.ctl.(playing := s.ctl.playing && !stops),
                         log := s.log.(sounds := s.log.sounds + [Act(s.ctl.generation, s.ctl.generation)]));
    assert Repeat(s, a, 6) == At(sounded, i, r.(pc := Unlock));
    Unlocks(sounded, i, r.(pc := Unlock), stops);
  }

  /** Up to the point where it holds the player's lock. */
  lemma Reaches(s: State, i: nat, stops: bool)
    requires Fresh(s, i) && s.ctl.lock.None?
    requires var r := s.renders.renderers[i];
             r.generation == s.ctl.generation && s.faults.epochs[r.epoch].status == Healthy
    ensures Repeat(s, RendererStep(i, stops), 3)
         == At(s.(ctl := s.ctl.(lock := Some(ByRenderer(i)))), i, s.renders.renderers[i].(pc := Recheck))
  {
    var r, a := s.renders.renderers[i], RendererStep(i, stops);
    assert Repeat(s, a, 0) == s == At(s, i, r);
    Looks(s, i, r, stops);
    assert Repeat(s, a, 1) == At(s, i, r.(pc := CheckGeneration));
    Looks(s, i, r.(pc := CheckGeneration), stops);
    assert Repeat(s, a, 2) == At(s, i, r.(pc := TryLock));
    Locks(s, i, r.(pc := TryLock), stops);
  }

  /** One of an old generation or of a stream with a fault is silent at once. */
  lemma OldStreamIsSilent(s: State, i: nat, stops: bool)
    requires Fresh(s, i)
    requires var r := s.renders.renderers[i];
             r.generation != s.ctl.generation || s.faults.epochs[r.epoch].status != Healthy
    ensures Repeat(s, RendererStep(i, stops), 2) == At(s, i, s.renders.renderers[i].(pc := Rendered))
  {
    var r, a := s.renders.renderers[i], RendererStep(i, stops);
    assert Repeat(s, a, 0) == s == At(s, i, r);
    Looks(s, i, r, stops);
    var first := r.(pc := RendererNext(s.ctl, s.faults, r));
    assert Repeat(s, a, 1) == At(s, i, first);
    Looks(s, i, first, stops);
  }

  lemma Contends(s: State, i: nat, r: Renderer, stops: bool)
    requires i < |s.renders.renderers| && r.epoch < |s.faults.epochs| && r.pc.TryLock? && s.ctl.lock.Some?
    ensures Apply(At(s, i, r), RendererStep(i, stops))
         == At(s.(renders := s.renders.(contention := s.renders.contention + 1)), i, r.(pc := Rendered))
  {
  }

  /** One that finds the player locked is silent and counted as contention. */
  lemma BusyPlayerIsSilent(s: State, i: nat, stops: bool)
    requires Fresh(s, i) && s.ctl.lock.Some?
    requires var r := s.renders.renderers[i];
             r.generation == s.ctl.generation && s.faults.epochs[r.epoch].status == Healthy
    ensures Repeat(s, RendererStep(i, stops), 3)
         == At(s.(renders := s.renders.(contention := s.renders.contention + 1)), i,
               s.renders.renderers[i].(pc := Rendered))
  {
    var r, a := s.renders.renderers[i], RendererStep(i, stops);
    assert Repeat(s, a, 0) == s == At(s, i, r);
    Looks(s, i, r, stops);
    assert Repeat(s, a, 1) == At(s, i, r.(pc := CheckGeneration));
    Looks(s, i, r.(pc := CheckGeneration), stops);
    assert Repeat(s, a, 2) == At(s, i, r.(pc := TryLock));
    Contends(s, i, r.(pc := TryLock), stops);
  }

  /** Even with the lock in hand, a callback whose stream has failed or been superseded meanwhile makes no sound. */
  lemma LateFaultIsSilent(s: State, i: nat, r: Renderer, stops: bool)
    requires i < |s.renders.renderers| && r.epoch < |s.faults.epochs|
    requires || (r.pc.Recheck? && r.generation != s.ctl.generation)
             || (r.pc.RecheckHealth? && s.faults.epochs[r.epoch].status != Healthy)
    ensures Repeat(At(s, i, r), RendererStep(i, stops), 2) == At(s.(ctl := s.ctl.(lock := None)), i, r.(pc := Rendered))
  {
    var a := RendererStep(i, stops);
    assert Repeat(At(s, i, r), a, 0) == At(s, i, r);
    Looks(s, i, r, stops);
    assert Repeat(At(s, i, r), a, 1) == At(s, i, r.(pc := Unlock));
    Unlocks(s, i, r.(pc := Unlock), stops);
  }
}
