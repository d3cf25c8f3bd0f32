/** The audio device worker, its command thread and the stream callbacks as an interleaving of atomic steps
    (crates/audio2face3d-gui/src/audio.rs). Each lock region's entry and exit, each access to a shared slot
    and each atomic operation is one step; a step that is not enabled changes nothing. */
module Devices {
  import opened Common

  // ---------------------------------------------------------------- states

  datatype Request = Request(generation: nat, running: bool, shutdown: bool)

  datatype EpochStatus = Healthy | Writing | FaultReady | Handled

  /** `reports` counts the callbacks that tried to publish; `handed` how often the fault was taken. */
  datatype Epoch = Epoch(generation: nat, status: EpochStatus, fault: Option<nat>, reports: nat, repeated: nat,
                         handed: nat)

  datatype Holder = ByCommand | ByWorker | ByRenderer(i: nat)

  datatype Origin = FromStart | FromFault

  datatype WorkerPc =
    | ReadRequest
    | Decide(request: Request)
    | CheckCurrent(running: bool)
    | Starting(epoch: nat)
    | Opened(epoch: nat)
    | Refused(epoch: nat)
    | TakeFault
    | FailLock(failed: nat, origin: Origin)
    | FailCheck(failed: nat, origin: Origin)
    | FailPause(failed: nat, origin: Origin)
    | FailStore(failed: nat, origin: Origin)
    | FailUnlock(failed: nat, origin: Origin, current: bool)
    | FailDrop(failed: nat, origin: Origin)
    | BeforeWait
    | RecheckRequest
    | RecheckFault(pending: bool)
    | Park
    | Exited

  datatype CommandPc =
    | Idle
    | Locked
    | Applied
    | Bumped
    | Cleared
    | Released(running: bool)
    | Written
    | Refusing
    | TakeLocked
    | TakeTaken
    | SetShutdown
    | ShutdownWritten
    | Joining

  datatype ReporterPc = Report | Storing | Publishing | Unpark | Reported

  datatype Reporter = Reporter(epoch: nat, pc: ReporterPc)

  datatype RendererPc = CheckFault | CheckGeneration | TryLock | Recheck | RecheckHealth | Sound | Unlock | Rendered

  datatype Renderer = Renderer(epoch: nat, generation: nat, pc: RendererPc)

  /** Something done to the player or a stream on behalf of generation `owner` while `current` was in force. */
  datatype Act = Act(owner: nat, current: nat)

  /** Everything but the callbacks: the shared slots and the two program counters. */
  datatype Control = Control(
    generation: nat,
    request: Request,
    lock: Option<Holder>,
    playing: bool,
    failure: Option<nat>,
    token: bool,
    seen: nat,
    active: Option<nat>,
    worker: WorkerPc,
    command: CommandPc,
    dropping: bool)

  /** All stream epochs ever made and all error callbacks ever started on them. */
  datatype Faults = Faults(epochs: seq<Epoch>, reporters: seq<Reporter>)

  datatype Renders = Renders(renderers: seq<Renderer>, contention: nat)

  /** History: pauses and stream drops by the failure handler, rendered buffers, and errors handed to the caller. */
  datatype Log = Log(pauses: seq<Act>, sounds: seq<Act>, drops: seq<Act>, errors: seq<Act>)

  datatype State = State(ctl: Control, faults: Faults, renders: Renders, log: Log)

  function Initial(): State {
    State(Control(0, Request(0, false, false), None, false, None, false, 0, None, ReadRequest, Idle, false),
          Faults([], []), Renders([], 0), Log([], [], [], []))
  }

  // ---------------------------------------------------------------- steps

  datatype Action =
    | BeginCommand
    | BeginTakeError
    | BeginDrop
    | CommandStep(accepted: bool, plays: bool)
    | WorkerStep(opens: bool)
    | ConsumeToken
    | SpuriousWake
    | OtherUse(stops: bool)
    | SpawnReporter(epoch: nat)
    | ReporterStep(i: nat)
    | SpawnRenderer(epoch: nat)
    | RendererStep(i: nat, stops: bool)

  /** `command`, `take_error` and `drop`; they exclude each other. */
  function StepCommand(c: Control, accepted: bool, plays: bool): Control {
    match c.command
    case Idle => c
    case Locked =>
      // The player's own answer. A refused Play may have paused first; Pause is never refused.
      if accepted || c.dropping then c.(playing := plays && !c.dropping, command := Applied)
      else c.(playing := c.playing && plays, command := Refusing)
    case Refusing => c.(lock := None, command := Idle)
    case Applied => c.(generation := c.generation + 1, command := Bumped)
    case Bumped => c.(failure := None, command := Cleared)
    case Cleared => c.(lock := None, command := Released(c.playing))
    case Released(running) => c.(request := Request(c.generation, running, false), command := Written)
    case Written => c.(token := true, command := if c.dropping then SetShutdown else Idle)
    case SetShutdown => c.(request := c.request.(shutdown := true), command := ShutdownWritten)
    case ShutdownWritten => c.(token := true, command := Joining)
    case Joining => c
    case TakeLocked => c.(failure := None, command := TakeTaken)
    case TakeTaken => c.(lock := None, command := Idle)
  }

  /** `take_error` hands out the failure only if it belongs to the generation in force. */
  function ErrorTaken(c: Control): seq<Act> {
    if c.command.TakeLocked? && c.failure == Some(c.generation) then [Act(c.failure.value, c.generation)] else []
  }

  predicate Ready(f: Faults, e: Option<nat>) {
    e.Some? && e.value < |f.epochs| && f.epochs[e.value].status == FaultReady
  }

  /** The fault of an epoch can be taken once: READY becomes HANDLED. */
  function Take(f: Faults, e: nat): Faults
    requires e < |f.epochs|
  {
    f.(epochs := f.epochs[e := f.epochs[e].(status := Handled, handed := f.epochs[e].handed + 1)])
  }

  function AfterFailure(from: Origin): WorkerPc { if from.FromStart? then TakeFault else BeforeWait }

  function StepWorker(c: Control, f: Faults, opens: bool): Control {
    match c.worker
    case ReadRequest => c.(worker := Decide(c.request))
    case Decide(request) =>
      if request.shutdown then c.(active := None, worker := Exited)
      else if request.generation != c.seen
          then c.(active := None, seen := request.generation, worker := CheckCurrent(request.running))
      else c.(worker := TakeFault)
    case CheckCurrent(running) =>
      c.(worker := if running && c.generation == c.seen then Starting(|f.epochs|) else TakeFault)
    case Starting(e) => c.(worker := if opens then Opened(e) else Refused(e))
    case Opened(e) =>
      if c.generation == c.seen then c.(active := Some(e), worker := TakeFault) else c.(worker := TakeFault)
    case Refused(e) => c.(worker := FailLock(c.seen, FromStart))
    case TakeFault =>
      c.(worker := if Ready(f, c.active) then FailLock(f.epochs[c.active.value].generation, FromFault) else BeforeWait)
    case FailLock(g, from) => if c.lock.None? then c.(lock := Some(ByWorker), worker := FailCheck(g, from)) else c
    case FailCheck(g, from) =>
      c.(worker := if c.generation == g then FailPause(g, from) else FailUnlock(g, from, false))
    case FailPause(g, from) => c.(playing := false, worker := FailStore(g, from))
    case FailStore(g, from) => c.(failure := Some(g), worker := FailUnlock(g, from, true))
    case FailUnlock(g, from, current) =>
      c.(lock := None, worker := if current then FailDrop(g, from) else AfterFailure(from))
    case FailDrop(_, from) => c.(active := None, worker := AfterFailure(from))
    case BeforeWait => c.(worker := RecheckRequest)
    case RecheckRequest => c.(worker := RecheckFault(c.request.shutdown || c.request.generation != c.seen))
    case RecheckFault(pending) => c.(worker := if pending || Ready(f, c.active) then ReadRequest else Park)
    case Park => if c.token then c.(token := false, worker := ReadRequest) else c
    case Exited => c
  }

  /** The worker makes an epoch before it opens a stream, and takes a ready fault of its stream, active or refused. */
  function WorkerFaults(c: Control, f: Faults): Faults {
    match c.worker
    case CheckCurrent(running) =>
      if running && c.generation == c.seen then f.(epochs := f.epochs + [Epoch(c.seen, Healthy, None, 0, 0, 0)]) else f
    case Refused(e) => if Ready(f, Some(e)) then Take(f, e) else f
    case TakeFault => if Ready(f, c.active) then Take(f, c.active.value) else f
    case _ => f
  }

  function WorkerLog(c: Control, f: Faults, log: Log): Log {
    match c.worker
    case FailPause(g, _) => log.(pauses := log.pauses + [Act(g, c.generation)])
    case FailDrop(g, _) =>
      if c.active.Some? && c.active.value < |f.epochs|
          then log.(drops := log.drops + [Act(g, f.epochs[c.active.value].generation)]) else log
    case _ => log
  }

  /** `report_fault` on a stream's error callback. */
  function StepReporter(f: Faults, i: nat): Faults
    requires i < |f.reporters|
  {
    var r := f.reporters[i];
    if r.epoch >= |f.epochs| then f
    else
      var epoch := f.epochs[r.epoch];
      match r.pc
      case Report =>
        if epoch.status == Healthy
        then Publish(f, i, Storing, epoch.(status := Writing, reports := epoch.reports + 1))
        else Publish(f, i, Unpark, epoch.(repeated := epoch.repeated + 1, reports := epoch.reports + 1))
      case Storing => Publish(f, i, Publishing, epoch.(fault := Some(i)))
      case Publishing => Publish(f, i, Unpark, epoch.(status := FaultReady))
      case Unpark => f.(reporters := f.reporters[i := Reporter(r.epoch, Reported)])
      case Reported => f
  }

  function Publish(f: Faults, i: nat, pc: ReporterPc, epoch: Epoch): Faults
    requires i < |f.reporters| && f.reporters[i].epoch < |f.epochs|
  {
    var e := f.reporters[i].epoch;
    Faults(f.epochs[e := epoch], f.reporters[i := Reporter(e, pc)])
  }

  /** `render` on a stream's output callback: where it goes next. */
  function RendererNext(c: Control, f: Faults, r: Renderer): RendererPc {
    if r.epoch >= |f.epochs| then r.pc
    else
      match r.pc
      case CheckFault =>
        if f.epochs[r.epoch].status != Healthy || f.epochs[r.epoch].generation != r.generation then Rendered
        else CheckGeneration
      case CheckGeneration => if c.generation == r.generation then TryLock else Rendered
      case TryLock => if c.lock.None? then Recheck else Rendered
      case Recheck => if c.generation == r.generation then RecheckHealth else Unlock
      case RecheckHealth => if f.epochs[r.epoch].status == Healthy then Sound else Unlock
      case Sound => Unlock
      case Unlock => Rendered
      case Rendered => Rendered
  }

  /** Its effect on the shared slots. Rendering never starts playback; it may stop it. */
  function RendererControl(c: Control, f: Faults, r: Renderer, i: nat, stops: bool): Control {
    if r.epoch >= |f.epochs| then c
    else
      match r.pc
      case TryLock => if c.lock.None? then c.(lock := Some(ByRenderer(i))) else c
      case Sound => c.(playing := c.playing && !stops)
      case Unlock => c.(lock := None)
      case _ => c
  }

  function StepRenderer(s: State, i: nat, stops: bool): State
    requires i < |s.renders.renderers|
  {
    var r := s.renders.renderers[i];
    var contended := if r.epoch < |s.faults.epochs| && r.pc == TryLock && s.ctl.lock.Some? then 1 else 0;
    State(RendererControl(s.ctl, s.faults, r, i, stops),
          s.faults,
          Renders(s.renders.renderers[i := r.(pc := RendererNext(s.ctl, s.faults, r))],
                  s.renders.contention + contended),
          if r.epoch < |s.faults.epochs| && r.pc == Sound
              then s.log.(sounds := s.log.sounds + [Act(r.generation, s.ctl.generation)]) else s.log)
  }

  /** Device setup and teardown may swallow a park token; after the final recheck no such work is left. */
  predicate MaySwallowToken(pc: WorkerPc) { !pc.RecheckFault? && !pc.Park? && !pc.Exited? }

  function Begin(c: Control, pc: CommandPc, dropping: bool): Control {
    if c.command.Idle? && c.lock.None? then c.(lock := Some(ByCommand), command := pc, dropping := dropping) else c
  }

  function Apply(s: State, a: Action): State {
    match a
    case BeginCommand => s.(ctl := Begin(s.ctl, Locked, false))
    case BeginTakeError => s.(ctl := Begin(s.ctl, TakeLocked, false))
    case BeginDrop => s.(ctl := Begin(s.ctl, Locked, true))
    case CommandStep(accepted, plays) =>
      s.(ctl := StepCommand(s.ctl, accepted, plays), log := s.log.(errors := s.log.errors + ErrorTaken(s.ctl)))
    case WorkerStep(opens) =>
      State(StepWorker(s.ctl, s.faults, opens), WorkerFaults(s.ctl, s.faults), s.renders,
            WorkerLog(s.ctl, s.faults, s.log))
    case ConsumeToken => if MaySwallowToken(s.ctl.worker) then s.(ctl := s.ctl.(token := false)) else s
    case SpuriousWake => if s.ctl.worker.Park? then s.(ctl := s.ctl.(worker := ReadRequest)) else s
    case OtherUse(stops) => if s.ctl.lock.None? then s.(ctl := s.ctl.(playing := s.ctl.playing && !stops)) else s
    case SpawnReporter(e) =>
      if e < |s.faults.epochs| then s.(faults := s.faults.(reporters := s.faults.reporters + [Reporter(e, Report)]))
      else s
    case ReporterStep(i) =>
      if i < |s.faults.reporters|
      then s.(faults := StepReporter(s.faults, i), ctl := s.ctl.(token := s.ctl.token || Unparks(s.faults, i)))
      else s
    case SpawnRenderer(e) =>
      if e < |s.faults.epochs|
      then s.(renders := s.renders.(renderers := s.renders.renderers
                                    + [Renderer(e, s.faults.epochs[e].generation, CheckFault)]))
      else s
    case RendererStep(i, stops) => if i < |s.renders.renderers| then StepRenderer(s, i, stops) else s
  }

  predicate Unparks(f: Faults, i: nat)
    requires i < |f.reporters|
  {
    f.reporters[i].pc == Unpark && f.reporters[i].epoch < |f.epochs|
  }

  function Run(s: State, actions: seq<Action>, n: nat): State
    requires n <= |actions|
  {
    if n == 0 then s else Apply(Run(s, actions, n - 1), actions[n - 1])
  }

  // ---------------------------------------------------------------- the invariant

  predicate HoldsLock(pc: RendererPc) { pc.Recheck? || pc.RecheckHealth? || pc.Sound? || pc.Unlock? }

  predicate CommandHolds(pc: CommandPc) {
    pc.Locked? || pc.Applied? || pc.Bumped? || pc.Cleared? || pc.Refusing? || pc.TakeLocked? || pc.TakeTaken?
  }

  predicate WorkerHolds(pc: WorkerPc) { pc.FailCheck? || pc.FailPause? || pc.FailStore? || pc.FailUnlock? }

  /** The lock slot says who is inside the player's critical section. */
  predicate LockKept(c: Control, renderers: seq<Renderer>) {
    && (c.lock == Some(ByCommand) <==> CommandHolds(c.command))
    && (c.lock == Some(ByWorker) <==> WorkerHolds(c.worker))
    && (forall i: nat | i < |renderers| :: c.lock == Some(ByRenderer(i)) <==> HoldsLock(renderers[i].pc))
    && (c.lock.Some? && c.lock.value.ByRenderer? ==> c.lock.value.i < |renderers|)
  }

  predicate Seen(c: Control, epochs: seq<Epoch>, e: nat) { e < |epochs| && epochs[e].generation == c.seen }

  /** The worker only ever acts for the generation it has seen, on an epoch of that generation. */
  predicate WorkerKept(c: Control, epochs: seq<Epoch>) {
    && (c.active.Some? ==> Seen(c, epochs, c.active.value))
    && (match c.worker
        case Starting(e) => Seen(c, epochs, e)
        case Opened(e) => Seen(c, epochs, e)
        case Refused(e) => Seen(c, epochs, e)
        case FailLock(g, _) => g == c.seen
        case FailCheck(g, _) => g == c.seen
        case FailPause(g, _) => g == c.seen == c.generation
        case FailStore(g, _) => g == c.seen == c.generation && !c.playing
        case FailUnlock(g, _, current) =>
          g == c.seen && (current ==> g == c.generation && c.failure == Some(g) && !c.playing)
        case FailDrop(g, _) => g == c.seen
        case _ => true)
  }

  /** A visible failure belongs to the generation in force and nothing is playing. */
  predicate FailureCurrent(c: Control) { c.failure.Some? ==> c.failure.value == c.generation && !c.playing }

  predicate FailureKept(c: Control) {
    match c.command
    case Applied => c.failure.Some? ==> c.failure.value == c.generation
    case Bumped => true
    case Cleared => c.failure.None?
    case _ => FailureCurrent(c)
  }

  predicate Owns(pc: ReporterPc) { pc.Storing? || pc.Publishing? }

  /** One report is the first, every other one is counted as repeated; the fault is there once READY and taken at most
      once. */
  predicate EpochKept(e: Epoch) {
    && e.reports == e.repeated + (if e.status == Healthy then 0 else 1)
    && e.handed == (if e.status == Handled then 1 else 0)
    && (e.status == Healthy ==> e.fault.None? && e.reports == 0)
    && (e.status == FaultReady || e.status == Handled ==> e.fault.Some?)
  }

  predicate ReporterKept(epochs: seq<Epoch>, r: Reporter) {
    && r.epoch < |epochs|
    && (Owns(r.pc) ==> epochs[r.epoch].status == Writing && (r.pc.Publishing? <==> epochs[r.epoch].fault.Some?))
  }

  /** Between HEALTHY and READY exactly one callback owns the fault slot. */
  predicate FaultsKept(f: Faults) {
    && (forall e | 0 <= e < |f.epochs| :: EpochKept(f.epochs[e]))
    && (forall i | 0 <= i < |f.reporters| :: ReporterKept(f.epochs, f.reporters[i]))
    && (forall i, j | 0 <= i < j < |f.reporters| && Owns(f.reporters[i].pc) && Owns(f.reporters[j].pc) ::
          f.reporters[i].epoch != f.reporters[j].epoch)
  }

  predicate RendererKept(generation: nat, epochs: seq<Epoch>, r: Renderer) {
    && r.epoch < |epochs| && r.generation == epochs[r.epoch].generation
    && (r.pc.RecheckHealth? || r.pc.Sound? ==> r.generation == generation)
  }

  predicate RenderersKept(generation: nat, epochs: seq<Epoch>, renderers: seq<Renderer>) {
    forall i | 0 <= i < |renderers| :: RendererKept(generation, epochs, renderers[i])
  }

  /** The command thread or `drop` has written the request and will unpark next. */
  predicate CommandWillWake(c: Control) { c.command.Written? || c.command.ShutdownWritten? }

  predicate ReporterWillWake(f: Faults, e: nat) {
    exists i | 0 <= i < |f.reporters| :: f.reporters[i] == Reporter(e, Unpark)
  }

  predicate RequestPending(c: Control) { c.request.shutdown || c.request.generation != c.seen }

  predicate RequestWakes(c: Control) { RequestPending(c) ==> c.token || CommandWillWake(c) }

  predicate FaultWakes(c: Control, f: Faults) { Ready(f, c.active) ==> c.token || ReporterWillWake(f, c.active.value) }

  /** From the final recheck on, whatever becomes pending has left a token or still has its unpark to come. */
  predicate WakeKept(c: Control, f: Faults) {
    && (c.worker == RecheckFault(false) || c.worker.Park? ==> RequestWakes(c))
    && (c.worker.Park? ==> FaultWakes(c, f))
  }

  predicate AllCurrent(acts: seq<Act>) { forall i | 0 <= i < |acts| :: acts[i].owner == acts[i].current }

  predicate LogKept(log: Log) {
    AllCurrent(log.pauses) && AllCurrent(log.sounds) && AllCurrent(log.drops) && AllCurrent(log.errors)
  }

  predicate Inv(s: State) {
    && LockKept(s.ctl, s.renders.renderers)
    && WorkerKept(s.ctl, s.faults.epochs)
    && FailureKept(s.ctl)
    && FaultsKept(s.faults)
    && RenderersKept(s.ctl.generation, s.faults.epochs, s.renders.renderers)
    && WakeKept(s.ctl, s.faults)
    && LogKept(s.log)
  }

  // ---------------------------------------------------------------- every step keeps it

  lemma CommandKeepsLock(c: Control, accepted: bool, plays: bool, renderers: seq<Renderer>)
    requires LockKept(c, renderers)
    ensures LockKept(StepCommand(c, accepted, plays), renderers)
  {
  }

  lemma CommandKeepsWorker(c: Control, accepted: bool, plays: bool, epochs: seq<Epoch>, renderers: seq<Renderer>)
    requires LockKept(c, renderers) && WorkerKept(c, epochs)
    ensures WorkerKept(StepCommand(c, accepted, plays), epochs)
  {
  }

  lemma CommandKeepsFailure(c: Control, accepted: bool, plays: bool)
    requires FailureKept(c)
    ensures FailureKept(StepCommand(c, accepted, plays)) && AllCurrent(ErrorTaken(c))
  {
  }

  /** The generation only moves inside the lock, so no callback past its recheck can see it move. */
  lemma CommandKeepsRenderers(c: Control, accepted: bool, plays: bool, epochs: seq<Epoch>, renderers: seq<Renderer>)
    requires LockKept(c, renderers) && RenderersKept(c.generation, epochs, renderers)
    ensures RenderersKept(StepCommand(c, accepted, plays).generation, epochs, renderers)
  {
    if c.command.Applied? {
      assert forall i: nat | i < |renderers| :: !HoldsLock(renderers[i].pc);
    }
  }

  lemma CommandKeepsWake(c: Control, accepted: bool, plays: bool, f: Faults)
    requires WakeKept(c, f)
    ensures WakeKept(StepCommand(c, accepted, plays), f)
  {
  }

  predicate Failing(pc: WorkerPc) {
    pc.FailLock? || pc.FailCheck? || pc.FailPause? || pc.FailStore? || pc.FailUnlock? || pc.FailDrop?
  }

  predicate Opening(pc: WorkerPc) { pc.Starting? || pc.Opened? || pc.Refused? }

  lemma FailingKeepsLock(c: Control, f: Faults, opens: bool, renderers: seq<Renderer>)
    requires LockKept(c, renderers) && Failing(c.worker)
    ensures LockKept(StepWorker(c, f, opens), renderers)
  {
    assert c.lock.None? ==> forall i: nat | i < |renderers| :: !HoldsLock(renderers[i].pc);
  }

  lemma OpeningKeepsLock(c: Control, f: Faults, opens: bool, renderers: seq<Renderer>)
    requires LockKept(c, renderers) && Opening(c.worker)
    ensures LockKept(StepWorker(c, f, opens), renderers)
  {
  }

  lemma LoopingKeepsLock(c: Control, f: Faults, opens: bool, renderers: seq<Renderer>)
    requires LockKept(c, renderers) && !Opening(c.worker) && !Failing(c.worker)
    ensures LockKept(StepWorker(c, f, opens), renderers)
  {
  }

  lemma OpeningKeepsWorker(c: Control, f: Faults, opens: bool)
    requires WorkerKept(c, f.epochs) && Opening(c.worker)
    ensures WorkerKept(StepWorker(c, f, opens), WorkerFaults(c, f).epochs)
  {
  }

  lemma LoopingKeepsWorker(c: Control, f: Faults, opens: bool)
    requires WorkerKept(c, f.epochs) && !Opening(c.worker) && !Failing(c.worker)
    ensures WorkerKept(StepWorker(c, f, opens), WorkerFaults(c, f).epochs)
  {
  }

  lemma FailingKeepsWorker(c: Control, f: Faults, opens: bool)
    requires WorkerKept(c, f.epochs) && Failing(c.worker)
    ensures WorkerKept(StepWorker(c, f, opens), f.epochs)
  {
  }

  lemma WorkerKeepsLock(c: Control, f: Faults, opens: bool, renderers: seq<Renderer>)
    requires LockKept(c, renderers)
    ensures LockKept(StepWorker(c, f, opens), renderers)
  {
    if Failing(c.worker) {
      FailingKeepsLock(c, f, opens, renderers);
    } else if Opening(c.worker) {
      OpeningKeepsLock(c, f, opens, renderers);
    } else {
      LoopingKeepsLock(c, f, opens, renderers);
    }
  }

  lemma WorkerKeepsItself(c: Control, f: Faults, opens: bool)
    requires WorkerKept(c, f.epochs)
    ensures WorkerKept(StepWorker(c, f, opens), WorkerFaults(c, f).epochs)
  {
    if Failing(c.worker) {
      FailingKeepsWorker(c, f, opens);
    } else if Opening(c.worker) {
      OpeningKeepsWorker(c, f, opens);
    } else {
      LoopingKeepsWorker(c, f, opens);
    }
  }

  lemma FailingKeepsFailure(c: Control, f: Faults, opens: bool, renderers: seq<Renderer>)
    requires LockKept(c, renderers) && WorkerKept(c, f.epochs) && FailureKept(c) && Failing(c.worker)
    ensures FailureKept(StepWorker(c, f, opens))
  {
  }

  lemma RunningKeepsFailure(c: Control, f: Faults, opens: bool)
    requires FailureKept(c) && !Failing(c.worker)
    ensures FailureKept(StepWorker(c, f, opens))
  {
  }

  lemma WorkerKeepsFailure(c: Control, f: Faults, opens: bool, renderers: seq<Renderer>)
    requires LockKept(c, renderers) && WorkerKept(c, f.epochs) && FailureKept(c)
    ensures FailureKept(StepWorker(c, f, opens))
  {
    if Failing(c.worker) {
      FailingKeepsFailure(c, f, opens, renderers);
    } else {
      RunningKeepsFailure(c, f, opens);
    }
  }

  lemma WorkerKeepsFaults(c: Control, f: Faults, opens: bool, renderers: seq<Renderer>)
    requires FaultsKept(f) && RenderersKept(c.generation, f.epochs, renderers)
    ensures FaultsKept(WorkerFaults(c, f)) && RenderersKept(c.generation, WorkerFaults(c, f).epochs, renderers)
  {
  }

  lemma WorkerKeepsWake(c: Control, f: Faults, opens: bool)
    requires WakeKept(c, f)
    ensures WakeKept(StepWorker(c, f, opens), WorkerFaults(c, f))
  {
  }

  /** Only a failure of the generation in force pauses the player, and only its own stream is dropped. */
  lemma WorkerKeepsLog(c: Control, f: Faults, log: Log)
    requires WorkerKept(c, f.epochs) && LogKept(log)
    ensures LogKept(WorkerLog(c, f, log))
  {
  }

  lemma ReporterKeepsFaults(f: Faults, i: nat)
    requires FaultsKept(f) && i < |f.reporters|
    ensures FaultsKept(StepReporter(f, i))
  {
  }

  /** Publishing leaves the unpark of the same callback to come; making it leaves the token. */
  lemma ReporterKeepsWake(c: Control, f: Faults, i: nat)
    requires WakeKept(c, f) && FaultsKept(f) && i < |f.reporters|
    ensures WakeKept(c.(token := c.token || Unparks(f, i)), StepReporter(f, i))
  {
    var d, g := c.(token := c.token || Unparks(f, i)), StepReporter(f, i);
    if d.worker.Park? && Ready(g, d.active) && !d.token {
      var e := d.active.value;
      if Ready(f, c.active) {
        var w :| 0 <= w < |f.reporters| && f.reporters[w] == Reporter(e, Unpark);
        assert g.reporters[w] == Reporter(e, Unpark);
      } else {
        assert g.reporters[i] == Reporter(e, Unpark);
      }
    }
  }

  lemma RendererKeepsLock(s: State, i: nat, stops: bool)
    requires LockKept(s.ctl, s.renders.renderers) && i < |s.renders.renderers|
    requires RenderersKept(s.ctl.generation, s.faults.epochs, s.renders.renderers)
    ensures var t := StepRenderer(s, i, stops); LockKept(t.ctl, t.renders.renderers)
  {
    var r := s.renders.renderers[i];
    assert RendererKept(s.ctl.generation, s.faults.epochs, r);
    assert s.ctl.lock == Some(ByRenderer(i)) <==> HoldsLock(r.pc);
  }

  lemma RendererKeepsRest(s: State, i: nat, stops: bool)
    requires Inv(s) && i < |s.renders.renderers|
    ensures var t := StepRenderer(s, i, stops);
            && WorkerKept(t.ctl, t.faults.epochs) && FailureKept(t.ctl) && WakeKept(t.ctl, t.faults) && LogKept(t.log)
  {
    var r := s.renders.renderers[i];
    assert RendererKept(s.ctl.generation, s.faults.epochs, r);
    assert s.ctl.lock == Some(ByRenderer(i)) <==> HoldsLock(r.pc);
  }

  lemma RendererKeepsRenderers(s: State, i: nat, stops: bool)
    requires RenderersKept(s.ctl.generation, s.faults.epochs, s.renders.renderers) && i < |s.renders.renderers|
    ensures var t := StepRenderer(s, i, stops); RenderersKept(t.ctl.generation, t.faults.epochs, t.renders.renderers)
  {
  }

  lemma SpawnKeepsWake(c: Control, f: Faults, r: Reporter)
    requires WakeKept(c, f)
    ensures WakeKept(c, f.(reporters := f.reporters + [r]))
  {
    var g := f.(reporters := f.reporters + [r]);
    if c.worker.Park? && Ready(g, c.active) && !c.token {
      var e := c.active.value;
      var w :| 0 <= w < |f.reporters| && f.reporters[w] == Reporter(e, Unpark);
      assert g.reporters[w] == Reporter(e, Unpark);
    }
  }

  lemma OthersKeep(s: State, a: Action)
    requires Inv(s) && !a.CommandStep? && !a.WorkerStep? && !a.ReporterStep? && !a.RendererStep?
    ensures Inv(Apply(s, a))
  {
    match a {
      case SpawnReporter(e) =>
        SpawnKeepsWake(s.ctl, s.faults, Reporter(e, Report));
      case _ =>
    }
  }

  lemma CommandStepKeeps(s: State, accepted: bool, plays: bool)
    requires Inv(s)
    ensures Inv(Apply(s, CommandStep(accepted, plays)))
  {
    var c, f, renderers := s.ctl, s.faults, s.renders.renderers;
    CommandKeepsLock(c, accepted, plays, renderers);
    CommandKeepsWorker(c, accepted, plays, f.epochs, renderers);
    CommandKeepsFailure(c, accepted, plays);
    CommandKeepsRenderers(c, accepted, plays, f.epochs, renderers);
    CommandKeepsWake(c, accepted, plays, f);
  }

  lemma WorkerStepKeeps(s: State, opens: bool)
    requires Inv(s)
    ensures Inv(Apply(s, WorkerStep(opens)))
  {
    var c, f, renderers := s.ctl, s.faults, s.renders.renderers;
    WorkerKeepsLock(c, f, opens, renderers);
    WorkerKeepsItself(c, f, opens);
    WorkerKeepsFailure(c, f, opens, renderers);
    WorkerKeepsFaults(c, f, opens, renderers);
    WorkerKeepsWake(c, f, opens);
    WorkerKeepsLog(c, f, s.log);
  }

  lemma ReporterStepKeeps(s: State, i: nat)
    requires Inv(s)
    ensures Inv(Apply(s, ReporterStep(i)))
  {
    if i < |s.faults.reporters| {
      ReporterKeepsFaults(s.faults, i);
      ReporterKeepsWake(s.ctl, s.faults, i);
    }
  }

  lemma RendererStepKeeps(s: State, i: nat, stops: bool)
    requires Inv(s)
    ensures Inv(Apply(s, RendererStep(i, stops)))
  {
    if i < |s.renders.renderers| {
      RendererKeepsLock(s, i, stops);
      RendererKeepsRest(s, i, stops);
      RendererKeepsRenderers(s, i, stops);
    }
  }

  lemma StepKeeps(s: State, a: Action)
    requires Inv(s)
    ensures Inv(Apply(s, a))
  {
    match a {
      case CommandStep(accepted, plays) => CommandStepKeeps(s, accepted, plays);
      case WorkerStep(opens) => WorkerStepKeeps(s, opens);
      case ReporterStep(i) => ReporterStepKeeps(s, i);
      case RendererStep(i, stops) => RendererStepKeeps(s, i, stops);
      case _ => OthersKeep(s, a);
    }
  }

  lemma {:induction false} InvariantAlways(actions: seq<Action>, n: nat)
    requires n <= |actions|
    ensures Inv(Run(Initial(), actions, n))
  {
    if n > 0 {
      InvariantAlways(actions, n - 1);
      StepKeeps(Run(Initial(), actions, n - 1), actions[n - 1]);
    }
  }

  lemma FaultsAlways(actions: seq<Action>, n: nat)
    requires n <= |actions|
    ensures FaultsKept(Run(Initial(), actions, n).faults)
  {
    InvariantAlways(actions, n);
  }

  // ---------------------------------------------------------------- what it means

  /** The worker sleeps and nothing is there to wake it. */
  predicate Asleep(s: State) { s.ctl.worker.Park? && !s.ctl.token }

  /** No lost wake-up: in every interleaving, a sleeping worker with work pending has an unpark still to come. */
  lemma NoLostWakeUp(actions: seq<Action>, n: nat)
    requires n <= |actions|
    ensures var s := Run(Initial(), actions, n);
            Asleep(s) ==>
              && (RequestPending(s.ctl) ==> CommandWillWake(s.ctl))
              && (Ready(s.faults, s.ctl.active) ==> ReporterWillWake(s.faults, s.ctl.active.value))
  {
    InvariantAlways(actions, n);
  }

  /** Only between bumping the generation and writing the request does the request lag behind. */
  predicate RequestCurrent(c: Control) {
    !(c.command.Bumped? || c.command.Cleared? || c.command.Released?) ==> c.request.generation == c.generation
  }

  lemma StepKeepsRequest(s: State, a: Action)
    requires RequestCurrent(s.ctl)
    ensures RequestCurrent(Apply(s, a).ctl)
  {
  }

  lemma {:induction false} RequestIsCurrent(actions: seq<Action>, n: nat)
    requires n <= |actions|
    ensures RequestCurrent(Run(Initial(), actions, n).ctl)
  {
    if n > 0 {
      RequestIsCurrent(actions, n - 1);
      StepKeepsRequest(Run(Initial(), actions, n - 1), actions[n - 1]);
    }
  }

  /** When the command thread is idle and every started error callback has returned, a sleeping worker is up to date:
      it has acted on the newest generation, no shutdown waits, and its stream has no fault to take. */
  lemma QuiescentIsUpToDate(actions: seq<Action>, n: nat)
    requires n <= |actions|
    ensures var s := Run(Initial(), actions, n);
            Asleep(s) && s.ctl.command.Idle?
            && (forall i | 0 <= i < |s.faults.reporters| :: s.faults.reporters[i].pc.Reported?) ==>
              s.ctl.seen == s.ctl.generation == s.ctl.request.generation && !s.ctl.request.shutdown
              && !Ready(s.faults, s.ctl.active)
  {
    InvariantAlways(actions, n);
    RequestIsCurrent(actions, n);
  }

  predicate ShutdownStays(c: Control) { c.command.ShutdownWritten? || c.command.Joining? ==> c.request.shutdown }

  lemma StepKeepsShutdown(s: State, a: Action)
    requires ShutdownStays(s.ctl)
    ensures ShutdownStays(Apply(s, a).ctl)
  {
  }

  lemma {:induction false} JoinHasShutdown(actions: seq<Action>, n: nat)
    requires n <= |actions|
    ensures ShutdownStays(Run(Initial(), actions, n).ctl)
  {
    if n > 0 {
      JoinHasShutdown(actions, n - 1);
      StepKeepsShutdown(Run(Initial(), actions, n - 1), actions[n - 1]);
    }
  }

  /** `drop` never joins a worker that sleeps: its request is there, and so is the token. */
  lemma JoinNeverHangs(actions: seq<Action>, n: nat)
    requires n <= |actions|
    ensures var s := Run(Initial(), actions, n); s.ctl.command.Joining? ==> !Asleep(s)
  {
    InvariantAlways(actions, n);
    JoinHasShutdown(actions, n);
  }

  /** Generation safety: whenever the player lock is free, a visible failure is the current generation's and the player
      is silent. */
  lemma VisibleFailureIsCurrent(actions: seq<Action>, n: nat)
    requires n <= |actions|
    ensures var s := Run(Initial(), actions, n); s.ctl.lock.None? ==> FailureCurrent(s.ctl)
  {
    InvariantAlways(actions, n);
  }

  /** Over the whole run an obsolete epoch never paused the player, never sounded or advanced it, never had a newer
      stream dropped, and never had its error handed to the caller. */
  lemma ObsoleteEpochsHaveNoEffect(actions: seq<Action>, n: nat)
    requires n <= |actions|
    ensures LogKept(Run(Initial(), actions, n).log)
  {
    InvariantAlways(actions, n);
  }

  /** Each epoch hands its fault out at most once, exactly when HANDLED, and never before it is stored; every report
      but the first is counted. */
  lemma FaultsAreCounted(actions: seq<Action>, n: nat, e: nat)
    requires n <= |actions| && e < |Run(Initial(), actions, n).faults.epochs|
    ensures var epoch := Run(Initial(), actions, n).faults.epochs[e];
            && epoch.handed <= 1 && (epoch.handed == 1 ==> epoch.fault.Some?)
            && (epoch.reports > 0 ==> epoch.repeated == epoch.reports - 1)
            && (epoch.reports == 0 ==> epoch.repeated == 0 && epoch.fault.None?)
  {
    FaultsAlways(actions, n);
    assert EpochKept(Run(Initial(), actions, n).faults.epochs[e]);
  }

  /** Epoch `e` holds this very fault. */
  predicate Holds(f: Faults, e: nat, fault: nat) { e < |f.epochs| && f.epochs[e].fault == Some(fault) }

  lemma NextHolds(actions: seq<Action>, n: nat, e: nat, fault: nat)
    requires n < |actions| && Holds(Run(Initial(), actions, n).faults, e, fault)
    ensures Holds(Run(Initial(), actions, n + 1).faults, e, fault)
  {
    FaultsAlways(actions, n);
    StepKeepsFault(Run(Initial(), actions, n), actions[n], e);
  }

  /** A stored fault is never replaced. */
  lemma {:induction false} FirstFaultStays(actions: seq<Action>, m: nat, n: nat, e: nat, fault: nat)
    requires m <= n <= |actions| && Holds(Run(Initial(), actions, m).faults, e, fault)
    ensures Holds(Run(Initial(), actions, n).faults, e, fault)
    decreases n - m
  {
    if m < n {
      NextHolds(actions, m, e, fault);
      FirstFaultStays(actions, m + 1, n, e, fault);
    }
  }

  lemma StepKeepsFault(s: State, a: Action, e: nat)
    requires FaultsKept(s.faults) && e < |s.faults.epochs|
    ensures e < |Apply(s, a).faults.epochs|
    ensures s.faults.epochs[e].fault.Some? ==> Apply(s, a).faults.epochs[e].fault == s.faults.epochs[e].fault
  {
    if a.ReporterStep? && a.i < |s.faults.reporters| {
      assert ReporterKept(s.faults.epochs, s.faults.reporters[a.i]);
    }
  }
}
