/** The interactive BlendShape futures (crates/audio2face3d/src/audio2face.rs): the host one runs every frame
    as a job and calls back on the poll that finds it done; the device one computes inside the poll. */
module Interactive {
  import opened Common

  /** All frames in order, or one frame at random access. */
  datatype Pass = Ordered | Single(frame: nat)

  /** What a future is asked for: the pass over `total` frames, and what the callback answers for each frame. */
  datatype Plan = Plan(pass: Pass, total: nat, callback: nat -> bool) {
    /** How many callbacks a complete pass makes. */
    function Length(): nat { if pass.Ordered? then total else 1 }

    /** The frame of the `i`-th callback. */
    function FrameAt(i: nat): nat { if pass.Ordered? then i else pass.frame }

    /** The answer to the `i`-th callback. */
    predicate Agrees(i: nat) { callback(FrameAt(i)) }
  }

  datatype Status = Complete | Interrupted

  datatype Report = Report(status: Status, emitted: nat)

  datatype PassError = JobError | MissingResult | LayerError | PoisonedResult | QueueError

  datatype Poll = Pending | Ready(result: Result<Report, PassError>)

  /** The interrupt generation as one poll reads it, in the order of its reads. */
  datatype Loads = Loads(capture: nat, check: nat, after: nat, decide: nat) {
    /** The counter only ever grows. */
    predicate Growing(from: nat) { from <= capture <= check <= after <= decide }

    /** Nobody interrupts: every read sees the generation the pass started with. */
    predicate Quiet(generation: nat) { capture == check == after == decide == generation }
  }

  /** The generation a poll compares with: the first poll captures it. */
  function Base(generation: Option<nat>, loads: Loads): nat {
    if generation.Some? then generation.value else loads.capture
  }

  /** The reads of one poll, given the generation captured before. */
  predicate Counted(generation: Option<nat>, loads: Loads) {
    loads.Growing(if generation.Some? then generation.value else 0)
  }

  // ---------------------------------------------------------------- what a pass must come to

  /** Without interrupts or errors: stop after the first callback that declines, else complete. */
  function Outcome(plan: Plan, from: nat): Report
    requires from <= plan.Length()
    decreases plan.Length() - from
  {
    if from == plan.Length() then Report(Complete, from)
    else if !plan.Agrees(from) then Report(Interrupted, from + 1)
    else Outcome(plan, from + 1)
  }

  /** An ordered pass completes exactly when the callback agrees to every frame, and otherwise ends with the first one
      it declines; a single frame completes exactly when the callback agrees to it. */
  lemma {:induction false} OutcomeMeans(plan: Plan, from: nat)
    requires from <= plan.Length()
    ensures var r := Outcome(plan, from);
            && from <= r.emitted <= plan.Length()
            && (r.status.Complete? ==> r.emitted == plan.Length()) && (r.status.Interrupted? ==> from < r.emitted)
    ensures plan.pass.Ordered? ==>
              var r := Outcome(plan, from);
              && (r.status.Complete? <==> forall i: nat | from <= i < plan.total :: plan.callback(i))
              && (r.status.Interrupted? ==> !plan.callback(r.emitted - 1))
              && (forall i: nat | from <= i < r.emitted - 1 :: plan.callback(i))
    ensures plan.pass.Single? && from == 0 ==>
              Outcome(plan, from) == Report(if plan.callback(plan.pass.frame) then Complete else Interrupted, 1)
    decreases plan.Length() - from
  {
    if from < plan.Length() && plan.Agrees(from) {
      OutcomeMeans(plan, from + 1);
    }
  }

  /** The frames of the first n callbacks, or of the first n jobs. */
  function Frames(plan: Plan, n: nat): (r: seq<nat>)
    ensures |r| == n
  {
    if n == 0 then [] else Frames(plan, n - 1) + [plan.FrameAt(n - 1)]
  }

  /** An ordered pass takes the frames 0, 1, 2 and so on, a single one only its own. */
  lemma {:induction false} FramesInOrder(plan: Plan, n: nat)
    ensures plan.pass.Ordered? ==> forall i: nat | i < n :: Frames(plan, n)[i] == i
    ensures plan.pass.Single? ==> forall i: nat | i < n :: Frames(plan, n)[i] == plan.pass.frame
  {
    if n > 0 {
      FramesInOrder(plan, n - 1);
    }
  }

  /** The first n callbacks answered with yes. */
  predicate Agreed(plan: Plan, n: nat) { n == 0 || (Agreed(plan, n - 1) && plan.Agrees(n - 1)) }

  lemma {:induction false} AgreedMeans(plan: Plan, n: nat)
    ensures plan.pass.Ordered? ==> (Agreed(plan, n) <==> forall i: nat | i < n :: plan.callback(i))
    ensures plan.pass.Single? ==> (Agreed(plan, n) <==> n == 0 || plan.callback(plan.pass.frame))
  {
    if n > 0 {
      AgreedMeans(plan, n - 1);
    }
  }

  lemma {:induction false} OutcomeOfCalls(plan: Plan, n: nat)
    requires n <= plan.Length() && Agreed(plan, n)
    ensures Outcome(plan, 0) == Outcome(plan, n)
  {
    if n > 0 {
      OutcomeOfCalls(plan, n - 1);
    }
  }

  /** Whether the pass ends with its `emitted`-th callback, and how. */
  function AfterCallback(plan: Plan, generation: nat, loads: Loads, emitted: nat): Option<Report>
    requires emitted > 0
  {
    var keepGoing := plan.Agrees(emitted - 1);
    if !keepGoing || loads.after != generation || plan.pass.Single? || emitted >= plan.total
    then Some(Report(if !keepGoing || loads.decide != generation then Interrupted else Complete, emitted))
    else None
  }

  /** Undisturbed, the callback that ends the pass ends it as the callbacks alone decide. */
  lemma EndsAsAgreed(plan: Plan, generation: nat, loads: Loads, emitted: nat)
    requires 0 < emitted <= plan.Length() && Agreed(plan, emitted - 1) && loads.Quiet(generation)
    ensures var end := AfterCallback(plan, generation, loads, emitted);
            && (end.Some? ==> end.value == Outcome(plan, 0))
            && (end.None? ==> Agreed(plan, emitted) && plan.pass.Ordered? && emitted < plan.total)
  {
    OutcomeOfCalls(plan, emitted - 1);
    assert Outcome(plan, emitted - 1) == if plan.Agrees(emitted - 1) then Outcome(plan, emitted)
        else Report(Interrupted, emitted);
  }

  // ---------------------------------------------------------------- the host pass as a value

  datatype JobPoll = Running | JobFailed | JobDone

  datatype Stored = Weights | WorkerError | Nothing | Poisoned

  /** What one poll of the host future meets. */
  datatype HostInput = HostInput(loads: Loads, job: JobPoll, stored: Stored, enqueues: bool) {
    predicate Undisturbed(generation: nat) {
      loads.Quiet(generation) && !job.JobFailed? && stored.Weights? && enqueues
    }
  }

  /** `calls` and `jobs` are the histories of callbacks and of started jobs. */
  datatype Host = Host(pending: bool, finished: bool, generation: Option<nat>, emitted: nat, calls: seq<nat>,
                       jobs: seq<nat>)

  /** The callbacks so far are the frames in order, all but possibly the last one answered with yes; at most one
      job is outstanding, and it is for the frame of the next callback. */
  predicate HostKept(plan: Plan, h: Host) {
    && h.emitted == |h.calls| <= plan.Length()
    && h.calls == Frames(plan, |h.calls|) && h.jobs == Frames(plan, |h.jobs|)
    && h.emitted <= |h.jobs| <= h.emitted + 1
    && Agreed(plan, if h.finished && h.calls != [] then h.emitted - 1 else h.emitted)
    && (!h.finished ==>
          && |h.jobs| == (if h.pending then h.emitted + 1 else h.emitted)
          && (h.generation.None? ==> h.jobs == [])
          && (plan.pass.Single? ==> h.emitted == 0)
          && (h.pending ==> h.emitted < plan.Length()))
  }

  /** In every state of an ordered pass the callbacks so far were for the frames 0, 1, 2 and so on, and so were the
      jobs; of a single pass they were for its frame, and there was at most one callback. */
  lemma HostInOrder(plan: Plan, h: Host)
    requires HostKept(plan, h)
    ensures plan.pass.Ordered? ==>
              && |h.calls| <= plan.total && |h.calls| <= |h.jobs| <= |h.calls| + 1
              && (forall i: nat | i < |h.calls| :: h.calls[i] == i) && (forall i: nat | i < |h.jobs| :: h.jobs[i] == i)
              && (forall i: nat | i < |h.calls| - 1 :: plan.callback(i))
    ensures plan.pass.Single? ==>
              && (h.calls == [] || h.calls == [plan.pass.frame])
              && (forall i: nat | i < |h.jobs| :: h.jobs[i] == plan.pass.frame)
  {
    FramesInOrder(plan, |h.calls|);
    FramesInOrder(plan, |h.jobs|);
    AgreedMeans(plan, if h.finished && h.calls != [] then h.emitted - 1 else h.emitted);
  }

  function StoredError(stored: Stored): PassError
    requires !stored.Weights?
  {
    match stored case WorkerError => LayerError case Nothing => MissingResult case Poisoned => PoisonedResult
  }

  /** A finished job's result is taken and called back with; None when the pass goes on. */
  function HostCollected(plan: Plan, h: Host, input: HostInput): (Host, Option<Result<Report, PassError>>)
    requires h.generation.Some?
  {
    if input.job.JobFailed? then (h.(finished := true), Some(Err(JobError)))
    else if !input.stored.Weights? then (h.(pending := false, finished := true), Some(Err(StoredError(input.stored))))
    else
      var d := h.(pending := false, emitted := h.emitted + 1, calls := h.calls + [plan.FrameAt(h.emitted)]);
      match AfterCallback(plan, h.generation.value, input.loads, d.emitted)
      case Some(report) => (d.(finished := true), Some(Ok(report)))
      case None => (d, None)
  }

  /** The pass ends at its total, or the job of the next frame is started. */
  function HostStarted(plan: Plan, h: Host, enqueues: bool): (Host, Poll) {
    if plan.pass.Ordered? && h.emitted >= plan.total then (h.(finished := true), Ready(Ok(Report(Complete, h.emitted))))
    else if !enqueues then (h.(finished := true), Ready(Err(QueueError)))
    else (h.(pending := true, jobs := h.jobs + [plan.FrameAt(h.emitted)]), Pending)
  }

  /** What a poll does that finds no job running. */
  function HostAdvanced(plan: Plan, h: Host, input: HostInput): (Host, Poll)
    requires h.generation.Some?
  {
    if !h.pending then HostStarted(plan, h, input.enqueues)
    else
      match HostCollected(plan, h, input)
      case (d, Some(result)) => (d, Ready(result))
      case (d, None) => HostStarted(plan, d, input.enqueues)
  }

  /** One poll. */
  function HostPolled(plan: Plan, h: Host, input: HostInput): (Host, Poll) {
    var g := h.(generation := Some(Base(h.generation, input.loads)));
    if input.loads.check != g.generation.value then (g.(finished := true), Ready(Ok(Report(Interrupted, g.emitted))))
    else if g.pending && input.job.Running? then (g, Pending)
    else HostAdvanced(plan, g, input)
  }

  lemma HostCollectedKeeps(plan: Plan, h: Host, input: HostInput)
    requires HostKept(plan, h) && !h.finished && h.pending && h.generation.Some?
    ensures HostKept(plan, HostCollected(plan, h, input).0)
    ensures HostCollected(plan, h, input).1.Some? <==> HostCollected(plan, h, input).0.finished
  {
  }

  lemma HostStartedKeeps(plan: Plan, h: Host, enqueues: bool)
    requires HostKept(plan, h) && !h.finished && !h.pending && h.generation.Some?
    ensures HostKept(plan, HostStarted(plan, h, enqueues).0)
    ensures HostStarted(plan, h, enqueues).1.Ready? <==> HostStarted(plan, h, enqueues).0.finished
  {
  }

  /** Every poll keeps the order of callbacks and jobs, makes at most one callback and starts at most one job. */
  lemma HostPollKeeps(plan: Plan, h: Host, input: HostInput)
    requires HostKept(plan, h) && !h.finished
    ensures var (d, r) := HostPolled(plan, h, input);
            && HostKept(plan, d) && (r.Ready? <==> d.finished)
            && d.generation == Some(Base(h.generation, input.loads))
            && (d.calls == h.calls || d.calls == h.calls + [plan.FrameAt(h.emitted)])
            && (d.jobs == h.jobs || d.jobs == h.jobs + [plan.FrameAt(|h.jobs|)])
            && (r.Ready? && r.result.Ok? ==> r.result.value.emitted == d.emitted)
  {
    var g := h.(generation := Some(Base(h.generation, input.loads)));
    if input.loads.check == g.generation.value && !(g.pending && input.job.Running?) {
      if !g.pending {
        HostStartedKeeps(plan, g, input.enqueues);
      } else {
        HostCollectedKeeps(plan, g, input);
        if HostCollected(plan, g, input).1.None? {
          HostStartedKeeps(plan, HostCollected(plan, g, input).0, input.enqueues);
        }
      }
    }
  }

  /** An interrupt that the poll sees on entry ends the pass at once: no callback, no job. One that it sees after its
      callback ends the pass with that callback; no further job starts. */
  lemma HostInterrupted(plan: Plan, h: Host, input: HostInput)
    requires HostKept(plan, h) && !h.finished && Counted(h.generation, input.loads)
    ensures var ((d, r), base) := (HostPolled(plan, h, input), Base(h.generation, input.loads));
            && (input.loads.check != base ==>
                r == Ready(Ok(Report(Interrupted, h.emitted))) && d.calls == h.calls && d.jobs == h.jobs)
            && (|d.calls| > |h.calls| && input.loads.after != base ==>
                  r == Ready(Ok(Report(Interrupted, h.emitted + 1))) && d.jobs == h.jobs)
  {
  }

  /** A pass that ends without an error is Interrupted exactly when the poll saw an interrupt on entry, or its callback
      declined or was followed by one before the status was decided; else every frame was called back and agreed. */
  lemma HostStatus(plan: Plan, h: Host, input: HostInput)
    requires HostKept(plan, h) && !h.finished && Counted(h.generation, input.loads)
    ensures var (d, r) := HostPolled(plan, h, input);
            var base := Base(h.generation, input.loads);
            r.Ready? && r.result.Ok? ==>
              && (r.result.value.status.Interrupted? <==>
                    || input.loads.check != base
                    || (|d.calls| > |h.calls| && (!plan.Agrees(h.emitted) || input.loads.decide != base)))
              && (r.result.value.status.Complete? ==> d.emitted == plan.Length() && Agreed(plan, d.emitted))
  {
    var g := h.(generation := Some(Base(h.generation, input.loads)));
    if g.pending {
      HostCollectedKeeps(plan, g, input);
    }
  }

  /** Which error ends a pass: each kind exactly for its cause, and none for an interrupt seen on entry. No callback is
      made with an error, unless it is only the next job that cannot be enqueued. */
  lemma HostErrors(plan: Plan, h: Host, input: HostInput)
    requires HostKept(plan, h) && !h.finished
    ensures var (d, r) := HostPolled(plan, h, input);
            var seen := input.loads.check != Base(h.generation, input.loads);
            var done := !seen && h.pending && input.job.JobDone?;
            && (r == Ready(Err(JobError)) <==> !seen && h.pending && input.job.JobFailed?)
            && (r == Ready(Err(LayerError)) <==> done && input.stored == WorkerError)
            && (r == Ready(Err(MissingResult)) <==> done && input.stored == Nothing)
            && (r == Ready(Err(PoisonedResult)) <==> done && input.stored == Poisoned)
            && (r == Ready(Err(QueueError)) ==> !seen && !input.enqueues)
            && (!input.enqueues ==> d.jobs == h.jobs)
            && (r.Ready? && r.result.Err? && r != Ready(Err(QueueError)) ==> d.calls == h.calls)
  {
  }

  /** Undisturbed, a poll that is ready reports the outcome of the callbacks alone, and a pending one waits for a
      job. */
  lemma HostUndisturbed(plan: Plan, h: Host, input: HostInput)
    requires HostKept(plan, h) && !h.finished && input.Undisturbed(Base(h.generation, input.loads))
    ensures var (d, r) := HostPolled(plan, h, input);
            && (r.Ready? ==> r.result == Ok(Outcome(plan, 0)))
            && (r.Pending? ==>
                d.pending && d.emitted == if h.pending && input.job.JobDone? then h.emitted + 1 else h.emitted)
            && (h.pending && input.job.Running? ==> r.Pending?)
  {
    OutcomeOfCalls(plan, h.emitted);
    if h.pending && input.job.JobDone? {
      EndsAsAgreed(plan, Base(h.generation, input.loads), input.loads, h.emitted + 1);
    }
  }

  // ---------------------------------------------------------------- the host future

  class HostFuture {
    const plan: Plan
    var nextFrame: nat
    var pending: bool
    var resultSlot: bool
    var finished: bool
    var generation: Option<nat>
    var emitted: nat
    ghost var calls: seq<nat>
    ghost var jobs: seq<nat>

    ghost function View(): Host
      reads this
    {
      Host(pending, finished, generation, emitted, calls, jobs)
    }

    ghost predicate Valid()
      reads this
    {
      && HostKept(plan, View())
      && (!finished ==> pending == resultSlot && nextFrame == (if plan.pass.Ordered? then emitted else 0))
    }

    constructor (request: Plan)
      ensures Valid() && plan == request && View() == Host(false, false, None, 0, [], [])
    {
      plan := request;
      nextFrame, pending, resultSlot, finished, generation, emitted := 0, false, false, false, None, 0;
      calls, jobs := [], [];
    }

    /** A finished future must not be polled; the source panics. */
    method Poll(input: HostInput) returns (r: Poll)
      requires Valid() && !finished && Counted(generation, input.loads)
      modifies this
      ensures Valid() && (View(), r) == HostPolled(plan, old(View()), input)
      ensures r.Ready? <==> finished
      ensures input.loads.check != generation.value ==>
                r == Ready(Ok(Report(Interrupted, emitted))) && calls == old(calls) && jobs == old(jobs)
      ensures |calls| > |old(calls)| && input.loads.after != generation.value ==>
                r == Ready(Ok(Report(Interrupted, emitted))) && jobs == old(jobs)
    {
      HostPollKeeps(plan, View(), input);
      HostInterrupted(plan, View(), input);
      if generation.None? {
        generation := Some(input.loads.capture);
      }
      if input.loads.check != generation.value {
        finished := true;
        return Ready(Ok(Report(Interrupted, emitted)));
      }
      if pending && input.job.Running? {
        return Pending;
      }
      r := Advance(input);
    }

    /** The part of a poll that finds no job running. */
    method Advance(input: HostInput) returns (r: Poll)
      requires Valid() && !finished && !(pending && input.job.Running?) && generation.Some?
      modifies this
      ensures Valid() && (View(), r) == HostAdvanced(plan, old(View()), input)
    {
      if pending {
        HostCollectedKeeps(plan, View(), input);
        var done := Collect(input);
        if done.Some? {
          return Ready(done.value);
        }
      }
      r := Start(input.enqueues);
    }

    /** The part of a poll that takes a finished job's result and calls back; None when the pass goes on. */
    method Collect(input: HostInput) returns (r: Option<Result<Report, PassError>>)
      requires Valid() && !finished && pending && !input.job.Running? && generation.Some?
      modifies this
      ensures (View(), r) == HostCollected(plan, old(View()), input)
      ensures r.None? ==> Valid()
    {
      HostCollectedKeeps(plan, View(), input);
      if input.job.JobFailed? {
        finished := true;
        return Some(Err(JobError));
      }
      pending := false;
      if !resultSlot {
        assert false;
      }
      resultSlot := false;
      if !input.stored.Weights? {
        finished := true;
        return Some(Err(StoredError(input.stored)));
      }
      var frame := plan.FrameAt(nextFrame);
      var keepGoing := plan.callback(frame);
      calls := calls + [frame];
      emitted := emitted + 1;
      if plan.pass.Ordered? {
        nextFrame := nextFrame + 1;
      }
      if !keepGoing || input.loads.after != generation.value || plan.pass.Single? || nextFrame >= plan.total {
        finished := true;
        var status := if !keepGoing || input.loads.decide != generation.value then Interrupted else Complete;
        return Some(Ok(Report(status, emitted)));
      }
      return None;
    }

    /** The part of a poll that ends the pass or starts the job of the next frame. */
    method Start(enqueues: bool) returns (r: Poll)
      requires Valid() && !finished && !pending && generation.Some?
      modifies this
      ensures (View(), r) == HostStarted(plan, old(View()), enqueues)
      ensures Valid()
    {
      HostStartedKeeps(plan, View(), enqueues);
      if plan.pass.Ordered? && nextFrame >= plan.total {
        finished := true;
        return Ready(Ok(Report(Complete, emitted)));
      }
      if !enqueues {
        finished := true;
        return Ready(Err(QueueError));
      }
      jobs := jobs + [plan.FrameAt(nextFrame)];
      pending, resultSlot := true, true;
      return Pending;
    }
  }

  // ---------------------------------------------------------------- the device pass as a value

  /** The layer's answer to one frame: it called back exactly once and passed the answer on, or it failed. */
  datatype Computed = CalledBack | LayerFailed(called: bool)

  /** What one poll of the device future meets. */
  datatype DeviceInput = DeviceInput(loads: Loads, begins: bool, computed: Computed) {
    predicate Undisturbed(generation: nat) { loads.Quiet(generation) && begins && computed.CalledBack? }
  }

  datatype Device = Device(started: bool, finished: bool, generation: Option<nat>, emitted: nat, calls: seq<nat>)

  /** The callbacks so far are the frames in order; all but possibly the last one count as emitted and agreed. */
  predicate DeviceKept(plan: Plan, v: Device) {
    && v.emitted <= |v.calls| <= v.emitted + 1 && |v.calls| <= plan.Length()
    && v.calls == Frames(plan, |v.calls|)
    && Agreed(plan, if v.finished && v.calls != [] then |v.calls| - 1 else |v.calls|)
    && (!v.finished ==> v.emitted == |v.calls| && (plan.pass.Single? ==> v.emitted == 0))
  }

  /** The same order for the callbacks of a device pass. */
  lemma DeviceInOrder(plan: Plan, v: Device)
    requires DeviceKept(plan, v)
    ensures plan.pass.Ordered? ==>
              && |v.calls| <= plan.total && (forall i: nat | i < |v.calls| :: v.calls[i] == i)
              && (forall i: nat | i < |v.calls| - 1 :: plan.callback(i))
    ensures plan.pass.Single? ==> v.calls == [] || v.calls == [plan.pass.frame]
  {
    FramesInOrder(plan, |v.calls|);
    AgreedMeans(plan, if v.finished && v.calls != [] then |v.calls| - 1 else |v.calls|);
  }

  /** The frame computed in this poll, and the end of the pass if it is one. */
  function DeviceComputed(plan: Plan, v: Device, input: DeviceInput): (Device, Poll)
    requires v.generation.Some?
  {
    var called := input.computed.CalledBack? || input.computed.called;
    var d := v.(calls := if called then v.calls + [plan.FrameAt(v.emitted)] else v.calls);
    if input.computed.LayerFailed? then (d.(finished := true), Ready(Err(LayerError)))
    else
      match AfterCallback(plan, v.generation.value, input.loads, v.emitted + 1)
      case Some(report) => (d.(emitted := v.emitted + 1, finished := true), Ready(Ok(report)))
      case None => (d.(emitted := v.emitted + 1), Pending)
  }

  /** One poll. */
  function DevicePolled(plan: Plan, v: Device, input: DeviceInput): (Device, Poll) {
    var g := v.(generation := Some(Base(v.generation, input.loads)));
    if input.loads.check != g.generation.value then (g.(finished := true), Ready(Ok(Report(Interrupted, g.emitted))))
    else if plan.pass.Ordered? && !g.started && !input.begins then (g.(finished := true), Ready(Err(LayerError)))
    else
      var d := g.(started := g.started || plan.pass.Ordered?);
      if plan.pass.Ordered? && d.emitted >= plan.total
          then (d.(finished := true), Ready(Ok(Report(Complete, d.emitted))))
      else DeviceComputed(plan, d, input)
  }

  /** Every poll keeps the order of the callbacks and makes at most one. */
  lemma DevicePollKeeps(plan: Plan, v: Device, input: DeviceInput)
    requires DeviceKept(plan, v) && !v.finished
    ensures var (d, r) := DevicePolled(plan, v, input);
            && DeviceKept(plan, d) && (r.Ready? <==> d.finished)
            && d.generation == Some(Base(v.generation, input.loads))
            && (d.calls == v.calls || d.calls == v.calls + [plan.FrameAt(v.emitted)])
            && (r.Ready? && r.result.Ok? ==> r.result.value.emitted == d.emitted == |d.calls|)
  {
  }

  /** The same for interrupts: on entry without a callback, after a successful callback with it. */
  lemma DeviceInterrupted(plan: Plan, v: Device, input: DeviceInput)
    requires Counted(v.generation, input.loads)
    ensures var ((d, r), base) := (DevicePolled(plan, v, input), Base(v.generation, input.loads));
            && (input.loads.check != base ==> r == Ready(Ok(Report(Interrupted, v.emitted))) && d.calls == v.calls)
            && (|d.calls| > |v.calls| && input.computed.CalledBack? && input.loads.after != base ==>
                  r == Ready(Ok(Report(Interrupted, v.emitted + 1))))
  {
  }

  /** Which ending is which, exactly as for the host pass. */
  lemma DeviceStatus(plan: Plan, v: Device, input: DeviceInput)
    requires DeviceKept(plan, v) && !v.finished && Counted(v.generation, input.loads)
    ensures var (d, r) := DevicePolled(plan, v, input);
            var base := Base(v.generation, input.loads);
            r.Ready? && r.result.Ok? ==>
              && (r.result.value.status.Interrupted? <==>
                    || input.loads.check != base
                    || (|d.calls| > |v.calls| && (!plan.Agrees(v.emitted) || input.loads.decide != base)))
              && (r.result.value.status.Complete? ==> d.emitted == plan.Length() && Agreed(plan, d.emitted))
  {
  }

  /** The device pass fails exactly when the layer cannot begin or fails on the frame that is due. */
  lemma DeviceErrors(plan: Plan, v: Device, input: DeviceInput)
    requires DeviceKept(plan, v) && !v.finished
    ensures var (d, r) := DevicePolled(plan, v, input);
            var seen := input.loads.check != Base(v.generation, input.loads);
            var starts := plan.pass.Ordered? && !v.started;
            (r.Ready? && r.result.Err? <==>
               !seen && ((starts && !input.begins)
                         || (v.emitted < plan.Length() && input.computed.LayerFailed? && (starts ==> input.begins))))
            && (r.Ready? && r.result.Err? ==> r.result.error == LayerError && d.emitted == v.emitted)
  {
  }

  lemma DeviceUndisturbed(plan: Plan, v: Device, input: DeviceInput)
    requires DeviceKept(plan, v) && !v.finished && input.Undisturbed(Base(v.generation, input.loads))
    ensures var (d, r) := DevicePolled(plan, v, input);
            && (r.Ready? ==> r.result == Ok(Outcome(plan, 0)))
            && (r.Pending? ==> d.emitted == v.emitted + 1)
  {
    OutcomeOfCalls(plan, v.emitted);
    if !(plan.pass.Ordered? && v.emitted >= plan.total) {
      EndsAsAgreed(plan, Base(v.generation, input.loads), input.loads, v.emitted + 1);
    }
  }

  // ---------------------------------------------------------------- the device future

  class DeviceFuture {
    const plan: Plan
    var nextFrame: nat
    var started: bool
    var finished: bool
    var generation: Option<nat>
    var emitted: nat
    ghost var calls: seq<nat>

    ghost function View(): Device
      reads this
    {
      Device(started, finished, generation, emitted, calls)
    }

    ghost predicate Valid()
      reads this
    {
      DeviceKept(plan, View()) && (!finished ==> nextFrame == if plan.pass.Ordered? then emitted else 0)
    }

    constructor (request: Plan)
      ensures Valid() && plan == request && View() == Device(false, false, None, 0, [])
    {
      plan := request;
      nextFrame, started, finished, generation, emitted := 0, false, false, None, 0;
      calls := [];
    }

    method Poll(input: DeviceInput) returns (r: Poll)
      requires Valid() && !finished && Counted(generation, input.loads)
      modifies this
      ensures Valid() && (View(), r) == DevicePolled(plan, old(View()), input)
      ensures r.Ready? <==> finished
      ensures input.loads.check != generation.value ==>
                r == Ready(Ok(Report(Interrupted, emitted))) && calls == old(calls)
      ensures |calls| > |old(calls)| && input.computed.CalledBack? && input.loads.after != generation.value ==>
                r == Ready(Ok(Report(Interrupted, emitted)))
    {
      DevicePollKeeps(plan, View(), input);
      DeviceInterrupted(plan, View(), input);
      if generation.None? {
        generation := Some(input.loads.capture);
      }
      if input.loads.check != generation.value {
        finished := true;
        return Ready(Ok(Report(Interrupted, emitted)));
      }
      if plan.pass.Ordered? && !started {
        if !input.begins {
          finished := true;
          return Ready(Err(LayerError));
        }
        started := true;
      }
      if plan.pass.Ordered? && nextFrame >= plan.total {
        finished := true;
        return Ready(Ok(Report(Complete, emitted)));
      }
      r := Compute(input);
    }

    /** The frame of this poll. */
    method Compute(input: DeviceInput) returns (r: Poll)
      requires Valid() && !finished && generation.Some? && (plan.pass.Ordered? ==> emitted < plan.total)
      modifies this
      ensures (View(), r) == DeviceComputed(plan, old(View()), input)
      ensures !finished ==> nextFrame == if plan.pass.Ordered? then emitted else 0
    {
      var frame := plan.FrameAt(nextFrame);
      if input.computed.CalledBack? || input.computed.called {
        calls := calls + [frame];
      }
      if plan.pass.Ordered? {
        nextFrame := nextFrame + 1;
      }
      if input.computed.LayerFailed? {
        finished := true;
        return Ready(Err(LayerError));
      }
      var keepGoing := plan.callback(frame);
      emitted := emitted + 1;
      if !keepGoing || input.loads.after != generation.value || plan.pass.Single? || nextFrame >= plan.total {
        finished := true;
        var status := if !keepGoing || input.loads.decide != generation.value then Interrupted else Complete;
        return Ready(Ok(Report(status, emitted)));
      }
      return Pending;
    }
  }

  // ---------------------------------------------------------------- whole passes

  /** What an undisturbed pass must report and call back, given the callback's answers. */
  ghost predicate Reports(plan: Plan, r: Report, frames: seq<nat>) {
    match plan.pass
    case Ordered =>
      && |frames| == r.emitted <= plan.total && (forall i: nat | i < |frames| :: frames[i] == i)
      && (forall i: nat | i < r.emitted - 1 :: plan.callback(i))
      && (r.status.Complete? ==> r.emitted == plan.total && forall i: nat | i < plan.total :: plan.callback(i))
      && (r.status.Interrupted? ==> r.emitted > 0 && !plan.callback(r.emitted - 1))
    case Single(frame) => frames == [frame] && r == Report(if plan.callback(frame) then Complete else Interrupted, 1)
  }

  lemma OutcomeReports(plan: Plan)
    ensures Reports(plan, Outcome(plan, 0), Frames(plan, Outcome(plan, 0).emitted))
  {
    OutcomeMeans(plan, 0);
    FramesInOrder(plan, Outcome(plan, 0).emitted);
  }

  /** Polls an undisturbed host pass to its end; job `i` is found running `delays(i)` times before it is done. */
  method RunHost(plan: Plan, delays: nat -> nat, generation: nat) returns (report: Report, ghost frames: seq<nat>)
    ensures report == Outcome(plan, 0) && frames == Frames(plan, report.emitted)
    ensures Reports(plan, report, frames)
  {
    var future := new HostFuture(plan);
    var done := HostInput(Loads(generation, generation, generation, generation), JobDone, Weights, true);
    HostUndisturbed(plan, future.View(), done);
    HostPollKeeps(plan, future.View(), done);
    var result := future.Poll(done);
    while result.Pending?
      invariant future.Valid() && future.plan == plan
      invariant (result.Ready? <==> future.finished) && future.generation == Some(generation)
      invariant result.Pending? ==> future.pending
      invariant result.Ready? ==> result.result == Ok(Outcome(plan, 0)) && result.result.value.emitted == future.emitted
      decreases plan.Length() - future.emitted, result.Pending?
    {
      ghost var emitted := future.emitted;
      for wait := 0 to delays(future.emitted)
        invariant future.Valid() && !future.finished && future.pending && future.emitted == emitted
        invariant future.generation == Some(generation)
      {
        HostUndisturbed(plan, future.View(), done.(job := Running));
        var still := future.Poll(done.(job := Running));
      }
      HostUndisturbed(plan, future.View(), done);
      HostPollKeeps(plan, future.View(), done);
      result := future.Poll(done);
    }
    OutcomeReports(plan);
    report, frames := result.result.value, future.calls;
  }

  /** Polls an undisturbed device pass to its end. */
  method RunDevice(plan: Plan, generation: nat) returns (report: Report, ghost frames: seq<nat>)
    ensures report == Outcome(plan, 0) && frames == Frames(plan, report.emitted)
    ensures Reports(plan, report, frames)
  {
    var future := new DeviceFuture(plan);
    var input := DeviceInput(Loads(generation, generation, generation, generation), true, CalledBack);
    DeviceUndisturbed(plan, future.View(), input);
    DevicePollKeeps(plan, future.View(), input);
    var result := future.Poll(input);
    while result.Pending?
      invariant future.Valid() && future.plan == plan
      invariant (result.Ready? <==> future.finished) && future.generation == Some(generation)
      invariant result.Ready? ==> result.result == Ok(Outcome(plan, 0)) && result.result.value.emitted == |future.calls|
      decreases plan.Length() - future.emitted, result.Pending?
    {
      DeviceUndisturbed(plan, future.View(), input);
      DevicePollKeeps(plan, future.View(), input);
      result := future.Poll(input);
    }
    OutcomeReports(plan);
    report, frames := result.result.value, future.calls;
  }

  /** Host and device futures give the same report and the same callbacks, whatever the jobs' timing. */
  method HostMatchesDevice(plan: Plan, delays: nat -> nat, g: nat, h: nat)
    returns (host: Report, device: Report, ghost hostFrames: seq<nat>, ghost deviceFrames: seq<nat>)
    ensures host == device && hostFrames == deviceFrames && Reports(plan, host, hostFrames)
  {
    host, hostFrames := RunHost(plan, delays, g);
    device, deviceFrames := RunDevice(plan, h);
  }
}
