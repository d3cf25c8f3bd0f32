/** Completion of a started execution without any async runtime (crates/audio2face3d/src/audio2x.rs):
    per-track pending counters, first errors, and the wakers of whoever waits. Every method is one region
    under the completion mutex, so a run is any sequence of them. */
module Completions {
  import opened Common

  type Waker = nat

  type Error = nat

  datatype Report = Report(executedTracks: nat, emittedFrames: nat)

  /** One track's counter, first error and waiting wakers, with its history: tasks accepted and finished,
      errors in the order reported, wakers ever registered and ever woken. */
  datatype Track = Track(
    pending: nat,
    error: Option<Error>,
    wakers: seq<Waker>,
    accepted: nat,
    finished: nat,
    failures: seq<Error>,
    registered: multiset<Waker>,
    woken: multiset<Waker>)

  datatype Completion = Completion(
    tracks: seq<Track>,
    report: Option<Report>,
    detached: bool,
    allObserved: bool,
    allWakers: seq<Waker>,
    allRegistered: multiset<Waker>,
    allWoken: multiset<Waker>)

  datatype Op =
    | AddTask(track: nat)
    | FinishSchedule(report: Report)
    | CompleteTask(track: nat, failure: Option<Error>)
    | PollAll(waker: Waker)
    | PollTrack(track: nat, waker: Waker)
    | Detach

  const EMPTY_TRACK: Track := Track(0, None, [], 0, 0, [], multiset{}, multiset{})

  function Initial(trackCount: nat): Completion {
    Completion(seq(trackCount, i => EMPTY_TRACK), None, false, false, [], multiset{}, multiset{})
  }

  // ---------------------------------------------------------------- readiness and results

  predicate Idle(t: Track) { t.pending == 0 }

  predicate AllIdle(tracks: seq<Track>) { forall i | 0 <= i < |tracks| :: Idle(tracks[i]) }

  predicate AllReady(c: Completion) { c.report.Some? && AllIdle(c.tracks) }

  predicate TrackReady(c: Completion, track: nat)
    requires track < |c.tracks|
  {
    c.report.Some? && Idle(c.tracks[track])
  }

  /** The lowest track with an error among the first `n`, if any. */
  function FirstFailing(tracks: seq<Track>, n: nat): (r: Option<nat>)
    requires n <= |tracks|
    ensures r.Some? ==>
              r.value < n && tracks[r.value].error.Some? && forall i | 0 <= i < r.value :: tracks[i].error.None?
    ensures r.None? ==> forall i | 0 <= i < n :: tracks[i].error.None?
  {
    if n == 0 then None
    else
      var rest := FirstFailing(tracks, n - 1);
      if rest.Some? then rest else if tracks[n - 1].error.Some? then Some(n - 1) else None
  }

  function ReportingTrack(c: Completion): Option<nat> { FirstFailing(c.tracks, |c.tracks|) }

  /** `all_result`; asked only when the report is there. */
  function AllResult(c: Completion): Result<Option<Report>, Error> {
    match ReportingTrack(c)
    case Some(track) => Err(c.tracks[track].error.value)
    case None => Ok(c.report)
  }

  // ---------------------------------------------------------------- the operations on values

  function Drained(t: Track, reported: bool): Track {
    if reported && Idle(t) then t.(wakers := [], woken := t.woken + multiset(t.wakers)) else t
  }

  function DrainedUpTo(tracks: seq<Track>, reported: bool, n: nat): (r: seq<Track>)
    requires n <= |tracks|
    ensures |r| == |tracks|
    ensures forall i | 0 <= i < |r| :: r[i] == if i < n then Drained(tracks[i], reported) else tracks[i]
  {
    seq(|tracks|, i requires 0 <= i < |tracks| => if i < n then Drained(tracks[i], reported) else tracks[i])
  }

  lemma DrainedStep(tracks: seq<Track>, reported: bool, n: nat)
    requires n < |tracks|
    ensures DrainedUpTo(tracks, reported, n)[n] == tracks[n]
    ensures DrainedUpTo(tracks, reported, n + 1) == DrainedUpTo(tracks, reported, n)[n := Drained(tracks[n], reported)]
    ensures !(reported && Idle(tracks[n])) ==> DrainedUpTo(tracks, reported, n + 1) == DrainedUpTo(tracks, reported, n)
  {
  }

  /** The wakers of the ready ones among the first `n` tracks. */
  function Waiters(tracks: seq<Track>, reported: bool, n: nat): seq<Waker>
    requires n <= |tracks|
  {
    if n == 0 then []
    else Waiters(tracks, reported, n - 1) + if reported && Idle(tracks[n - 1]) then tracks[n - 1].wakers else []
  }

  /** Everyone ever woken from one of the first `n` tracks. */
  function EverWoken(tracks: seq<Track>, n: nat): multiset<Waker>
    requires n <= |tracks|
  {
    if n == 0 then multiset{} else EverWoken(tracks, n - 1) + tracks[n - 1].woken
  }

  /** Draining records exactly the wakers that are handed out. */
  lemma {:induction false} DrainedAreHandedOut(tracks: seq<Track>, reported: bool, n: nat)
    requires n <= |tracks|
    ensures EverWoken(DrainedUpTo(tracks, reported, |tracks|), n) == EverWoken(tracks, n)
              + multiset(Waiters(tracks, reported, n))
  {
    if n > 0 {
      DrainedAreHandedOut(tracks, reported, n - 1);
    }
  }

  lemma {:induction false} CompletingWakesNobody(c: Completion, track: nat, failure: Option<Error>, n: nat)
    requires track < |c.tracks| && c.tracks[track].pending > 0 && n <= |c.tracks|
    ensures EverWoken(Complete(c, track, failure).tracks, n) == EverWoken(c.tracks, n)
  {
    if n > 0 {
      CompletingWakesNobody(c, track, failure, n - 1);
    }
  }

  predicate OnlyPendingWait(c: Completion) {
    forall i | 0 <= i < |c.tracks| :: c.report.Some? && Idle(c.tracks[i]) ==> c.tracks[i].wakers == []
  }

  /** Where nobody is forgotten, a completion can only release the waiters of its own track. */
  lemma {:induction false} OnlyOwnWaiters(c: Completion, track: nat, failure: Option<Error>, n: nat)
    requires track < |c.tracks| && c.tracks[track].pending > 0 && n <= |c.tracks|
    requires OnlyPendingWait(c)
    ensures Waiters(Complete(c, track, failure).tracks, c.report.Some?, n)
         == if track < n && c.report.Some? && c.tracks[track].pending == 1 then c.tracks[track].wakers else []
  {
    if n > 0 {
      OnlyOwnWaiters(c, track, failure, n - 1);
    }
  }

  /** `ready_wakers_locked`: whoever waits for something that is now ready leaves its list to be woken. */
  function Woken(c: Completion): Completion {
    var d := c.(tracks := DrainedUpTo(c.tracks, c.report.Some?, |c.tracks|));
    if AllReady(c) then d.(allWakers := [], allWoken := c.allWoken + multiset(c.allWakers)) else d
  }

  function Finished(t: Track, failure: Option<Error>): Track
    requires t.pending > 0
  {
    t.(pending := t.pending - 1, finished := t.finished + 1,
       error := if failure.Some? && t.error.None? then failure else t.error,
       failures := if failure.Some? then t.failures + [failure.value] else t.failures)
  }

  function Add(c: Completion, track: nat): Completion
    requires track < |c.tracks|
  {
    c.(tracks := c.tracks[track := c.tracks[track].(pending := c.tracks[track].pending + 1,
                                                    accepted := c.tracks[track].accepted + 1)])
  }

  function Complete(c: Completion, track: nat, failure: Option<Error>): Completion
    requires track < |c.tracks| && c.tracks[track].pending > 0
  {
    c.(tracks := c.tracks[track := Finished(c.tracks[track], failure)])
  }

  function Await(t: Track, waker: Waker): Track {
    t.(wakers := t.wakers + [waker], registered := t.registered + multiset{waker})
  }

  function AwaitTrack(c: Completion, track: nat, waker: Waker): Completion
    requires track < |c.tracks|
  {
    c.(tracks := c.tracks[track := Await(c.tracks[track], waker)])
  }

  function Step(c: Completion, op: Op): (d: Completion)
    ensures |d.tracks| == |c.tracks|
  {
    match op
    case AddTask(track) => if track < |c.tracks| then Add(c, track) else c
    case FinishSchedule(report) => Woken(c.(report := Some(report)))
    case CompleteTask(track, failure) =>
      if track < |c.tracks| && c.tracks[track].pending > 0 then Woken(Complete(c, track, failure)) else c
    case PollAll(waker) =>
      if AllReady(c) then c.(allObserved := true)
      else c.(allWakers := c.allWakers + [waker], allRegistered := c.allRegistered + multiset{waker})
    case PollTrack(track, waker) =>
      if track >= |c.tracks| || TrackReady(c, track) then c else AwaitTrack(c, track, waker)
    case Detach => if c.allObserved then c else c.(detached := true)
  }

  function Run(c: Completion, ops: seq<Op>, n: nat): (d: Completion)
    requires n <= |ops|
    ensures |d.tracks| == |c.tracks|
  {
    if n == 0 then c else Step(Run(c, ops, n - 1), ops[n - 1])
  }

  // ---------------------------------------------------------------- the invariant

  /** Counters balance, the error is the first one reported, and each registered waker waits or was woken once. */
  predicate TrackKept(t: Track) {
    && t.accepted == t.finished + t.pending
    && t.error == (if |t.failures| == 0 then None else Some(t.failures[0]))
    && |t.failures| <= t.finished
    && multiset(t.wakers) + t.woken == t.registered
  }

  predicate NobodyForgotten(t: Track, reported: bool) { reported && Idle(t) ==> t.wakers == [] }

  /** No lost waker: what is ready has nobody waiting for it. */
  predicate Kept(c: Completion) {
    && (forall i | 0 <= i < |c.tracks| :: TrackKept(c.tracks[i]) && NobodyForgotten(c.tracks[i], c.report.Some?))
    && (AllReady(c) ==> c.allWakers == [])
    && multiset(c.allWakers) + c.allWoken == c.allRegistered
  }

  lemma WokenKeeps(c: Completion)
    requires forall i | 0 <= i < |c.tracks| :: TrackKept(c.tracks[i])
    requires multiset(c.allWakers) + c.allWoken == c.allRegistered
    ensures Kept(Woken(c)) && (AllReady(Woken(c)) <==> AllReady(c))
  {
    var d := Woken(c);
    assert forall i | 0 <= i < |c.tracks| :: Idle(d.tracks[i]) == Idle(c.tracks[i]);
  }

  lemma AddKeeps(c: Completion, track: nat)
    requires Kept(c) && track < |c.tracks|
    ensures Kept(Add(c, track)) && !AllReady(Add(c, track))
  {
    assert TrackKept(c.tracks[track]);
    assert !Idle(Add(c, track).tracks[track]);
  }

  lemma CompleteKeeps(c: Completion, track: nat, failure: Option<Error>)
    requires Kept(c) && track < |c.tracks| && c.tracks[track].pending > 0
    ensures Kept(Woken(Complete(c, track, failure)))
  {
    assert forall i | 0 <= i < |c.tracks| :: TrackKept(c.tracks[i]);
    WokenKeeps(Complete(c, track, failure));
  }

  lemma SameIdle(tracks: seq<Track>, track: nat, t: Track)
    requires track < |tracks| && Idle(t) == Idle(tracks[track])
    ensures AllIdle(tracks[track := t]) == AllIdle(tracks)
  {
    var others := tracks[track := t];
    assert forall i | 0 <= i < |tracks| :: Idle(others[i]) == Idle(tracks[i]);
  }

  lemma AwaitKept(t: Track, waker: Waker)
    requires TrackKept(t)
    ensures TrackKept(Await(t, waker))
  {
    assert multiset(t.wakers + [waker]) == multiset(t.wakers) + multiset{waker};
  }

  lemma AwaitKeeps(c: Completion, track: nat, waker: Waker)
    requires Kept(c) && track < |c.tracks| && !TrackReady(c, track)
    ensures Kept(AwaitTrack(c, track, waker)) && (AllReady(AwaitTrack(c, track, waker)) <==> AllReady(c))
  {
    AwaitKept(c.tracks[track], waker);
    SameIdle(c.tracks, track, Await(c.tracks[track], waker));
  }

  lemma PollAllKeeps(c: Completion, waker: Waker)
    requires Kept(c)
    ensures Kept(Step(c, PollAll(waker)))
  {
    assert multiset(c.allWakers + [waker]) == multiset(c.allWakers) + multiset{waker};
  }

  lemma StepKeeps(c: Completion, op: Op)
    requires Kept(c)
    ensures Kept(Step(c, op))
  {
    match op {
      case AddTask(track) => if track < |c.tracks| { AddKeeps(c, track); }
      case FinishSchedule(report) => WokenKeeps(c.(report := Some(report)));
      case CompleteTask(track, failure) =>
        if track < |c.tracks| && c.tracks[track].pending > 0 {
          CompleteKeeps(c, track, failure);
        }
      case PollAll(waker) => PollAllKeeps(c, waker);
      case PollTrack(track, waker) => if track < |c.tracks| && !TrackReady(c, track) { AwaitKeeps(c, track, waker); }
      case Detach =>
    }
  }

  /** Over every run, in every order of scheduling, completion and polling. */
  lemma {:induction false} KeptAlways(trackCount: nat, ops: seq<Op>, n: nat)
    requires n <= |ops|
    ensures Kept(Run(Initial(trackCount), ops, n))
  {
    if n > 0 {
      KeptAlways(trackCount, ops, n - 1);
      StepKeeps(Run(Initial(trackCount), ops, n - 1), ops[n - 1]);
    }
  }

  // ---------------------------------------------------------------- wakers

  /** The very step that makes everything ready wakes everyone who waits for everything, each once; no other step wakes
      anyone. */
  lemma WokenByTheStepThatMakesReady(c: Completion, op: Op)
    requires Kept(c)
    ensures var d := Step(c, op);
            d.allWoken == if !AllReady(c) && AllReady(d) then c.allWoken + multiset(c.allWakers) else c.allWoken
  {
    if op.FinishSchedule? {
      WokenMeans(c.(report := Some(op.report)));
    } else if op.CompleteTask? && op.track < |c.tracks| && c.tracks[op.track].pending > 0 {
      assert !Idle(c.tracks[op.track]);
      WokenMeans(Complete(c, op.track, op.failure));
    } else if op.AddTask? && op.track < |c.tracks| {
      assert !Idle(Step(c, op).tracks[op.track]);
    } else if op.PollTrack? && op.track < |c.tracks| {
      assert forall i | 0 <= i < |c.tracks| :: Idle(Step(c, op).tracks[i]) == Idle(c.tracks[i]);
    }
  }

  lemma WokenMeans(c: Completion)
    ensures AllReady(Woken(c)) <==> AllReady(c)
    ensures Woken(c).allWoken == if AllReady(c) then c.allWoken + multiset(c.allWakers) else c.allWoken
    ensures forall i | 0 <= i < |c.tracks| :: Woken(c).tracks[i] == Drained(c.tracks[i], c.report.Some?)
  {
    assert forall i | 0 <= i < |c.tracks| :: Idle(Woken(c).tracks[i]) == Idle(c.tracks[i]);
  }

  /** What a track's woken list becomes when its waiters are drained as soon as it is ready. */
  function WokenAfter(before: Track, wasReady: bool, isReady: bool): multiset<Waker> {
    if !wasReady && isReady then before.woken + multiset(before.wakers) else before.woken
  }

  lemma CompletionWakesTrack(c: Completion, other: nat, failure: Option<Error>, track: nat)
    requires Kept(c) && track < |c.tracks| && other < |c.tracks| && c.tracks[other].pending > 0
    ensures var d := Woken(Complete(c, other, failure));
            d.tracks[track].woken == WokenAfter(c.tracks[track], TrackReady(c, track), TrackReady(d, track))
  {
    var t, u := c.tracks[track], Complete(c, other, failure).tracks[track];
    assert NobodyForgotten(t, c.report.Some?);
    assert u == if other == track then Finished(t, failure) else t;
    WokenMeans(Complete(c, other, failure));
    assert Woken(Complete(c, other, failure)).tracks[track] == Drained(u, c.report.Some?);
  }

  lemma ScheduleWakesTrack(c: Completion, report: Report, track: nat)
    requires Kept(c) && track < |c.tracks|
    ensures var d := Woken(c.(report := Some(report)));
            d.tracks[track].woken == WokenAfter(c.tracks[track], TrackReady(c, track), TrackReady(d, track))
  {
    assert NobodyForgotten(c.tracks[track], c.report.Some?);
    WokenMeans(c.(report := Some(report)));
  }

  lemma AddWakesNobody(c: Completion, other: nat, track: nat)
    requires track < |c.tracks| && other < |c.tracks|
    ensures var d := Add(c, other);
            d.tracks[track].woken == WokenAfter(c.tracks[track], TrackReady(c, track), TrackReady(d, track))
  {
    assert Idle(Add(c, other).tracks[track]) ==> Idle(c.tracks[track]);
  }

  lemma AwaitWakesNobody(c: Completion, other: nat, waker: Waker, track: nat)
    requires track < |c.tracks| && other < |c.tracks|
    ensures var d := AwaitTrack(c, other, waker);
            d.tracks[track].woken == WokenAfter(c.tracks[track], TrackReady(c, track), TrackReady(d, track))
  {
    assert Idle(AwaitTrack(c, other, waker).tracks[track]) ==> Idle(c.tracks[track]);
  }

  /** The same for each single track. */
  lemma TrackWokenByTheStepThatMakesReady(c: Completion, op: Op, track: nat)
    requires Kept(c) && track < |c.tracks|
    ensures |Step(c, op).tracks| == |c.tracks|
    ensures Step(c, op).tracks[track].woken
              == WokenAfter(c.tracks[track], TrackReady(c, track), TrackReady(Step(c, op), track))
  {
    match op {
      case FinishSchedule(report) => ScheduleWakesTrack(c, report, track);
      case CompleteTask(other, failure) =>
        if other < |c.tracks| && c.tracks[other].pending > 0 {
          CompletionWakesTrack(c, other, failure, track);
        }
      case AddTask(other) =>
        if other < |c.tracks| {
          AddWakesNobody(c, other, track);
        }
      case PollTrack(other, waker) =>
        if other < |c.tracks| {
          AwaitWakesNobody(c, other, waker, track);
        }
      case _ =>
    }
  }

  // ---------------------------------------------------------------- results

  /** The whole result is an error exactly when some registered task failed; then it is the first error of the lowest
      failing track. */
  lemma ErrorIffSomeTaskFailed(trackCount: nat, ops: seq<Op>)
    ensures var c := Run(Initial(trackCount), ops, |ops|);
            && (AllResult(c).Err? <==> exists i | 0 <= i < |c.tracks| :: |c.tracks[i].failures| > 0)
            && (AllResult(c).Err? ==>
                  exists i | 0 <= i < |c.tracks| && |c.tracks[i].failures| > 0 ::
                    AllResult(c).error == c.tracks[i].failures[0]
                    && forall j | 0 <= j < i :: |c.tracks[j].failures| == 0)
  {
    var c := Run(Initial(trackCount), ops, |ops|);
    KeptAlways(trackCount, ops, |ops|);
    assert forall i | 0 <= i < |c.tracks| :: TrackKept(c.tracks[i]);
    var first := ReportingTrack(c);
    if first.Some? {
      assert |c.tracks[first.value].failures| > 0;
    }
  }

  /** The caller's discipline: every completion belongs to a registered task. */
  predicate Registered(c: Completion, ops: seq<Op>, n: nat)
    requires n <= |ops|
  {
    forall i | 0 <= i < n && ops[i].CompleteTask? :: ops[i].track < |c.tracks| && Pending(Run(c, ops, i), ops[i].track)
  }

  predicate Pending(c: Completion, track: nat) { track < |c.tracks| && c.tracks[track].pending > 0 }

  predicate FailsIn(ops: seq<Op>, n: nat, track: nat)
    requires n <= |ops|
  {
    exists i | 0 <= i < n :: ops[i].CompleteTask? && ops[i].track == track && ops[i].failure.Some?
  }

  lemma StepErrors(c: Completion, op: Op, track: nat)
    requires track < |c.tracks| && (op.CompleteTask? ==> Pending(c, op.track))
    ensures |Step(c, op).tracks| == |c.tracks|
    ensures Step(c, op).tracks[track].error.Some? <==>
              c.tracks[track].error.Some? || (op.CompleteTask? && op.track == track && op.failure.Some?)
  {
    if op.FinishSchedule? {
      WokenMeans(c.(report := Some(op.report)));
    } else if op.CompleteTask? {
      WokenMeans(Complete(c, op.track, op.failure));
    }
  }

  lemma FailsInStep(ops: seq<Op>, n: nat, track: nat)
    requires 0 < n <= |ops|
    ensures FailsIn(ops, n, track) <==>
              FailsIn(ops, n - 1, track)
              || (ops[n - 1].CompleteTask? && ops[n - 1].track == track && ops[n - 1].failure.Some?)
  {
  }

  lemma {:induction false} TracksThatFail(trackCount: nat, ops: seq<Op>, n: nat, track: nat)
    requires n <= |ops| && track < trackCount && Registered(Initial(trackCount), ops, n)
    ensures |Run(Initial(trackCount), ops, n).tracks| == trackCount
    ensures Run(Initial(trackCount), ops, n).tracks[track].error.Some? <==> FailsIn(ops, n, track)
  {
    if n > 0 {
      TracksThatFail(trackCount, ops, n - 1, track);
      StepErrors(Run(Initial(trackCount), ops, n - 1), ops[n - 1], track);
      FailsInStep(ops, n, track);
    }
  }

  /** Which track reports does not depend on the interleaving: two disciplined runs in which the same tracks fail agree
      on it. */
  lemma ReportingTrackIsOrderFree(trackCount: nat, ops: seq<Op>, others: seq<Op>)
    requires Registered(Initial(trackCount), ops, |ops|) && Registered(Initial(trackCount), others, |others|)
    requires forall track | 0 <= track < trackCount :: FailsIn(ops, |ops|, track) <==> FailsIn(others, |others|, track)
    ensures ReportingTrack(Run(Initial(trackCount), ops, |ops|))
              == ReportingTrack(Run(Initial(trackCount), others, |others|))
  {
    var c, d := Run(Initial(trackCount), ops, |ops|), Run(Initial(trackCount), others, |others|);
    forall track: nat | track < trackCount
      ensures c.tracks[track].error.Some? <==> d.tracks[track].error.Some?
    {
      TracksThatFail(trackCount, ops, |ops|, track);
      TracksThatFail(trackCount, others, |others|, track);
    }
    SameFirstFailing(c.tracks, d.tracks, trackCount);
  }

  lemma {:induction false} SameFirstFailing(a: seq<Track>, b: seq<Track>, n: nat)
    requires n <= |a| && n <= |b| && forall i | 0 <= i < n :: a[i].error.Some? <==> b[i].error.Some?
    ensures FirstFailing(a, n) == FirstFailing(b, n)
  {
    if n > 0 {
      SameFirstFailing(a, b, n - 1);
    }
  }

  /** Nothing that decides readiness or the result has changed: a report only counts while no track failed. */
  predicate SameResults(c: Completion, d: Completion) {
    && |d.tracks| == |c.tracks| && (c.report.Some? <==> d.report.Some?)
    && (forall i | 0 <= i < |c.tracks| :: d.tracks[i].pending == c.tracks[i].pending
          && d.tracks[i].error == c.tracks[i].error)
    && (ReportingTrack(c).None? ==> d.report == c.report)
  }

  lemma SameResultsMean(c: Completion, d: Completion)
    requires SameResults(c, d)
    ensures AllReady(d) <==> AllReady(c)
    ensures ReportingTrack(d) == ReportingTrack(c) && AllResult(d) == AllResult(c)
  {
    SameFirstFailing(c.tracks, d.tracks, |c.tracks|);
    assert forall i | 0 <= i < |c.tracks| :: Idle(d.tracks[i]) == Idle(c.tracks[i]);
  }

  /** An operation a caller may still make on a ready execution: no further registration, and scheduling ends again
      only with the same report or where a failure hides the report anyway. */
  predicate Harmless(c: Completion, op: Op) {
    match op
    case AddTask(track) => track >= |c.tracks|
    case FinishSchedule(report) => ReportingTrack(c).Some? || c.report == Some(report)
    case _ => true
  }

  lemma HarmlessStays(c: Completion, op: Op)
    requires AllReady(c) && Harmless(c, op)
    ensures SameResults(c, Step(c, op))
  {
    match op {
      case FinishSchedule(report) => WokenMeans(c.(report := Some(report)));
      case CompleteTask(track, _) => assert track < |c.tracks| ==> Idle(c.tracks[track]);
      case PollTrack(track, _) => assert track < |c.tracks| ==> Idle(c.tracks[track]);
      case _ =>
    }
  }

  lemma HarmfulChanges(c: Completion, op: Op)
    requires AllReady(c) && !Harmless(c, op)
    ensures !AllReady(Step(c, op)) || AllResult(Step(c, op)) != AllResult(c)
  {
    match op {
      case AddTask(track) => LateRegistrationReopens(c, track);
      case FinishSchedule(report) =>
        var d := c.(report := Some(report));
        WokenMeans(d);
        SameFirstFailing(c.tracks, Woken(d).tracks, |c.tracks|);
    }
  }

  /** A step leaves a ready result as it is if and only if it is harmless. */
  lemma StableStepIff(c: Completion, op: Op)
    requires AllReady(c)
    ensures AllReady(Step(c, op)) && AllResult(Step(c, op)) == AllResult(c) <==> Harmless(c, op)
  {
    if Harmless(c, op) {
      HarmlessStays(c, op);
      SameResultsMean(c, Step(c, op));
    } else {
      HarmfulChanges(c, op);
    }
  }

  lemma HarmlessAlike(c: Completion, d: Completion, op: Op)
    requires SameResults(c, d)
    ensures Harmless(c, op) <==> Harmless(d, op)
  {
    SameResultsMean(c, d);
  }

  predicate StableAt(c: Completion, ops: seq<Op>, m: nat)
    requires m <= |ops|
  {
    AllReady(Run(c, ops, m)) && AllResult(Run(c, ops, m)) == AllResult(c)
  }

  /** Ready with the same result after each of the first n steps. */
  predicate StableUpTo(c: Completion, ops: seq<Op>, n: nat)
    requires n <= |ops|
  {
    StableAt(c, ops, n) && (n == 0 || StableUpTo(c, ops, n - 1))
  }

  predicate HarmlessUpTo(c: Completion, ops: seq<Op>, n: nat)
    requires n <= |ops|
  {
    n == 0 || (HarmlessUpTo(c, ops, n - 1) && Harmless(c, ops[n - 1]))
  }

  lemma StableAtNext(c: Completion, ops: seq<Op>, n: nat)
    requires 0 < n <= |ops| && AllReady(c) && SameResults(c, Run(c, ops, n - 1))
    ensures StableAt(c, ops, n) <==> Harmless(c, ops[n - 1])
    ensures Harmless(c, ops[n - 1]) ==> SameResults(c, Run(c, ops, n))
  {
    var d, op := Run(c, ops, n - 1), ops[n - 1];
    SameResultsMean(c, d);
    StableStepIff(d, op);
    HarmlessAlike(c, d, op);
    if Harmless(c, op) {
      HarmlessStays(d, op);
    }
  }

  /** A ready result stays as it is throughout a run if and only if every operation in it is harmless: polls, late
      completions and detaching always are. */
  lemma {:induction false} ReadyResultIsStable(c: Completion, ops: seq<Op>, n: nat)
    requires n <= |ops| && AllReady(c)
    ensures StableUpTo(c, ops, n) <==> HarmlessUpTo(c, ops, n)
    ensures HarmlessUpTo(c, ops, n) ==> SameResults(c, Run(c, ops, n))
  {
    if n > 0 {
      ReadyResultIsStable(c, ops, n - 1);
      if HarmlessUpTo(c, ops, n - 1) {
        StableAtNext(c, ops, n);
      }
    }
  }

  /** A task registered after the schedule was finished makes a ready execution pending again. */
  lemma LateRegistrationReopens(c: Completion, track: nat)
    requires AllReady(c) && track < |c.tracks|
    ensures !AllReady(Step(c, AddTask(track)))
  {
    assert !Idle(Step(c, AddTask(track)).tracks[track]);
  }

  /** Ending the schedule a second time replaces a successful result: one track, one task, two reports. */
  lemma SecondScheduleChangesResult(first: Report, second: Report)
    requires first != second
    ensures var ops := [AddTask(0), FinishSchedule(first), CompleteTask(0, None), FinishSchedule(second)];
            && AllReady(Run(Initial(1), ops, 3)) && AllResult(Run(Initial(1), ops, 3)) == Ok(Some(first))
            && AllReady(Run(Initial(1), ops, 4)) && AllResult(Run(Initial(1), ops, 4)) == Ok(Some(second))
  {
    var ops := [AddTask(0), FinishSchedule(first), CompleteTask(0, None), FinishSchedule(second)];
    var c0, c1, c2, c3 := Run(Initial(1), ops, 0), Run(Initial(1), ops, 1), Run(Initial(1), ops, 2),
        Run(Initial(1), ops, 3);
    assert c1 == Step(c0, ops[0]) && c2 == Step(c1, ops[1]) && c3 == Step(c2, ops[2]);
    assert Run(Initial(1), ops, 4) == Step(c3, ops[3]);
    WokenMeans(c1.(report := Some(first)));
    assert c2.tracks[0].pending == 1 && c2.tracks[0].error.None? && c2.report == Some(first);
    WokenMeans(Complete(c2, 0, None));
    assert c3.tracks[0].pending == 0 && c3.tracks[0].error.None? && c3.report == Some(first);
    WokenMeans(c3.(report := Some(second)));
  }

  // ---------------------------------------------------------------- told by the operations alone

  /** The failure that the first n operations report first for the track. */
  function FirstFailure(ops: seq<Op>, n: nat, track: nat): Option<Error>
    requires n <= |ops|
  {
    if n == 0 then None
    else if FirstFailure(ops, n - 1, track).Some? then FirstFailure(ops, n - 1, track)
    else if ops[n - 1].CompleteTask? && ops[n - 1].track == track then ops[n - 1].failure else None
  }

  function Registrations(ops: seq<Op>, n: nat, track: nat): nat
    requires n <= |ops|
  {
    if n == 0 then 0 else Registrations(ops, n - 1, track) + (if ops[n - 1] == AddTask(track) then 1 else 0)
  }

  function Completed(ops: seq<Op>, n: nat, track: nat): nat
    requires n <= |ops|
  {
    if n == 0 then 0
    else Completed(ops, n - 1, track) + (if ops[n - 1].CompleteTask? && ops[n - 1].track == track then 1 else 0)
  }

  predicate Reported(ops: seq<Op>, n: nat)
    requires n <= |ops|
  {
    exists i :: 0 <= i < n && ops[i].FinishSchedule?
  }

  lemma StepError(c: Completion, op: Op, track: nat)
    requires track < |c.tracks| && (op.CompleteTask? ==> Pending(c, op.track))
    ensures |Step(c, op).tracks| == |c.tracks|
    ensures Step(c, op).tracks[track].error
              == if c.tracks[track].error.None? && op.CompleteTask? && op.track == track then op.failure
                 else c.tracks[track].error
  {
    if op.FinishSchedule? {
      WokenMeans(c.(report := Some(op.report)));
    } else if op.CompleteTask? {
      WokenMeans(Complete(c, op.track, op.failure));
    }
  }

  lemma StepPending(c: Completion, op: Op, track: nat)
    requires track < |c.tracks| && (op.CompleteTask? ==> Pending(c, op.track))
    ensures |Step(c, op).tracks| == |c.tracks|
    ensures Step(c, op).tracks[track].pending
         == c.tracks[track].pending + (if op == AddTask(track) then 1 else 0)
             - (if op.CompleteTask? && op.track == track then 1 else 0)
  {
    if op.FinishSchedule? {
      WokenMeans(c.(report := Some(op.report)));
    } else if op.CompleteTask? {
      WokenMeans(Complete(c, op.track, op.failure));
    }
  }

  /** What is told of a track: its counter and its first error. */
  function Told(t: Track): (int, Option<Error>) { (t.pending, t.error) }

  function ToldNext(told: (int, Option<Error>), op: Op, track: nat): (int, Option<Error>) {
    match op
    case AddTask(other) => if other == track then (told.0 + 1, told.1) else told
    case CompleteTask(other, failure) =>
      if other == track then (told.0 - 1, if told.1.None? then failure else told.1) else told
    case _ => told
  }

  function ToldBy(ops: seq<Op>, n: nat, track: nat): (int, Option<Error>)
    requires n <= |ops|
  {
    (Registrations(ops, n, track) - Completed(ops, n, track), FirstFailure(ops, n, track))
  }

  lemma ToldByMore(ops: seq<Op>, n: nat, track: nat)
    requires 0 < n <= |ops|
    ensures ToldBy(ops, n, track) == ToldNext(ToldBy(ops, n - 1, track), ops[n - 1], track)
  {
  }

  lemma StepTells(c: Completion, op: Op, track: nat)
    requires track < |c.tracks| && (op.CompleteTask? ==> Pending(c, op.track))
    ensures |Step(c, op).tracks| == |c.tracks|
    ensures Told(Step(c, op).tracks[track]) == ToldNext(Told(c.tracks[track]), op, track)
  {
    StepPending(c, op, track);
    StepError(c, op, track);
  }

  lemma RunTells(c: Completion, ops: seq<Op>, n: nat, track: nat)
    requires 0 < n <= |ops| && track < |c.tracks| && Registered(c, ops, n)
    ensures |Run(c, ops, n).tracks| == |Run(c, ops, n - 1).tracks| == |c.tracks|
    ensures Told(Run(c, ops, n).tracks[track]) == ToldNext(Told(Run(c, ops, n - 1).tracks[track]), ops[n - 1], track)
  {
    StepTells(Run(c, ops, n - 1), ops[n - 1], track);
  }

  lemma {:induction false} RunIsTold(c: Completion, ops: seq<Op>, n: nat, track: nat)
    requires n <= |ops| && track < |c.tracks| && Told(c.tracks[track]) == (0, None) && Registered(c, ops, n)
    ensures |Run(c, ops, n).tracks| == |c.tracks| && Told(Run(c, ops, n).tracks[track]) == ToldBy(ops, n, track)
  {
    if n > 0 {
      RunIsTold(c, ops, n - 1, track);
      RunTells(c, ops, n, track);
      ToldByMore(ops, n, track);
    }
  }

  /** In every disciplined run a track's counter is what was registered less what was completed, and its error is the
      failure that was reported for it first. */
  lemma TracksFollowTheRun(trackCount: nat, ops: seq<Op>, n: nat, track: nat)
    requires n <= |ops| && track < trackCount && Registered(Initial(trackCount), ops, n)
    ensures |Run(Initial(trackCount), ops, n).tracks| == trackCount
    ensures var t := Run(Initial(trackCount), ops, n).tracks[track];
            && t.pending == Registrations(ops, n, track) - Completed(ops, n, track)
            && t.error == FirstFailure(ops, n, track)
  {
    RunIsTold(Initial(trackCount), ops, n, track);
    assert Told(Run(Initial(trackCount), ops, n).tracks[track]) == ToldBy(ops, n, track);
  }

  /** Every task registered on the track has been completed. */
  predicate Balanced(ops: seq<Op>, track: nat) {
    Registrations(ops, |ops|, track) == Completed(ops, |ops|, track)
  }

  lemma StepReport(c: Completion, op: Op)
    ensures Step(c, op).report == if op.FinishSchedule? then Some(op.report) else c.report
  {
  }

  lemma {:induction false} ReportFollowsTheRun(c: Completion, ops: seq<Op>, n: nat)
    requires n <= |ops| && c.report.None?
    ensures Run(c, ops, n).report.Some? <==> Reported(ops, n)
  {
    if n > 0 {
      ReportFollowsTheRun(c, ops, n - 1);
      StepReport(Run(c, ops, n - 1), ops[n - 1]);
      ReportedMore(ops, n);
    }
  }

  lemma ReportedMore(ops: seq<Op>, n: nat)
    requires 0 < n <= |ops|
    ensures Reported(ops, n) <==> Reported(ops, n - 1) || ops[n - 1].FinishSchedule?
  {
  }

  lemma IdleIff(tracks: seq<Track>, ops: seq<Op>)
    requires forall track: nat | track < |tracks| :: Idle(tracks[track]) <==> Balanced(ops, track)
    ensures AllIdle(tracks) <==> forall track: nat | track < |tracks| :: Balanced(ops, track)
  {
  }

  /** So an execution is ready exactly when its schedule has ended and every task registered on any track has been
      completed. */
  lemma ReadyIff(trackCount: nat, ops: seq<Op>)
    requires Registered(Initial(trackCount), ops, |ops|)
    ensures AllReady(Run(Initial(trackCount), ops, |ops|)) <==>
              Reported(ops, |ops|) && forall track: nat | track < trackCount :: Balanced(ops, track)
  {
    var c := Run(Initial(trackCount), ops, |ops|);
    assert |c.tracks| == trackCount;
    forall track: nat | track < trackCount
      ensures Idle(c.tracks[track]) <==> Balanced(ops, track)
    {
      TracksFollowTheRun(trackCount, ops, |ops|, track);
    }
    IdleIff(c.tracks, ops);
    ReportFollowsTheRun(Initial(trackCount), ops, |ops|);
  }

  /** Nothing was ready before operation i or after it, up to operation n. */
  predicate NeverReady(c: Completion, ops: seq<Op>, i: nat, n: nat)
    requires i <= n <= |ops|
    decreases n
  {
    !AllReady(Run(c, ops, n)) && (i < n ==> NeverReady(c, ops, i, n - 1))
  }

  predicate TrackNeverReady(c: Completion, ops: seq<Op>, track: nat, i: nat, n: nat)
    requires i <= n <= |ops| && track < |c.tracks|
    decreases n
  {
    !TrackReady(Run(c, ops, n), track) && (i < n ==> TrackNeverReady(c, ops, track, i, n - 1))
  }

  lemma Waits(c: Completion, op: Op, waker: Waker)
    requires waker in c.allWakers || (op == PollAll(waker) && !AllReady(c))
    requires !AllReady(Step(c, op))
    ensures waker in Step(c, op).allWakers
  {
    if op.FinishSchedule? {
      WokenMeans(c.(report := Some(op.report)));
    } else if op.CompleteTask? && op.track < |c.tracks| && c.tracks[op.track].pending > 0 {
      WokenMeans(Complete(c, op.track, op.failure));
    }
  }

  /** Whoever polls the whole execution in vain waits from then on, until the operation that makes everything ready
      hands out its waker. */
  lemma {:induction false} PollersWait(c: Completion, ops: seq<Op>, i: nat, n: nat)
    requires i < n <= |ops| && ops[i].PollAll? && NeverReady(c, ops, i, n)
    ensures ops[i].waker in Run(c, ops, n).allWakers
    decreases n
  {
    if i < n - 1 {
      PollersWait(c, ops, i, n - 1);
    }
    Waits(Run(c, ops, n - 1), ops[n - 1], ops[i].waker);
  }

  lemma WaitsForTrack(c: Completion, op: Op, track: nat, waker: Waker)
    requires track < |c.tracks|
    requires waker in c.tracks[track].wakers || (op == PollTrack(track, waker) && !TrackReady(c, track))
    requires !TrackReady(Step(c, op), track)
    ensures waker in Step(c, op).tracks[track].wakers
  {
    if op.FinishSchedule? {
      WokenMeans(c.(report := Some(op.report)));
    } else if op.CompleteTask? && op.track < |c.tracks| && c.tracks[op.track].pending > 0 {
      WokenMeans(Complete(c, op.track, op.failure));
    }
  }

  /** The same for whoever polls one track. */
  lemma {:induction false} TrackPollersWait(c: Completion, ops: seq<Op>, i: nat, n: nat)
    requires i < n <= |ops| && ops[i].PollTrack? && ops[i].track < |c.tracks|
    requires TrackNeverReady(c, ops, ops[i].track, i, n)
    ensures ops[i].waker in Run(c, ops, n).tracks[ops[i].track].wakers
    decreases n
  {
    if i < n - 1 {
      TrackPollersWait(c, ops, i, n - 1);
    }
    WaitsForTrack(Run(c, ops, n - 1), ops[n - 1], ops[i].track, ops[i].waker);
  }

  lemma StepFlags(c: Completion, op: Op)
    ensures Step(c, op).allObserved <==> c.allObserved || (op.PollAll? && AllReady(c))
    ensures Step(c, op).detached <==> c.detached || (op.Detach? && !c.allObserved)
  {
  }

  predicate ObservedBy(c: Completion, ops: seq<Op>, n: nat)
    requires n <= |ops|
  {
    exists i :: 0 <= i < n && ops[i].PollAll? && AllReady(Run(c, ops, i))
  }

  predicate DroppedBy(c: Completion, ops: seq<Op>, n: nat)
    requires n <= |ops|
  {
    exists i :: 0 <= i < n && ops[i].Detach? && !ObservedBy(c, ops, i)
  }

  lemma ObservedMore(c: Completion, ops: seq<Op>, n: nat)
    requires 0 < n <= |ops|
    ensures ObservedBy(c, ops, n) <==>
              ObservedBy(c, ops, n - 1) || (ops[n - 1].PollAll? && AllReady(Run(c, ops, n - 1)))
  {
  }

  lemma DroppedMore(c: Completion, ops: seq<Op>, n: nat)
    requires 0 < n <= |ops|
    ensures DroppedBy(c, ops, n) <==> DroppedBy(c, ops, n - 1) || (ops[n - 1].Detach? && !ObservedBy(c, ops, n - 1))
  {
  }

  /** The result counts as observed once some poll of the whole execution has been ready, and the execution as detached
      once it was dropped before that: only then are errors still to be logged. */
  lemma {:induction false} DetachedIff(c: Completion, ops: seq<Op>, n: nat)
    requires n <= |ops| && !c.allObserved && !c.detached
    ensures Run(c, ops, n).allObserved <==> ObservedBy(c, ops, n)
    ensures Run(c, ops, n).detached <==> DroppedBy(c, ops, n)
  {
    if n > 0 {
      DetachedIff(c, ops, n - 1);
      StepFlags(Run(c, ops, n - 1), ops[n - 1]);
      ObservedMore(c, ops, n);
      DroppedMore(c, ops, n);
    }
  }

  // ---------------------------------------------------------------- who is handed out

  lemma WakingRecords(c: Completion)
    ensures EverWoken(Woken(c).tracks, |c.tracks|)
              == EverWoken(c.tracks, |c.tracks|) + multiset(Waiters(c.tracks, c.report.Some?, |c.tracks|))
  {
    DrainedAreHandedOut(c.tracks, c.report.Some?, |c.tracks|);
  }

  /** A completion hands out the waiters of its own track if it makes that track ready, and records exactly those. */
  lemma CompletionHandsOut(c: Completion, track: nat, failure: Option<Error>)
    requires OnlyPendingWait(c) && track < |c.tracks| && c.tracks[track].pending > 0
    ensures var own := if c.report.Some? && c.tracks[track].pending == 1 then c.tracks[track].wakers else [];
            var completed := Complete(c, track, failure);
            && Waiters(completed.tracks, c.report.Some?, |c.tracks|) == own
            && EverWoken(Woken(completed).tracks, |c.tracks|) == EverWoken(c.tracks, |c.tracks|) + multiset(own)
  {
    OnlyOwnWaiters(c, track, failure, |c.tracks|);
    CompletingWakesNobody(c, track, failure, |c.tracks|);
    WakingRecords(Complete(c, track, failure));
  }

  lemma KeptMeansOnlyPendingWait(c: Completion)
    requires Kept(c)
    ensures OnlyPendingWait(c)
  {
  }

  // ---------------------------------------------------------------- the mutex-guarded state

  datatype Poll<+T> = Pending | Ready(value: T)

  class ExecutionCompletion {
    var tracks: seq<Track>
    var report: Option<Report>
    var detached: bool
    var allObserved: bool
    var allWakers: seq<Waker>
    ghost var allRegistered: multiset<Waker>
    ghost var allWoken: multiset<Waker>

    ghost function View(): Completion
      reads this
    {
      Completion(tracks, report, detached, allObserved, allWakers, allRegistered, allWoken)
    }

    constructor (trackCount: nat)
      ensures View() == Initial(trackCount) && Kept(View())
    {
      tracks, report, detached, allObserved, allWakers := seq(trackCount, i => EMPTY_TRACK), None, false, false, [];
      allRegistered, allWoken := multiset{}, multiset{};
    }

    /** Err carries the number of tracks. */
    method AddOne(track: nat) returns (r: Result<(), nat>)
      requires Kept(View())
      modifies this`tracks
      ensures Kept(View()) && View() == Step(old(View()), AddTask(track))
      ensures r == if track < |old(tracks)| then Ok(()) else Err(|old(tracks)|)
    {
      StepKeeps(View(), AddTask(track));
      if track >= |tracks| {
        return Err(|tracks|);
      }
      var t := tracks[track];
      tracks := tracks[track := t.(pending := t.pending + 1, accepted := t.accepted + 1)];
      return Ok(());
    }

    /** Takes every waker whose condition holds now; the caller wakes them after unlocking. */
    method ReadyWakers() returns (all: seq<Waker>, perTrack: seq<Waker>)
      modifies this`tracks, this`allWakers, this`allWoken
      ensures View() == Woken(old(View()))
      ensures all == if AllReady(old(View())) then old(allWakers) else []
      ensures perTrack == Waiters(old(tracks), report.Some?, |old(tracks)|)
    {
      all := [];
      if report.Some? && AllIdle(tracks) {
        all, allWakers, allWoken := allWakers, [], allWoken + multiset(allWakers);
      }
      perTrack := DrainTracks();
    }

    /** The loop over the tracks. */
    method DrainTracks() returns (perTrack: seq<Waker>)
      modifies this`tracks
      ensures tracks == DrainedUpTo(old(tracks), report.Some?, |old(tracks)|)
      ensures perTrack == Waiters(old(tracks), report.Some?, |old(tracks)|)
    {
      ghost var before := tracks;
      perTrack := [];
      for track := 0 to |tracks|
        invariant |tracks| == |before| && tracks == DrainedUpTo(before, report.Some?, track)
        invariant perTrack == Waiters(before, report.Some?, track)
      {
        DrainedStep(before, report.Some?, track);
        if report.Some? && tracks[track].pending == 0 {
          perTrack := perTrack + tracks[track].wakers;
          tracks := tracks[track := Drained(tracks[track], true)];
        }
      }
    }

    method Finish(outcome: Report) returns (all: seq<Waker>, perTrack: seq<Waker>)
      requires Kept(View())
      modifies this`report, this`tracks, this`allWakers, this`allWoken
      ensures Kept(View()) && View() == Step(old(View()), FinishSchedule(outcome))
      ensures all == if AllReady(View()) then old(allWakers) else []
      ensures perTrack == Waiters(old(tracks), true, |old(tracks)|)
      ensures allWoken == old(allWoken) + multiset(all)
      ensures EverWoken(tracks, |tracks|) == old(EverWoken(tracks, |tracks|)) + multiset(perTrack)
    {
      StepKeeps(View(), FinishSchedule(outcome));
      WokenMeans(View().(report := Some(outcome)));
      DrainedAreHandedOut(tracks, true, |tracks|);
      report := Some(outcome);
      all, perTrack := ReadyWakers();
    }

    /** An unregistered or out-of-range completion changes nothing and wakes nobody. */
    method CompleteOne(track: nat, failure: Option<Error>) returns (all: seq<Waker>, perTrack: seq<Waker>)
      requires Kept(View())
      modifies this`tracks, this`allWakers, this`allWoken
      ensures Kept(View()) && View() == Step(old(View()), CompleteTask(track, failure))
      ensures all == if AllReady(View()) && !old(AllReady(View())) then old(allWakers) else []
      ensures perTrack == if track < |old(tracks)| && report.Some? && old(tracks)[track].pending == 1
                          then old(tracks)[track].wakers else []
      ensures allWoken == old(allWoken) + multiset(all)
      ensures EverWoken(tracks, |tracks|) == old(EverWoken(tracks, |tracks|)) + multiset(perTrack)
    {
      ghost var next := Step(View(), CompleteTask(track, failure));
      StepKeeps(View(), CompleteTask(track, failure));
      if track >= |tracks| || tracks[track].pending == 0 {
        return [], [];
      }
      var t := tracks[track];
      assert !Idle(t);
      ghost var completed := Complete(View(), track, failure);
      WokenMeans(completed);
      KeptMeansOnlyPendingWait(View());
      CompletionHandsOut(View(), track, failure);
      tracks := tracks[track := Finished(t, failure)];
      assert View() == completed;
      all, perTrack := ReadyWakers();
      assert View() == next;
    }

    /** Registering happens under the same lock as completing, so the recheck after it can never succeed. */
    method PollEverything(waker: Waker) returns (r: Poll<Result<Option<Report>, Error>>)
      requires Kept(View())
      modifies this`allObserved, this`allWakers, this`allRegistered
      ensures Kept(View()) && View() == Step(old(View()), PollAll(waker))
      ensures r == if old(AllReady(View())) then Ready(old(AllResult(View()))) else Pending
    {
      StepKeeps(View(), PollAll(waker));
      if report.Some? && AllIdle(tracks) {
        allObserved := true;
        var first := FirstFailing(tracks, |tracks|);
        return Ready(if first.Some? then Err(tracks[first.value].error.value) else Ok(report));
      }
      allWakers, allRegistered := allWakers + [waker], allRegistered + multiset{waker};
      if report.Some? && AllIdle(tracks) {
        assert false;
      }
      return Pending;
    }

    method PollOne(track: nat, waker: Waker) returns (r: Poll<Result<(), Option<Error>>>)
      requires Kept(View())
      modifies this`tracks
      ensures Kept(View()) && View() == Step(old(View()), PollTrack(track, waker))
      ensures r.Ready? <==> track >= |old(tracks)| || old(TrackReady(View(), track))
      ensures r.Ready? ==>
                r.value == if track >= |old(tracks)| then Err(None)
                           else if old(tracks)[track].error.Some? then Err(old(tracks)[track].error)
                           else Ok(())
    {
      ghost var next := Step(View(), PollTrack(track, waker));
      StepKeeps(View(), PollTrack(track, waker));
      if track >= |tracks| {
        return Ready(Err(None));
      }
      var t := tracks[track];
      if report.Some? && t.pending == 0 {
        return Ready(if t.error.Some? then Err(t.error) else Ok(()));
      }
      tracks := tracks[track := Await(t, waker)];
      assert View() == next;
      if report.Some? && tracks[track].pending == 0 {
        assert false;
      }
      return Pending;
    }

    method Drop()
      requires Kept(View())
      modifies this`detached
      ensures Kept(View()) && View() == Step(old(View()), Detach)
    {
      if allObserved || detached {
        return;
      }
      detached := true;
    }
  }
}
