/** Delivery of one streaming response (crates/audio2face3d-server/src/session.rs, cleanup.rs, service.rs):
    a worker that sends messages and then one terminal result, and a response stream polled concurrently. */
module Responses {
  import opened Common

  datatype Message = Header | Data(frame: nat) | Event | SuccessStatus

  /** The separate terminal channel. */
  datatype Terminal = Empty | Sent(ok: bool) | Abandoned | Taken(ok: bool)

  /** What the two ends share: the bounded data channel, the terminal channel and the cancellation token. */
  datatype Channel = Channel(queue: seq<Message>, closed: bool, senderAlive: bool, terminal: Terminal, cancelled: bool)

  // ---------------------------------------------------------------- the response stream

  /** `waiting` is whether the terminal receiver is still there. */
  datatype Stream = Stream(ended: bool, waiting: bool, permit: bool)

  datatype Item = Pending | Next(message: Message) | Failed | End

  function PollTerminal(c: Channel, s: Stream): Option<bool> {
    if !s.waiting then None
    else match c.terminal
      case Sent(ok) => Some(ok)
      case Abandoned => Some(false)
      case _ => None
  }

  function Polled(c: Channel, s: Stream, expired: bool): (Channel, Stream, Item) {
    if s.ended then (c, s, End)
    else if expired then (c.(cancelled := true, closed := true), s.(ended := true, permit := false), Failed)
    else
      var result := PollTerminal(c, s);
      var d := if result.Some? then c.(terminal := Taken(result.value)) else c;
      var t := if result.Some? then s.(waiting := false) else s;
      if result == Some(false) then (d.(closed := true), t.(ended := true, permit := false), Failed)
      else if |d.queue| > 0 then (d.(queue := d.queue[1..]), t, Next(d.queue[0]))
      else if d.senderAlive || t.waiting then (d, t, Pending)
      else (d, t.(ended := true, permit := false), End)
  }

  /** One poll, told by what it meets: an end is final; the deadline cancels the worker and fails; a worker's failure
      comes before anything still queued; then messages in order; and without one the stream waits for as long as more
      may come. Failing and ending release the stream's share of the slot. */
  lemma PollMeans(c: Channel, s: Stream, expired: bool)
    ensures var (d, t, item) := Polled(c, s, expired);
            var failed := s.waiting && (c.terminal == Abandoned || c.terminal == Sent(false));
            var more := c.senderAlive || (s.waiting && !c.terminal.Sent?);
            && (s.ended ==> item == End && d == c && t == s)
            && (!s.ended && expired ==> item == Failed && d == c.(cancelled := true, closed := true))
            && (!s.ended && !expired && failed ==>
                  item == Failed && d.closed && d.cancelled == c.cancelled && d.queue == c.queue && !t.waiting)
            && (!s.ended && !expired && !failed && |c.queue| > 0 ==>
                  item == Next(c.queue[0]) && [c.queue[0]] + d.queue == c.queue)
            && (!s.ended && !expired && !failed && c.queue == [] ==>
                  item == (if more then Pending else End) && d.queue == [])
            && (item == Failed || item == End <==> t.ended) && (t.permit <==> s.permit && (s.ended || !t.ended))
  {
  }

  /** The items of the next n polls before the deadline, with nothing else going on. */
  function Items(c: Channel, s: Stream, n: nat): seq<Item>
    decreases n
  {
    if n == 0 then []
    else
      var (d, t, item) := Polled(c, s, false);
      [item] + Items(d, t, n - 1)
  }

  function Nexts(messages: seq<Message>): seq<Item> {
    seq(|messages|, i requires 0 <= i < |messages| => Next(messages[i]))
  }

  /** Once the worker has succeeded and gone, polling yields everything still queued, in order, and then the end. */
  lemma {:induction false} DrainsToTheEnd(c: Channel, s: Stream)
    requires !s.ended && !c.senderAlive && (s.waiting ==> c.terminal == Sent(true))
    ensures Items(c, s, |c.queue| + 1) == Nexts(c.queue) + [End]
    decreases |c.queue|
  {
    var (d, t, item) := Polled(c, s, false);
    if |c.queue| > 0 {
      DrainsToTheEnd(d, t);
      assert Nexts(c.queue) == [Next(c.queue[0])] + Nexts(d.queue);
    } else {
      assert Items(d, t, 0) == [];
    }
  }

  class ResponseStream {
    var channel: Channel
    var ended: bool
    var waiting: bool
    var permit: bool

    function View(): Stream
      reads this
    {
      Stream(ended, waiting, permit)
    }

    constructor (shared: Channel)
      ensures channel == shared && View() == Stream(false, true, true)
    {
      channel, ended, waiting, permit := shared, false, true, true;
    }

    /** One poll; the peer's end of the channel only moves between polls. */
    method PollNext(expired: bool) returns (item: Item)
      modifies this
      ensures (channel, View(), item) == Polled(old(channel), old(View()), expired)
      ensures item.Failed? || item.End? <==> ended
    {
      if ended {
        return End;
      }
      if expired {
        ended := true;
        channel := channel.(cancelled := true, closed := true);
        permit := false;
        return Failed;
      }
      if waiting && (channel.terminal.Sent? || channel.terminal.Abandoned?) {
        waiting := false;
        var ok := channel.terminal.Sent? && channel.terminal.ok;
        channel := channel.(terminal := Taken(ok));
        if !ok {
          ended := true;
          channel := channel.(closed := true);
          permit := false;
          return Failed;
        }
      }
      if |channel.queue| > 0 {
        item := Next(channel.queue[0]);
        channel := channel.(queue := channel.queue[1..]);
        return;
      }
      if channel.senderAlive || waiting {
        return Pending;
      }
      ended, permit := true, false;
      return End;
    }
  }

  // ---------------------------------------------------------------- finishing a request

  datatype Observation = Observation(stage: string, cleanupFailed: bool)

  /** `finish`: the backend is always closed; success is sent only when streaming and close both succeeded, and a
      streaming error takes precedence over a cleanup error. `success` is what sending would return. */
  method FinishRequest(streaming: Result<(), string>, cleanup: Result<(), string>, success: Result<(), string>,
                       before: Observation)
    returns (r: Result<(), string>, attempted: bool, after: Observation)
    ensures attempted <==> streaming.Ok? && cleanup.Ok?
    ensures r.Ok? <==> streaming.Ok? && cleanup.Ok? && success.Ok?
    ensures streaming.Err? ==> r == streaming
    ensures streaming.Ok? && cleanup.Err? ==> r == cleanup
    ensures after.cleanupFailed <==> before.cleanupFailed || cleanup.Err?
    ensures after.stage == if attempted then "output" else if cleanup.Ok? then before.stage else "cleanup"
  {
    var failureStage := before.stage;
    after := before.(stage := "cleanup");
    after := after.(cleanupFailed := after.cleanupFailed || cleanup.Err?);
    if streaming.Err? && cleanup.Ok? {
      after := after.(stage := failureStage);
    }
    if streaming.Err? {
      return streaming, false, after;
    }
    if cleanup.Err? {
      return cleanup, false, after;
    }
    after := after.(stage := "output");
    return success, true, after;
  }

  // ---------------------------------------------------------------- the worker

  datatype WorkerPc =
    | Starting
    | SendHeader
    | AwaitInput
    | NextFrame(last: bool)
    | SendData(last: bool, frame: nat)
    | Closing(streamed: bool)
    | SendEvent
    | SendSuccess
    | Report(ok: bool)
    | DropPermit
    | DropSender
    | Finished

  /** The worker with its history: everything it sent, and whether streaming and backend close succeeded. */
  datatype Worker = Worker(pc: WorkerPc, permit: bool, sent: seq<Message>, streamed: bool, cleaned: bool)

  /** How a step of the worker turns out; the environment chooses. */
  datatype Choice = Choice(works: bool, last: bool, more: bool, frame: nat)

  /** A send succeeds only into an open channel with room and before any cancellation; it may always fail by timeout. */
  predicate CanSend(c: Channel, capacity: nat, choice: Choice) {
    choice.works && !c.closed && !c.cancelled && |c.queue| < capacity
  }

  function MessageOf(pc: WorkerPc): Option<Message> {
    match pc
    case SendHeader => Some(Header)
    case SendData(_, frame) => Some(Data(frame))
    case SendEvent => Some(Event)
    case SendSuccess => Some(SuccessStatus)
    case _ => None
  }

  function AfterSend(pc: WorkerPc, sent: bool): WorkerPc {
    match pc
    case SendHeader => if sent then AwaitInput else Closing(false)
    case SendData(last, _) => if sent then NextFrame(last) else Closing(false)
    case SendEvent => if sent then SendSuccess else Report(false)
    case _ => Report(sent)
  }

  function Sends(c: Channel, w: Worker, capacity: nat, choice: Choice): bool {
    MessageOf(w.pc).Some? && CanSend(c, capacity, choice)
  }

  function WorkerNext(c: Channel, w: Worker, capacity: nat, choice: Choice): Worker {
    match w.pc
    case Starting => w.(pc := if choice.works then SendHeader else Report(false))
    case AwaitInput => w.(pc := if choice.works then NextFrame(choice.last) else Closing(false))
    case NextFrame(last) =>
      w.(pc := if !choice.works then Closing(false)
               else if choice.more then SendData(last, choice.frame)
               else if last then Closing(true) else AwaitInput)
    case Closing(streamed) =>
      w.(streamed := streamed, cleaned := choice.works,
         pc := if streamed && choice.works then SendEvent else Report(false))
    case Report(_) => w.(pc := DropPermit)
    case DropPermit => w.(permit := false, pc := DropSender)
    case DropSender => w.(pc := Finished)
    case Finished => w
    case _ =>
      var sent := Sends(c, w, capacity, choice);
      w.(pc := AfterSend(w.pc, sent), sent := if sent then w.sent + [MessageOf(w.pc).value] else w.sent)
  }

  function WorkerChannel(c: Channel, w: Worker, capacity: nat, choice: Choice): Channel {
    if Sends(c, w, capacity, choice) then c.(queue := c.queue + [MessageOf(w.pc).value])
    else match w.pc
      case Report(ok) => c.(terminal := Sent(ok))
      case DropSender => c.(senderAlive := false)
      case _ => c
  }

  // ---------------------------------------------------------------- the exchange

  /** What the client has seen: messages, errors, and whether the stream ended. */
  datatype Client = Client(yielded: seq<Message>, errors: nat, ends: nat, dropped: bool)

  datatype State = State(channel: Channel, stream: Stream, worker: Worker, client: Client)

  function Initial(): State {
    State(Channel([], false, true, Empty, false), Stream(false, true, true), Worker(Starting, true, [], false, false),
          Client([], 0, 0, false))
  }

  datatype Action = Work(choice: Choice) | Crash | Poll(expired: bool) | DropStream | Shutdown

  function Saw(client: Client, item: Item): Client {
    match item
    case Pending => client
    case Next(message) => client.(yielded := client.yielded + [message])
    case Failed => client.(errors := client.errors + 1)
    case End => client.(ends := client.ends + 1)
  }

  function Step(s: State, capacity: nat, a: Action): State {
    match a
    case Work(choice) =>
      s.(channel := WorkerChannel(s.channel, s.worker, capacity, choice),
         worker := WorkerNext(s.channel, s.worker, capacity, choice))
    // A worker that panics drops both channels and its permit.
    case Crash =>
      if WorkerDone(s.worker) then s
      else s.(channel := s.channel.(terminal := Abandoned, senderAlive := false),
              worker := s.worker.(pc := Finished, permit := false))
    case Poll(expired) =>
      if s.client.dropped then s
      else
        var (c, t, item) := Polled(s.channel, s.stream, expired);
        s.(channel := c, stream := t, client := Saw(s.client, item))
    case DropStream =>
      s.(channel := s.channel.(closed := true, cancelled := true), stream := s.stream.(permit := false),
         client := s.client.(dropped := true))
    case Shutdown => s.(channel := s.channel.(cancelled := true))
  }

  function Run(capacity: nat, actions: seq<Action>, n: nat): State
    requires n <= |actions|
  {
    if n == 0 then Initial() else Step(Run(capacity, actions, n - 1), capacity, actions[n - 1])
  }

  // ---------------------------------------------------------------- a whole exchange

  lemma SameStep(s: State, t: State, capacity: nat, a: Action, b: Action)
    requires s == t && a == b
    ensures Step(s, capacity, a) == Step(t, capacity, b)
  {
  }

  lemma {:induction false} RunPrefix(capacity: nat, actions: seq<Action>, more: seq<Action>, n: nat)
    requires n <= |actions|
    ensures Run(capacity, actions + more, n) == Run(capacity, actions, n)
  {
    if n > 0 {
      RunPrefix(capacity, actions, more, n - 1);
      SameStep(Run(capacity, actions + more, n - 1), Run(capacity, actions, n - 1), capacity,
               (actions + more)[n - 1], actions[n - 1]);
    }
  }

  /** The state after a list of actions, and after one more. */
  function Reached(capacity: nat, actions: seq<Action>): State { Run(capacity, actions, |actions|) }

  lemma OneMore(capacity: nat, actions: seq<Action>, a: Action)
    ensures Reached(capacity, actions + [a]) == Step(Reached(capacity, actions), capacity, a)
  {
    RunPrefix(capacity, actions, [a], |actions|);
  }

  /** Everything sent so far has been yielded, and the worker stands at `pc`. */
  predicate Delivered(s: State, pc: WorkerPc, sent: seq<Message>, done: bool) {
    s == State(Channel([], false, true, Empty, false), Stream(false, true, true), Worker(pc, true, sent, done, done),
               Client(sent, 0, 0, false))
  }

  /** A step that works and sends nothing. */
  lemma Proceeds(capacity: nat, actions: seq<Action>, choice: Choice, pc: WorkerPc, sent: seq<Message>, done: bool)
      returns (more: seq<Action>)
    requires Delivered(Reached(capacity, actions), pc, sent, done) && choice.works
    requires pc.Starting? || pc.AwaitInput? || pc.NextFrame?
    ensures Delivered(Reached(capacity, more), WorkerNext(Channel([], false, true, Empty, false),
                          Worker(pc, true, sent, done, done), capacity, choice).pc, sent, done)
  {
    OneMore(capacity, actions, Work(choice));
    more := actions + [Work(choice)];
  }

  lemma Closes(capacity: nat, actions: seq<Action>, choice: Choice, sent: seq<Message>) returns (more: seq<Action>)
    requires Delivered(Reached(capacity, actions), Closing(true), sent, false) && choice.works
    ensures Delivered(Reached(capacity, more), SendEvent, sent, true)
  {
    OneMore(capacity, actions, Work(choice));
    more := actions + [Work(choice)];
  }

  /** A message that is sent, and then the poll that yields it. */
  lemma SendsAndYields(capacity: nat, actions: seq<Action>, choice: Choice, pc: WorkerPc, sent: seq<Message>,
                       done: bool) returns (more: seq<Action>)
    requires Delivered(Reached(capacity, actions), pc, sent, done) && choice.works && capacity > 0
    requires MessageOf(pc).Some?
    ensures Delivered(Reached(capacity, more), AfterSend(pc, true), sent + [MessageOf(pc).value], done)
  {
    var before := Reached(capacity, actions);
    OneMore(capacity, actions, Work(choice));
    var mid := actions + [Work(choice)];
    OneMore(capacity, mid, Poll(false));
    more := mid + [Poll(false)];
    SentThenYielded(before, capacity, choice, pc, sent, done);
  }

  lemma SentThenYielded(s: State, capacity: nat, choice: Choice, pc: WorkerPc, sent: seq<Message>, done: bool)
    requires Delivered(s, pc, sent, done) && choice.works && capacity > 0 && MessageOf(pc).Some?
    ensures Delivered(Step(Step(s, capacity, Work(choice)), capacity, Poll(false)), AfterSend(pc, true),
                      sent + [MessageOf(pc).value], done)
  {
    var m := MessageOf(pc).value;
    var t := Step(s, capacity, Work(choice));
    assert t.channel.queue == [] + [m] == [m];
    assert [m][1..] == [];
  }

  function DataOf(frames: seq<nat>): seq<Message> {
    seq(|frames|, i requires 0 <= i < |frames| => Data(frames[i]))
  }

  /** The data frames of one input, each sent and yielded. */
  lemma {:induction false} Streams(capacity: nat, frames: seq<nat>) returns (actions: seq<Action>)
    requires capacity > 0
    ensures Delivered(Reached(capacity, actions), NextFrame(true), [Header] + DataOf(frames), false)
    decreases |frames|
  {
    var go := Choice(true, true, true, 0);
    if frames == [] {
      assert Delivered(Reached(capacity, []), Starting, [], false);
      actions := Proceeds(capacity, [], go, Starting, [], false);
      actions := SendsAndYields(capacity, actions, go, SendHeader, [], false);
      actions := Proceeds(capacity, actions, go, AwaitInput, [Header], false);
      assert [Header] + DataOf([]) == [Header];
      assert [] + [Header] == [Header];
    } else {
      var n := |frames| - 1;
      var sent := [Header] + DataOf(frames[..n]);
      actions := Streams(capacity, frames[..n]);
      actions := Proceeds(capacity, actions, go.(frame := frames[n]), NextFrame(true), sent, false);
      actions := SendsAndYields(capacity, actions, go, SendData(true, frames[n]), sent, false);
      assert sent + [Data(frames[n])] == [Header] + DataOf(frames);
    }
  }

  /** Success can be had: for any data frames and any channel there is a schedule in which the client receives the
      header, exactly these frames in order, the event and the success status, then a clean end, and nothing of the slot
      is held any more. */
  lemma AnyExchangeCanSucceed(capacity: nat, frames: seq<nat>) returns (actions: seq<Action>)
    requires capacity > 0
    ensures var s := Reached(capacity, actions);
            && s.client == Client([Header] + DataOf(frames) + [Event, SuccessStatus], 0, 1, false)
            && s.worker.streamed && s.worker.cleaned && !s.worker.permit && !s.stream.permit
  {
    var go, sent := Choice(true, true, false, 0), [Header] + DataOf(frames);
    actions := Streams(capacity, frames);
    actions := Proceeds(capacity, actions, go, NextFrame(true), sent, false);
    actions := Closes(capacity, actions, go, sent);
    actions := SendsAndYields(capacity, actions, go, SendEvent, sent, true);
    actions := SendsAndYields(capacity, actions, go, SendSuccess, sent + [Event], true);
    var all := sent + [Event] + [SuccessStatus];
    assert all == sent + [Event, SuccessStatus];
    actions := Finishes(capacity, actions, all);
  }

  lemma Finishes(capacity: nat, actions: seq<Action>, sent: seq<Message>) returns (more: seq<Action>)
    requires Delivered(Reached(capacity, actions), Report(true), sent, true)
    ensures var s := Reached(capacity, more);
            && s.client == Client(sent, 0, 1, false)
            && s.worker.streamed && s.worker.cleaned && !s.worker.permit && !s.stream.permit
  {
    var go := Work(Choice(true, true, true, 0));
    more := actions;
    for i := 0 to 3
      invariant Reached(capacity, more) == Wound(sent, i)
    {
      OneMore(capacity, more, go);
      more := more + [go];
    }
    OneMore(capacity, more, Poll(false));
    more := more + [Poll(false)];
  }

  /** The three last steps of a worker that has succeeded. */
  function Wound(sent: seq<Message>, i: nat): State {
    State(Channel([], false, i < 3, if i == 0 then Empty else Sent(true), false), Stream(false, true, true),
          Worker(if i == 0 then Report(true) else if i == 1 then DropPermit else if i == 2 then DropSender
                 else Finished,
                 i < 2, sent, true, true),
          Client(sent, 0, 0, false))
  }

  // ---------------------------------------------------------------- the invariant

  /** The first `n` messages are the header and then animation data. */
  predicate StreamedUpTo(sent: seq<Message>, n: int) {
    0 < n <= |sent| && sent[0] == Header && forall i | 1 <= i < n :: sent[i].Data?
  }

  predicate Streaming(sent: seq<Message>) { StreamedUpTo(sent, |sent|) }

  /** What may have been sent when the worker stands at `pc`. */
  predicate SentShape(w: Worker) {
    match w.pc
    case Starting => w.sent == []
    case SendHeader => w.sent == []
    case AwaitInput => Streaming(w.sent)
    case NextFrame(_) => Streaming(w.sent)
    case SendData(_, _) => Streaming(w.sent)
    case Closing(streamed) => if streamed then Streaming(w.sent) else w.sent == [] || Streaming(w.sent)
    case SendEvent => Streaming(w.sent) && w.streamed && w.cleaned
    case SendSuccess => WithEvent(w.sent) && w.streamed && w.cleaned
    case Report(ok) => if ok then Success(w) else Partial(w)
    case _ => Success(w) || Partial(w)
  }

  predicate WithEvent(sent: seq<Message>) { StreamedUpTo(sent, |sent| - 1) && sent[|sent| - 1] == Event }

  /** The whole protocol, and why it was allowed to end this way. */
  predicate Success(w: Worker) {
    var n := |w.sent|;
    StreamedUpTo(w.sent, n - 2) && w.sent[n - 2] == Event && w.sent[n - 1] == SuccessStatus && w.streamed && w.cleaned
  }

  /** Anything shorter, which holds no success status. */
  predicate Partial(w: Worker) { w.sent == [] || Streaming(w.sent) || WithEvent(w.sent) }

  predicate WorkerDone(w: Worker) { w.pc.DropPermit? || w.pc.DropSender? || w.pc.Finished? }

  predicate TerminalKept(c: Channel, w: Worker) {
    && (c.terminal.Empty? <==> !WorkerDone(w))
    && ((c.terminal.Sent? || c.terminal.Taken?) && c.terminal.ok ==> Success(w))
    && (c.senderAlive <==> !w.pc.Finished?)
    && (w.permit <==> !(w.pc.DropSender? || w.pc.Finished?))
  }

  predicate StreamKept(c: Channel, s: Stream, client: Client) {
    && client.errors <= 1
    && (s.waiting <==> !c.terminal.Taken?)
    && (!s.ended ==> client.errors == 0 && client.ends == 0)
    && (c.terminal.Taken? && !c.terminal.ok ==> s.ended && client.errors == 1)
    && (s.ended && client.errors == 0 ==> c.queue == [] && !c.senderAlive && c.terminal == Taken(true))
    && (client.ends > 0 ==> s.ended)
    && (!s.permit ==> s.ended || client.dropped)
  }

  /** The invariant: nothing sent is lost or reordered, and every ending is accounted for. */
  predicate Kept(s: State) {
    && SentShape(s.worker)
    && TerminalKept(s.channel, s.worker)
    && StreamKept(s.channel, s.stream, s.client)
    && s.client.yielded + s.channel.queue == s.worker.sent
  }

  lemma QuietStepKeepsShape(c: Channel, w: Worker, capacity: nat, choice: Choice)
    requires SentShape(w) && MessageOf(w.pc).None?
    ensures SentShape(WorkerNext(c, w, capacity, choice))
  {
  }

  lemma FailedSendKeepsShape(c: Channel, w: Worker, capacity: nat, choice: Choice)
    requires SentShape(w) && MessageOf(w.pc).Some? && !Sends(c, w, capacity, choice)
    ensures SentShape(WorkerNext(c, w, capacity, choice))
  {
  }

  /** Each message takes the exchange one step further. */
  lemma SentMore(sent: seq<Message>, message: Message)
    ensures sent == [] && message.Header? ==> Streaming(sent + [message])
    ensures Streaming(sent) && message.Data? ==> Streaming(sent + [message])
    ensures Streaming(sent) && message.Event? ==> WithEvent(sent + [message])
    ensures WithEvent(sent) && message.SuccessStatus? ==>
              var all := sent + [message];
              StreamedUpTo(all, |all| - 2) && all[|all| - 2] == Event && all[|all| - 1] == SuccessStatus
  {
  }

  lemma SendKeepsShape(c: Channel, w: Worker, capacity: nat, choice: Choice)
    requires SentShape(w)
    ensures SentShape(WorkerNext(c, w, capacity, choice))
  {
    if MessageOf(w.pc).None? {
      QuietStepKeepsShape(c, w, capacity, choice);
    } else if Sends(c, w, capacity, choice) {
      SentMore(w.sent, MessageOf(w.pc).value);
    } else {
      FailedSendKeepsShape(c, w, capacity, choice);
    }
  }

  lemma WorkKeepsTerminal(c: Channel, w: Worker, capacity: nat, choice: Choice)
    requires SentShape(w) && TerminalKept(c, w)
    ensures TerminalKept(WorkerChannel(c, w, capacity, choice), WorkerNext(c, w, capacity, choice))
  {
  }

  lemma WorkKeepsStream(c: Channel, w: Worker, s: Stream, client: Client, capacity: nat, choice: Choice)
    requires TerminalKept(c, w) && StreamKept(c, s, client)
    ensures StreamKept(WorkerChannel(c, w, capacity, choice), s, client)
  {
  }

  lemma WorkKeepsOrder(c: Channel, w: Worker, yielded: seq<Message>, capacity: nat, choice: Choice)
    requires yielded + c.queue == w.sent
    ensures yielded + WorkerChannel(c, w, capacity, choice).queue == WorkerNext(c, w, capacity, choice).sent
  {
    if Sends(c, w, capacity, choice) {
      var message := MessageOf(w.pc).value;
      assert yielded + (c.queue + [message]) == yielded + c.queue + [message];
    }
  }

  lemma WorkKeeps(s: State, capacity: nat, choice: Choice)
    requires Kept(s)
    ensures Kept(Step(s, capacity, Work(choice)))
  {
    SendKeepsShape(s.channel, s.worker, capacity, choice);
    WorkKeepsTerminal(s.channel, s.worker, capacity, choice);
    WorkKeepsStream(s.channel, s.worker, s.stream, s.client, capacity, choice);
    WorkKeepsOrder(s.channel, s.worker, s.client.yielded, capacity, choice);
  }

  lemma PollKeeps(s: State, capacity: nat, expired: bool)
    requires Kept(s)
    ensures Kept(Step(s, capacity, Poll(expired)))
  {
    var (c, t, item) := Polled(s.channel, s.stream, expired);
    if item.Next? {
      assert s.channel.queue == [item.message] + c.queue;
      assert s.client.yielded + ([item.message] + c.queue) == (s.client.yielded + [item.message]) + c.queue;
    }
  }

  lemma {:induction false} KeptAlways(capacity: nat, actions: seq<Action>, n: nat)
    requires n <= |actions|
    ensures Kept(Run(capacity, actions, n))
  {
    if n > 0 {
      KeptAlways(capacity, actions, n - 1);
      match actions[n - 1] {
        case Work(choice) => WorkKeeps(Run(capacity, actions, n - 1), capacity, choice);
        case Poll(expired) => PollKeeps(Run(capacity, actions, n - 1), capacity, expired);
        case _ =>
      }
    }
  }

  // ---------------------------------------------------------------- what the client may conclude

  /** Yielded messages are an in-order prefix of those sent, and at most one error is yielded. */
  lemma DeliveryIsAPrefix(capacity: nat, actions: seq<Action>, n: nat)
    requires n <= |actions|
    ensures var s := Run(capacity, actions, n); s.client.yielded <= s.worker.sent && s.client.errors <= 1
  {
    KeptAlways(capacity, actions, n);
  }

  /** After an error or an end only the end follows. */
  lemma NothingAfterTheEnd(capacity: nat, actions: seq<Action>, n: nat, expired: bool)
    requires n <= |actions|
    ensures var s := Run(capacity, actions, n);
            s.client.errors > 0 || s.client.ends > 0 ==>
                Polled(s.channel, s.stream, expired) == (s.channel, s.stream, End)
  {
    KeptAlways(capacity, actions, n);
  }

  /** A clean end means the worker succeeded and everything was drained: the client holds the whole exchange,
      from the header to the success status. */
  lemma CleanEndIsSuccess(capacity: nat, actions: seq<Action>, n: nat)
    requires n <= |actions|
    ensures var s := Run(capacity, actions, n);
            s.client.ends > 0 && s.client.errors == 0 ==> s.client.yielded == s.worker.sent && Success(s.worker)
  {
    KeptAlways(capacity, actions, n);
  }

  lemma OnlyTheLastIsSuccess(w: Worker, i: nat)
    requires SentShape(w) && i < |w.sent| && w.sent[i] == SuccessStatus
    ensures Success(w) && i == |w.sent| - 1
  {
  }

  /** The success status reaches a client only if streaming and closing the backend both succeeded, and then as the
      last message. */
  lemma SuccessStatusIsEarned(capacity: nat, actions: seq<Action>, n: nat, i: nat)
    requires n <= |actions| && i < |Run(capacity, actions, n).client.yielded|
    ensures var s := Run(capacity, actions, n);
            s.client.yielded[i] == SuccessStatus ==> s.worker.streamed && s.worker.cleaned && i == |s.worker.sent| - 1
  {
    KeptAlways(capacity, actions, n);
    var s := Run(capacity, actions, n);
    assert s.worker.sent[i] == s.client.yielded[i];
    if s.worker.sent[i] == SuccessStatus {
      OnlyTheLastIsSuccess(s.worker, i);
    }
  }

  /** Success is out of the worker's reach. */
  predicate Doomed(s: State) {
    || s.worker.pc == Closing(false) || s.worker.pc == Report(false)
    || (WorkerDone(s.worker) && s.channel.terminal != Sent(true) && s.channel.terminal != Taken(true))
  }

  lemma StaysDoomed(s: State, capacity: nat, a: Action)
    requires Doomed(s)
    ensures Doomed(Step(s, capacity, a))
  {
  }

  /** The worker stands before something that can still go wrong. */
  predicate AtWork(w: Worker) { !w.pc.Report? && !WorkerDone(w) }

  lemma {:induction false} FailureDooms(capacity: nat, actions: seq<Action>, i: nat, n: nat)
    requires i < n <= |actions| && actions[i].Work? && !actions[i].choice.works
    requires AtWork(Run(capacity, actions, i).worker)
    ensures Doomed(Run(capacity, actions, n))
    decreases n
  {
    if i < n - 1 {
      FailureDooms(capacity, actions, i, n - 1);
      StaysDoomed(Run(capacity, actions, n - 1), capacity, actions[n - 1]);
    } else {
      FailsNow(Run(capacity, actions, i), capacity, actions[i].choice);
    }
  }

  lemma DoomedEndsBadly(s: State)
    requires Doomed(s) && Kept(s)
    ensures s.client.ends > 0 ==> s.client.errors > 0
  {
  }

  /** Any step of the worker that does not work, be it starting, sending, reading, inference or closing the backend,
      dooms the request: whatever comes after, the client never sees a clean end. */
  lemma FailureIsFinal(capacity: nat, actions: seq<Action>, i: nat, n: nat)
    requires i < n <= |actions| && actions[i].Work? && !actions[i].choice.works
    requires AtWork(Run(capacity, actions, i).worker)
    ensures var client := Run(capacity, actions, n).client; client.ends > 0 ==> client.errors > 0
  {
    KeptAlways(capacity, actions, n);
    FailureDooms(capacity, actions, i, n);
    DoomedEndsBadly(Run(capacity, actions, n));
  }

  lemma FailsNow(s: State, capacity: nat, choice: Choice)
    requires !choice.works && AtWork(s.worker)
    ensures Doomed(Step(s, capacity, Work(choice)))
  {
  }

  lemma StaysCancelled(s: State, capacity: nat, a: Action)
    requires s.channel.cancelled
    ensures Step(s, capacity, a).channel.cancelled && Step(s, capacity, a).worker.sent == s.worker.sent
  {
  }

  /** Once the client has gone, its deadline has passed or the server shuts down, nothing more is sent. */
  lemma {:induction false} CancelledSendsNothing(capacity: nat, actions: seq<Action>, m: nat, n: nat)
    requires m <= n <= |actions| && Run(capacity, actions, m).channel.cancelled
    ensures Run(capacity, actions, n).channel.cancelled
    ensures Run(capacity, actions, n).worker.sent == Run(capacity, actions, m).worker.sent
    decreases n
  {
    if m < n {
      CancelledSendsNothing(capacity, actions, m, n - 1);
      StaysCancelled(Run(capacity, actions, n - 1), capacity, actions[n - 1]);
    }
  }

  /** Each of the three does cancel. */
  lemma EndingCancels(s: State, capacity: nat)
    ensures Step(s, capacity, DropStream).channel.cancelled && Step(s, capacity, Shutdown).channel.cancelled
    ensures !s.client.dropped && !s.stream.ended ==> Step(s, capacity, Poll(true)).channel.cancelled
  {
  }

  /** The execution slot is free only after the worker reported its result, whatever became of the stream. */
  lemma SlotHeldByWorker(capacity: nat, actions: seq<Action>, n: nat)
    requires n <= |actions|
    ensures var s := Run(capacity, actions, n); !s.worker.permit && !s.stream.permit ==>
              !s.channel.terminal.Empty? && WorkerDone(s.worker)
  {
    KeptAlways(capacity, actions, n);
  }
}
