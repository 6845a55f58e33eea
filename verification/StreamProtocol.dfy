/**
 The streaming protocol of the Go SDK: a producer goroutine that connects, reads server-sent
 event frames, reconnects with backoff and pushes events into a bounded channel, while
 consumers receive, `Close` callers drain and wait, and the context may be cancelled at any
 moment.

 The protocol is a state machine.  An `Action` is one atomic step of one party; everything the
 original leaves to the scheduler, the timer, the network or Go's `select` is a choice of
 action.  A run is a sequence of actions, each enabled where it is taken.
 */
module StreamProtocol {
  import opened Basics

  // ---------------------------------------------------------------- frames, events, errors

  datatype Error =
    | ApiError(status: int, message: string)
    | ReaderError(message: string)
    | StreamTimeout
    | StreamFailed

  datatype Request = Request(requestId: string, status: string, message: string)

  /** What the payload decoder makes of the data field of a frame. */
  datatype Decoded = EmptyObject | NoRequest | FirstRequest(request: Request)

  datatype Frame = Frame(event: string, data: string, decoded: Decoded)

  datatype Event =
    | StatusEvent(request: Request)
    | RawEvent(data: string)
    | ErrorEvent(error: Error)

  /** The two streams the SDK offers: one request's status, and the global event bus. */
  datatype Kind = RequestStatus(terminal: set<string>) | EventBus

  datatype Verdict = Deliver(event: Event) | Skip | Finish | Fail(error: Error)

  /** The decisions of consumeSSE and consumeEvents on one frame, in their order. */
  function Classify(k: Kind, f: Frame): Verdict {
    match k
    case RequestStatus(_) =>
      if f.event == "timeout" then Fail(StreamTimeout)
      else if f.event == "error" then Fail(StreamFailed)
      else (
        match f.decoded
        case EmptyObject => Finish
        case NoRequest => Skip
        case FirstRequest(r) => Deliver(StatusEvent(r))
      )
    case EventBus =>
      if f.decoded.EmptyObject? then Finish else Deliver(RawEvent(f.data))
  }

  /** An event after which the stream carries nothing more. */
  predicate IsFinal(k: Kind, e: Event) {
    match e
    case ErrorEvent(_) => true
    case StatusEvent(r) => k.RequestStatus? && r.status in k.terminal
    case RawEvent(_) => false
  }

  // ---------------------------------------------------------------- state

  const CAPACITY: nat := 64
  const MAX_BACKOFF: nat := 30

  /** What the network (or the request builder) answered. */
  datatype Outcome =
    | BuildFailed
    | ConnectFailed
    | Answered(status: int, message: string)
    | Received(frame: Frame)
    | CleanEof
    | ReaderFailed(message: string)

  /** Where the producer goroutine stands. */
  datatype Phase =
    | LoopHead
    | Building
    | Connecting
    | BackingOff
    | ReadHead
    | Reading
    | Recording(error: Error)
    | Offering(event: Event)
    | Returned
    | ChannelClosed
    | Exited

  /** Where one call of Close stands. */
  datatype Closer = Cancelling | Draining | AwaitingDone | ClosedOk

  /** One entry into the backoff select: its duration, and how much had been sent by then. */
  datatype Wait = Wait(seconds: nat, sentSoFar: nat)

  /** The producer's own variables, and the history of its waits. */
  datatype Producer = Producer(phase: Phase, backoff: nat, gotEvents: bool, waits: seq<Wait>)

  /** The event channel, and the history of what went in and what came out. */
  datatype Channel = Channel(buffer: seq<Event>, closed: bool, sent: seq<Event>, received: seq<Event>)

  /**
   `log` is the history of network answers.  `panicked` records a send on a closed channel or a
   second close of one, which in Go ends the program.
   */
  datatype State = State(
    producer: Producer,
    ch: Channel,
    err: Option<Error>,
    cancelled: bool,
    doneClosed: bool,
    panicked: bool,
    closers: seq<Closer>,
    log: seq<Outcome>)
  {
    function Phase(): Phase { producer.phase }

    function At(p: Phase): State { this.(producer := producer.(phase := p)) }
  }

  function Init(): State {
    State(Producer(LoopHead, 1, false, []), Channel([], false, [], []), None, false, false, false, [], [])
  }

  /** The steps of the producer goroutine. */
  datatype Step =
    | Observe                  // the non-blocking look at ctx.Done at a loop head
    | Built                    // the HTTP request object was created
    | Net(outcome: Outcome)
    | TimerFires
    | StopWaiting              // ctx.Done chosen in the backoff select
    | RecordError              // setErr
    | SendEvent                // the channel send chosen in a select
    | AbandonSend              // ctx.Done chosen in a select around a send
    | CloseChannel
    | CloseDone

  datatype Action =
    | Go(step: Step)
    | Receive                  // Next, or the drain loop of Close, takes an event
    | Cancel                   // the caller's context ends
    | CallClose
    | CloserCancels(i: nat)
    | CloserDrained(i: nat)
    | CloserReturns(i: nat)

  // ---------------------------------------------------------------- steps

  predicate NetEnabled(p: Phase, o: Outcome) {
    match o
    case BuildFailed => p == Building
    case ConnectFailed => p == Connecting
    case Answered(_, _) => p == Connecting
    case Received(_) => p == Reading
    case CleanEof => p == Reading
    case ReaderFailed(_) => p == Reading
  }

  predicate StepEnabled(s: State, g: Step) {
    match g
    case Observe => s.Phase() == LoopHead || s.Phase() == ReadHead
    case Built => s.Phase() == Building
    case Net(o) => NetEnabled(s.Phase(), o)
    case TimerFires => s.Phase() == BackingOff
    case StopWaiting => s.Phase() == BackingOff && s.cancelled
    case RecordError => s.Phase().Recording?
    case SendEvent => s.Phase().Offering? && (s.ch.closed || |s.ch.buffer| < CAPACITY)
    case AbandonSend => s.Phase().Offering? && s.cancelled
    case CloseChannel => s.Phase() == Returned
    case CloseDone => s.Phase() == ChannelClosed
  }

  predicate Enabled(s: State, a: Action) {
    match a
    case Go(g) => StepEnabled(s, g)
    case Receive => s.ch.buffer != []
    case Cancel => !s.cancelled
    case CallClose => true
    case CloserCancels(i) => i < |s.closers| && s.closers[i] == Cancelling
    case CloserDrained(i) =>
      i < |s.closers| && s.closers[i] == Draining && s.ch.closed && s.ch.buffer == []
    case CloserReturns(i) => i < |s.closers| && s.closers[i] == AwaitingDone && s.doneClosed
  }

  /** Wait before the next attempt, `sent` events having been delivered so far. */
  function EnterBackoff(p: Producer, backoff: nat, sent: nat): Producer {
    p.(phase := BackingOff, backoff := backoff, waits := p.waits + [Wait(backoff, sent)])
  }

  function PhaseAfterFrame(k: Kind, f: Frame): Phase {
    match Classify(k, f)
    case Deliver(e) => Offering(e)
    case Skip => ReadHead
    case Finish => Returned
    case Fail(x) => Recording(x)
  }

  function AfterOutcome(k: Kind, p: Producer, sent: nat, o: Outcome): Producer {
    match o
    case BuildFailed => p.(phase := Returned)
    case ConnectFailed => EnterBackoff(p, p.backoff, sent)
    case Answered(status, message) =>
      if status < 400 then p.(phase := ReadHead, gotEvents := false)
      else if status < 500 then p.(phase := Recording(ApiError(status, message)))
      else EnterBackoff(p, p.backoff, sent)
    case Received(f) => p.(phase := PhaseAfterFrame(k, f))
    case CleanEof => EnterBackoff(p, if p.gotEvents then 1 else p.backoff, sent)
    case ReaderFailed(m) => p.(phase := Recording(ReaderError(m)))
  }

  /** An answer of the network changes the producer's own state only. */
  function OnOutcome(k: Kind, s: State, o: Outcome): State {
    s.(producer := AfterOutcome(k, s.producer, |s.ch.sent|, o))
  }

  /** CompareAndSwap(nil, err): the first error stays. */
  function SetErr(cell: Option<Error>, error: Error): Option<Error> {
    if cell.None? then Some(error) else cell
  }

  function Push(s: State, e: Event): State {
    if s.ch.closed then s.(panicked := true)
    else s.(ch := s.ch.(buffer := s.ch.buffer + [e], sent := s.ch.sent + [e]))
  }

  /** The send succeeded: remember it, and stop after a final event. */
  function AfterSend(k: Kind, p: Producer, e: Event): Producer {
    p.(phase := if IsFinal(k, e) then Returned else ReadHead,
       gotEvents := p.gotEvents || !e.ErrorEvent?)
  }

  function ApplyStep(k: Kind, s: State, g: Step): State
    requires StepEnabled(s, g)
  {
    match g
    case Observe =>
      s.At(if s.cancelled then Returned else if s.Phase() == LoopHead then Building else Reading)
    case Built => s.At(Connecting)
    case Net(o) => OnOutcome(k, s, o).(log := s.log + [o])
    case TimerFires =>
      s.(producer := s.producer.(phase := LoopHead, backoff := Min(s.producer.backoff * 2, MAX_BACKOFF)))
    case StopWaiting => s.At(Returned)
    case RecordError =>
      s.At(Offering(ErrorEvent(s.Phase().error))).(err := SetErr(s.err, s.Phase().error))
    case SendEvent =>
      Push(s, s.Phase().event).(producer := AfterSend(k, s.producer, s.Phase().event))
    case AbandonSend => s.At(Returned)
    case CloseChannel =>
      s.At(ChannelClosed).(panicked := s.panicked || s.ch.closed, ch := s.ch.(closed := true))
    case CloseDone => s.At(Exited).(panicked := s.panicked || s.doneClosed, doneClosed := true)
  }

  function Take(c: Channel): Channel
    requires c.buffer != []
  {
    c.(buffer := c.buffer[1..], received := c.received + [c.buffer[0]])
  }

  function Apply(k: Kind, s: State, a: Action): State
    requires Enabled(s, a)
  {
    match a
    case Go(g) => ApplyStep(k, s, g)
    case Receive => s.(ch := Take(s.ch))
    case Cancel => s.(cancelled := true)
    case CallClose => s.(closers := s.closers + [Cancelling])
    case CloserCancels(i) => s.(cancelled := true, closers := s.closers[i := Draining])
    case CloserDrained(i) => s.(closers := s.closers[i := AwaitingDone])
    case CloserReturns(i) => s.(closers := s.closers[i := ClosedOk])
  }

  // ---------------------------------------------------------------- runs

  predicate ValidRun(k: Kind, s: State, run: seq<Action>)
    decreases |run|
  {
    run == [] || (Enabled(s, run[0]) && ValidRun(k, Apply(k, s, run[0]), run[1..]))
  }

  function Run(k: Kind, s: State, run: seq<Action>): State
    requires ValidRun(k, s, run)
    decreases |run|
  {
    if run == [] then s else Run(k, Apply(k, s, run[0]), run[1..])
  }

  /** The producer has left its loop; the deferred closes are what remains of it. */
  predicate Ended(p: Phase) {
    p == Returned || p == ChannelClosed || p == Exited
  }
}
