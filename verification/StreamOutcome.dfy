/**
 What a stream amounts to, read off the network's answers alone.  The concurrent machine is
 shown to refine a sequential reading of its log: the events it sends are those the log calls
 for, the error cell holds the error of the last answer, and the producer stops exactly at the
 first conclusive answer, unless the context ended.
 */
module StreamOutcome {
  import opened Basics
  import opened StreamProtocol
  import opened StreamSafety

  // ---------------------------------------------------------------- the sequential reading

  /** The error an answer amounts to, if it is a failure the client does not retry. */
  function ErrorOf(k: Kind, o: Outcome): Option<Error> {
    match o
    case Answered(status, message) =>
      if 400 <= status < 500 then Some(ApiError(status, message)) else None
    case Received(f) =>
      if k.EventBus? then None
      else if f.event == "timeout" then Some(StreamTimeout)
      else if f.event == "error" then Some(StreamFailed)
      else None
    case ReaderFailed(m) => Some(ReaderError(m))
    case _ => None
  }

  /** The event of a frame that announces no failure: the first request, or the data as it came. */
  function DataOf(k: Kind, f: Frame): seq<Event> {
    if k.EventBus? then (if f.decoded.EmptyObject? then [] else [RawEvent(f.data)])
    else if f.decoded.FirstRequest? then [StatusEvent(f.decoded.request)]
    else []
  }

  function EventsOf(k: Kind, o: Outcome): seq<Event> {
    if ErrorOf(k, o).Some? then [ErrorEvent(ErrorOf(k, o).value)]
    else if o.Received? then DataOf(k, o.frame)
    else []
  }

  function LogEvents(k: Kind, log: seq<Outcome>): seq<Event> {
    if log == [] then [] else LogEvents(k, log[..|log| - 1]) + EventsOf(k, log[|log| - 1])
  }

  function LogError(k: Kind, log: seq<Outcome>): Option<Error> {
    if log == [] then None else ErrorOf(k, log[|log| - 1])
  }

  /** A frame with a terminal status. */
  predicate IsTerminalFrame(k: Kind, o: Outcome) {
    && k.RequestStatus? && o.Received? && ErrorOf(k, o) == None
    && o.frame.decoded.FirstRequest? && o.frame.decoded.request.status in k.terminal
  }

  /** The empty object, by which the server says that it is through. */
  predicate IsSentinel(k: Kind, o: Outcome) {
    o.Received? && ErrorOf(k, o) == None && o.frame.decoded.EmptyObject?
  }

  /** An answer after which the client makes no further attempt. */
  predicate Concludes(k: Kind, o: Outcome) {
    o == BuildFailed || IsSentinel(k, o) || IsTerminalFrame(k, o) || ErrorOf(k, o).Some?
  }

  predicate Concluded(k: Kind, log: seq<Outcome>) {
    log != [] && Concludes(k, log[|log| - 1])
  }

  // ---------------------------------------------------------------- the refinement

  /** The events the producer still holds in its hands. */
  function Pending(p: Phase): seq<Event> {
    match p
    case Recording(x) => [ErrorEvent(x)]
    case Offering(e) => [e]
    case _ => []
  }

  /** The producer is past its last answer. */
  predicate Leaving(k: Kind, p: Phase) {
    Ended(p) || p.Recording? || (p.Offering? && IsFinal(k, p.event))
  }

  /** All of `want` arrived, or the context ended and the last event was given up. */
  ghost predicate SentUpTo(want: seq<Event>, sent: seq<Event>, cancelled: bool) {
    want == sent || (cancelled && want != [] && want[..|want| - 1] == sent)
  }

  ghost predicate EventsInv(k: Kind, s: State) {
    if Ended(s.Phase()) then SentUpTo(LogEvents(k, s.log), s.ch.sent, s.cancelled)
    else LogEvents(k, s.log) == s.ch.sent + Pending(s.Phase())
  }

  ghost predicate LogInv(k: Kind, s: State) {
    && (forall i :: 0 <= i < |s.log| - 1 ==> !Concludes(k, s.log[i]))
    && (Concluded(k, s.log) ==> Leaving(k, s.Phase()))
    && (Leaving(k, s.Phase()) ==> Concluded(k, s.log) || (s.cancelled && Ended(s.Phase())))
    && s.err == (if s.Phase().Recording? then None else LogError(k, s.log))
    && (s.Phase().Recording? ==> LogError(k, s.log) == Some(s.Phase().error))
  }

  lemma {:induction false} LogEventsAppend(k: Kind, log: seq<Outcome>, o: Outcome)
    ensures LogEvents(k, log + [o]) == LogEvents(k, log) + EventsOf(k, o)
  {
    assert (log + [o])[..|log|] == log;
  }

  lemma {:induction false} PendingOf(k: Kind, s: State, o: Outcome)
    requires NetEnabled(s.Phase(), o)
    ensures Pending(OnOutcome(k, s, o).Phase()) == EventsOf(k, o)
    ensures OnOutcome(k, s, o).ch == s.ch
    ensures OnOutcome(k, s, o).err == s.err && OnOutcome(k, s, o).cancelled == s.cancelled
  {
  }

  lemma {:induction false} EventsNet(k: Kind, s: State, o: Outcome)
    requires EventsInv(k, s) && NetEnabled(s.Phase(), o)
    ensures EventsInv(k, ApplyStep(k, s, Net(o)))
  {
    PendingOf(k, s, o);
    EventsGrow(k, s, o, ApplyStep(k, s, Net(o)));
  }

  lemma {:induction false} EventsGrow(k: Kind, s: State, o: Outcome, t: State)
    requires EventsInv(k, s) && !Ended(s.Phase()) && Pending(s.Phase()) == []
    requires t.log == s.log + [o] && t.ch == s.ch && Pending(t.Phase()) == EventsOf(k, o)
    ensures EventsInv(k, t)
  {
    LogEventsAppend(k, s.log, o);
    assert s.ch.sent + [] == s.ch.sent;
  }

  lemma {:induction false} EventsStep(k: Kind, s: State, g: Step)
    requires ChannelInv(s) && EventsInv(k, s) && StepEnabled(s, g)
    ensures EventsInv(k, ApplyStep(k, s, g))
  {
    if g.Net? {
      EventsNet(k, s, g.outcome);
    } else if g == AbandonSend {
      var want := LogEvents(k, s.log);
      assert want[..|want| - 1] == s.ch.sent;
    } else if g == SendEvent {
      assert s.ch.sent + [s.Phase().event] + [] == s.ch.sent + [s.Phase().event];
    }
  }

  lemma {:induction false} LogNet(k: Kind, s: State, o: Outcome)
    requires LogInv(k, s) && NetEnabled(s.Phase(), o)
    ensures LogInv(k, ApplyStep(k, s, Net(o)))
  {
    PendingOf(k, s, o);
    var t := ApplyStep(k, s, Net(o));
    assert t.log[|t.log| - 1] == o;
    assert !Concluded(k, s.log);
    assert Concludes(k, o) <==> Leaving(k, t.Phase());
    forall i | 0 <= i < |t.log| - 1 ensures !Concludes(k, t.log[i]) {
      assert t.log[i] == s.log[i];
    }
  }

  lemma {:induction false} LogStep(k: Kind, s: State, g: Step)
    requires LogInv(k, s) && ErrInv(s.Phase(), s.err, s.ch.sent) && StepEnabled(s, g)
    ensures LogInv(k, ApplyStep(k, s, g))
  {
    if g.Net? {
      LogNet(k, s, g.outcome);
    }
  }

  lemma {:induction false} OutcomeAlong(k: Kind, s: State, run: seq<Action>)
    requires Inv(k, s) && EventsInv(k, s) && LogInv(k, s) && ValidRun(k, s, run)
    ensures var t := Run(k, s, run); Inv(k, t) && EventsInv(k, t) && LogInv(k, t)
    decreases |run|
  {
    if run == [] {
    } else {
      InvStep(k, s, run[0]);
      if run[0].Go? {
        EventsStep(k, s, run[0].step);
        LogStep(k, s, run[0].step);
      }
      OutcomeAlong(k, Apply(k, s, run[0]), run[1..]);
    }
  }

  /**
   A stream that has ended did what the log calls for.  With a live context it sent exactly the
   log's events and stopped at the log's only conclusive answer; if the context ended, at most the
   last event is missing.  Either way the error cell holds the error of the last answer.
   */
  lemma {:induction false} EndedTheorem(k: Kind, run: seq<Action>)
    requires ValidRun(k, Init(), run) && Ended(Run(k, Init(), run).Phase())
    ensures var s := Run(k, Init(), run);
      && s.err == LogError(k, s.log)
      && SentUpTo(LogEvents(k, s.log), s.ch.sent, s.cancelled)
      && (forall i :: 0 <= i < |s.log| - 1 ==> !Concludes(k, s.log[i]))
      && (!s.cancelled ==> Concluded(k, s.log))
  {
    OutcomeAlong(k, Init(), run);
  }

  /** The last answer of a log. */
  predicate EndsWith(log: seq<Outcome>, o: Outcome) {
    log != [] && log[|log| - 1] == o
  }

  /** The log ends with a frame of that name. */
  predicate EndsWithFrame(log: seq<Outcome>, name: string) {
    log != [] && log[|log| - 1].Received? && log[|log| - 1].frame.event == name
  }

  /**
   Once a request stream has ended, each error means one thing: a timeout or a failure the server
   announced by name, a client error status, or a reader failure, always as the last answer.
   */
  lemma {:induction false} ErrorMeaning(k: Kind, run: seq<Action>)
    requires k.RequestStatus? && ValidRun(k, Init(), run) && Ended(Run(k, Init(), run).Phase())
    ensures var s := Run(k, Init(), run);
      && (s.err == Some(StreamTimeout) <==> EndsWithFrame(s.log, "timeout"))
      && (s.err == Some(StreamFailed) <==> EndsWithFrame(s.log, "error"))
      && (forall status: int, m :: s.err == Some(ApiError(status, m)) <==>
            400 <= status < 500 && EndsWith(s.log, Answered(status, m)))
      && (forall m :: s.err == Some(ReaderError(m)) <==> EndsWith(s.log, ReaderFailed(m)))
  {
    EndedTheorem(k, run);
  }

  // ---------------------------------------------------------------- what was delivered

  /** The frames the server sent, in order. */
  function Frames(log: seq<Outcome>): seq<Frame> {
    if log == [] then []
    else Frames(log[..|log| - 1]) + if log[|log| - 1].Received? then [log[|log| - 1].frame] else []
  }

  /** The requests the server reported: frames not named a timeout or an error that carry one. */
  function Requests(fs: seq<Frame>): seq<Request> {
    if fs == [] then []
    else
      var f := fs[|fs| - 1];
      Requests(fs[..|fs| - 1]) +
      if f.event != "timeout" && f.event != "error" && f.decoded.FirstRequest? then [f.decoded.request] else []
  }

  function StatusEvents(rs: seq<Request>): (es: seq<Event>)
    ensures |es| == |rs| && forall i :: 0 <= i < |es| ==> es[i] == StatusEvent(rs[i])
  {
    seq(|rs|, i requires 0 <= i < |rs| => StatusEvent(rs[i]))
  }

  function ErrorEvents(err: Option<Error>): seq<Event> {
    if err.Some? then [ErrorEvent(err.value)] else []
  }

  /** What the event bus carried: the data of every frame but the empty object. */
  function Payloads(fs: seq<Frame>): seq<string> {
    if fs == [] then []
    else
      var f := fs[|fs| - 1];
      Payloads(fs[..|fs| - 1]) + if f.decoded.EmptyObject? then [] else [f.data]
  }

  function RawEvents(ds: seq<string>): (es: seq<Event>)
    ensures |es| == |ds| && forall i :: 0 <= i < |es| ==> es[i] == RawEvent(ds[i])
  {
    seq(|ds|, i requires 0 <= i < |ds| => RawEvent(ds[i]))
  }

  /** The events of all data frames, failures aside. */
  function Reported(k: Kind, fs: seq<Frame>): seq<Event> {
    if k.RequestStatus? then StatusEvents(Requests(fs)) else RawEvents(Payloads(fs))
  }

  lemma {:induction false} ReportedLast(k: Kind, fs: seq<Frame>, f: Frame)
    ensures Reported(k, fs + [f]) == Reported(k, fs) +
      if ErrorOf(k, Received(f)) == None then DataOf(k, f) else []
  {
    assert (fs + [f])[..|fs|] == fs;
  }

  lemma {:induction false} CalledLast(k: Kind, before: seq<Outcome>, o: Outcome)
    ensures Reported(k, Frames(before + [o])) + ErrorEvents(ErrorOf(k, o)) ==
            Reported(k, Frames(before)) + EventsOf(k, o)
  {
    var fs := Frames(before);
    assert (before + [o])[..|before|] == before;
    if o.Received? {
      ReportedLast(k, fs, o.frame);
    } else {
      assert fs + [] == fs;
    }
  }

  /** A log calls for what its frames report, one event each, and then for the error if any. */
  lemma {:induction false} CalledFor(k: Kind, log: seq<Outcome>)
    requires forall i :: 0 <= i < |log| - 1 ==> !Concludes(k, log[i])
    ensures LogEvents(k, log) == Reported(k, Frames(log)) + ErrorEvents(LogError(k, log))
    decreases |log|
  {
    if log == [] {
    } else {
      var before, o := log[..|log| - 1], log[|log| - 1];
      CalledFor(k, before);
      assert LogError(k, before) == None;
      assert Reported(k, Frames(before)) + [] == Reported(k, Frames(before));
      assert before + [o] == log;
      CalledLast(k, before, o);
    }
  }

  /** In every run: in order, without gaps, and all of it once the stream has ended with a live context. */
  lemma {:induction false} Delivered(k: Kind, run: seq<Action>)
    requires ValidRun(k, Init(), run)
    ensures var s := Run(k, Init(), run);
      var want := Reported(k, Frames(s.log)) + ErrorEvents(LogError(k, s.log));
      s.ch.sent <= want && (Ended(s.Phase()) && !s.cancelled ==> s.ch.sent == want)
  {
    OutcomeAlong(k, Init(), run);
    CalledFor(k, Run(k, Init(), run).log);
  }

  /**
   In every run what was sent on a request stream is the requests the server reported, in order and
   without gaps, and after them nothing but the error; once the stream has ended with a live context,
   all of them.
   */
  lemma {:induction false} RequestsDelivered(k: Kind, run: seq<Action>)
    requires k.RequestStatus? && ValidRun(k, Init(), run)
    ensures var s := Run(k, Init(), run);
      var want := StatusEvents(Requests(Frames(s.log))) + ErrorEvents(LogError(k, s.log));
      s.ch.sent <= want && (Ended(s.Phase()) && !s.cancelled ==> s.ch.sent == want)
  {
    Delivered(k, run);
  }

  /**
   In every run what was sent on the event bus is the data of the frames received, in order and
   without gaps, and after it nothing but the error; once the stream has ended with a live context,
   no frame but the empty object is missing.
   */
  lemma {:induction false} PayloadsDelivered(k: Kind, run: seq<Action>)
    requires k.EventBus? && ValidRun(k, Init(), run)
    ensures var s := Run(k, Init(), run);
      var want := RawEvents(Payloads(Frames(s.log))) + ErrorEvents(LogError(k, s.log));
      s.ch.sent <= want && (Ended(s.Phase()) && !s.cancelled ==> s.ch.sent == want)
  {
    Delivered(k, run);
  }

  /**
   A frame on its own fields.  A frame with a request the caller is told, and the stream goes on
   unless its status is terminal; one without a request changes nothing; the empty object ends the
   stream without a word; and a frame named a timeout or an error ends it with that error.
   */
  lemma {:induction false} FrameMeaning(terminal: set<string>, s: State, f: Frame)
    requires StepEnabled(s, Net(Received(f)))
    ensures var p := ApplyStep(RequestStatus(terminal), s, Net(Received(f))).Phase();
      if f.event == "timeout" then p == Recording(StreamTimeout)
      else if f.event == "error" then p == Recording(StreamFailed)
      else p == (match f.decoded
                 case EmptyObject => Returned
                 case NoRequest => ReadHead
                 case FirstRequest(r) => Offering(StatusEvent(r)))
    ensures var p := ApplyStep(EventBus, s, Net(Received(f))).Phase();
      p == if f.decoded.EmptyObject? then Returned else Offering(RawEvent(f.data))
  {
  }

  /**
   The other answers.  A connection that fails, an answer of 500 and above and the end of a response
   lead to a wait; a status of 400 to 499 and a failing reader are errors; every other status is read;
   and a request that cannot be built ends the stream.
   */
  lemma {:induction false} AnswerMeaning(k: Kind, s: State, o: Outcome)
    requires StepEnabled(s, Net(o)) && !o.Received?
    ensures var t := ApplyStep(k, s, Net(o));
      && t.log == s.log + [o]
      && t.Phase() == (match o
                       case BuildFailed => Returned
                       case ConnectFailed => BackingOff
                       case Answered(status, m) =>
                         if status >= 500 then BackingOff
                         else if status >= 400 then Recording(ApiError(status, m))
                         else ReadHead
                       case CleanEof => BackingOff
                       case ReaderFailed(m) => Recording(ReaderError(m)))
  {
  }

  /** Any answer can come where one is awaited: the network is not restrained. */
  lemma {:induction false} AnyAnswer(s: State, o: Outcome)
    ensures s.Phase() == Building ==> StepEnabled(s, Net(BuildFailed)) && StepEnabled(s, Built)
    ensures s.Phase() == Connecting && (o.ConnectFailed? || o.Answered?) ==> StepEnabled(s, Net(o))
    ensures s.Phase() == Reading && (o.Received? || o.CleanEof? || o.ReaderFailed?) ==> StepEnabled(s, Net(o))
  {
  }

  // ---------------------------------------------------------------- WaitForCompletion

  predicate IsData(e: Event) {
    !e.ErrorEvent?
  }

  /** `last` is the final data event of `events`, or None when there is none. */
  predicate IsLastData(events: seq<Event>, last: Option<Event>) {
    match last
    case None => forall i :: 0 <= i < |events| ==> !IsData(events[i])
    case Some(e) =>
      IsData(e) && exists i :: 0 <= i < |events| && events[i] == e &&
                               forall j :: i < j < |events| ==> !IsData(events[j])
  }

  predicate HasTerminalStatus(k: Kind, last: Option<Event>) {
    && k.RequestStatus?
    && last.Some? && last.value.StatusEvent? && last.value.request.status in k.terminal
  }

  /** The run ends where Next reports that the stream is closed. */
  predicate Drained(s: State) {
    s.ch.closed && s.ch.buffer == []
  }

  /** The two answers that end a stream without an error and without a terminal status. */
  predicate EndsSilently(k: Kind, log: seq<Outcome>) {
    log != [] && (log[|log| - 1] == BuildFailed || IsSentinel(k, log[|log| - 1]))
  }

  /** The last answer was a frame with a terminal status. */
  predicate EndsTerminal(k: Kind, log: seq<Outcome>) {
    log != [] && IsTerminalFrame(k, log[|log| - 1])
  }

  /** The context ended while the terminal status was being sent, and the send was abandoned. */
  predicate TerminalGivenUp(k: Kind, s: State) {
    EndsTerminal(k, s.log) && s.ch.sent != LogEvents(k, s.log)
  }

  /**
   WaitForCompletion over any run that ends with a drained, closed stream.  It returns the last
   data event, never an error event, and the first error recorded; and the three results a caller
   can see are told apart exactly: an error if and only if the last answer was a failure; a terminal
   status if and only if the last answer was a frame of that status and its event was not given up;
   neither if and only if the last answer ends the stream silently, or there was no conclusive
   answer, or the terminal event was given up.  The last two take a context that has ended; with a
   live one the event returned is the last request the server reported.
   */
  method WaitForCompletion(k: Kind, run: seq<Action>) returns (last: Option<Event>, err: Option<Error>)
    requires k.RequestStatus? && ValidRun(k, Init(), run) && Drained(Run(k, Init(), run))
    ensures var s := Run(k, Init(), run);
      && IsLastData(s.ch.sent, last)
      && err == s.err == LogError(k, s.log)
      && (err == None && HasTerminalStatus(k, last) <==>
            EndsTerminal(k, s.log) && !TerminalGivenUp(k, s))
      && (err == None && !HasTerminalStatus(k, last) <==>
            EndsSilently(k, s.log) || !Concluded(k, s.log) || TerminalGivenUp(k, s))
      && (!Concluded(k, s.log) || TerminalGivenUp(k, s) ==> s.cancelled)
      && (!s.cancelled ==> last == LastStatus(Requests(Frames(s.log))))
  {
    var s := Run(k, Init(), run);
    EndedOnceDrained(k, run);
    last := LastEvent(s.ch.received);
    err := s.err;
    TerminalLast(k, run, last);
    LogEndings(k, s.log);
    if !s.cancelled {
      RequestsDelivered(k, run);
      LastReported(Requests(Frames(s.log)), LogError(k, s.log), last);
    }
  }

  function LastStatus(rs: seq<Request>): Option<Event> {
    if rs == [] then None else Some(StatusEvent(rs[|rs| - 1]))
  }

  lemma {:induction false} LastReported(rs: seq<Request>, err: Option<Error>, last: Option<Event>)
    requires IsLastData(StatusEvents(rs) + ErrorEvents(err), last)
    ensures last == LastStatus(rs)
  {
    var es := StatusEvents(rs) + ErrorEvents(err);
    if rs != [] {
      assert es[|rs| - 1] == StatusEvent(rs[|rs| - 1]);
    }
  }

  /** The loop over Next: error events are passed over, the last of the others is kept. */
  method LastEvent(events: seq<Event>) returns (last: Option<Event>)
    ensures IsLastData(events, last)
  {
    last := None;
    var i := 0;
    while i < |events|
      invariant 0 <= i <= |events|
      invariant IsLastData(events[..i], last)
    {
      var event := events[i];
      if IsData(event) {
        last := Some(event);
        assert events[..i + 1][i] == event;
      } else {
        LastDataSkips(events[..i], event, last);
        assert events[..i + 1] == events[..i] + [event];
      }
      i := i + 1;
    }
    assert events[..i] == events;
  }

  /** How a log can end, and which of its endings are failures. */
  lemma {:induction false} LogEndings(k: Kind, log: seq<Outcome>)
    ensures EndsTerminal(k, log) || EndsSilently(k, log) ==> LogError(k, log) == None
    ensures EndsTerminal(k, log) ==> !EndsSilently(k, log)
    ensures Concluded(k, log) <==>
            EndsTerminal(k, log) || EndsSilently(k, log) || LogError(k, log).Some?
  {
  }

  lemma {:induction false} OneStep(k: Kind, s: State, a: Action, rest: seq<Action>)
    requires Enabled(s, a) && ValidRun(k, Apply(k, s, a), rest)
    ensures ValidRun(k, s, [a] + rest) && Run(k, s, [a] + rest) == Run(k, Apply(k, s, a), rest)
  {
    assert ([a] + rest)[1..] == rest;
  }

  /**
   So the documented promise, to stream until a terminal status, is not kept by every run: one that
   cannot build its request ends with no event and no error.
   */
  lemma {:induction false} SilentEndExists(k: Kind)
    ensures var run := [Go(Observe)] + ([Go(Net(BuildFailed))] + ([Go(CloseChannel)] + []));
      && ValidRun(k, Init(), run)
      && var s := Run(k, Init(), run);
         Drained(s) && !s.cancelled && s.err == None && s.ch.sent == [] && EndsSilently(k, s.log)
  {
    var s1 := Apply(k, Init(), Go(Observe));
    var s2 := Apply(k, s1, Go(Net(BuildFailed)));
    OneStep(k, s2, Go(CloseChannel), []);
    OneStep(k, s1, Go(Net(BuildFailed)), [Go(CloseChannel)] + []);
    OneStep(k, Init(), Go(Observe), [Go(Net(BuildFailed))] + ([Go(CloseChannel)] + []));
  }

  /** Another ends that way because its context had ended before any answer came. */
  lemma {:induction false} CancelledEndExists(k: Kind)
    ensures var run := [Cancel] + ([Go(Observe)] + ([Go(CloseChannel)] + []));
      && ValidRun(k, Init(), run)
      && var s := Run(k, Init(), run);
         Drained(s) && s.err == None && s.ch.sent == [] && !Concluded(k, s.log)
  {
    var s1 := Apply(k, Init(), Cancel);
    var s2 := Apply(k, s1, Go(Observe));
    OneStep(k, s2, Go(CloseChannel), []);
    OneStep(k, s1, Go(Observe), [Go(CloseChannel)] + []);
    OneStep(k, Init(), Cancel, [Go(Observe)] + ([Go(CloseChannel)] + []));
  }

  /** The end of a run in which a frame arrives and its event is given up. */
  function GivingUp(f: Frame): seq<Action> {
    [Cancel] + ([Go(Net(Received(f)))] + ([Go(AbandonSend)] + ([Go(CloseChannel)] + [])))
  }

  /** Where that leads. */
  lemma {:induction false} GivenUpState(k: Kind, s: State, f: Frame, t: State)
    requires s.Phase() == Reading && s.ch.buffer == []
    requires LogEvents(k, s.log) == s.ch.sent && IsTerminalFrame(k, Received(f))
    requires t.ch == s.ch.(closed := true) && t.log == s.log + [Received(f)]
    ensures Drained(t) && TerminalGivenUp(k, t)
  {
    LogEventsAppend(k, s.log, Received(f));
    assert t.log[|s.log|] == Received(f);
  }

  lemma {:induction false} GivenUpFrom(k: Kind, s: State, f: Frame)
    requires s.Phase() == Reading && !s.cancelled && !s.ch.closed && s.ch.buffer == []
    requires LogEvents(k, s.log) == s.ch.sent && IsTerminalFrame(k, Received(f))
    ensures ValidRun(k, s, GivingUp(f))
    ensures var t := Run(k, s, GivingUp(f)); Drained(t) && t.err == s.err && TerminalGivenUp(k, t)
  {
    var net := Go(Net(Received(f)));
    var s1 := Apply(k, s, Cancel);
    var s2 := Apply(k, s1, net);
    var s3 := Apply(k, s2, Go(AbandonSend));
    OneStep(k, s3, Go(CloseChannel), []);
    OneStep(k, s2, Go(AbandonSend), [Go(CloseChannel)] + []);
    OneStep(k, s1, net, [Go(AbandonSend)] + ([Go(CloseChannel)] + []));
    OneStep(k, s, Cancel, [net] + ([Go(AbandonSend)] + ([Go(CloseChannel)] + [])));
    GivenUpState(k, s, f, Apply(k, s3, Go(CloseChannel)));
  }

  /** The first connection has been answered and is being read. */
  function FirstConnection(ok: Outcome): State {
    Init().(producer := Producer(Reading, 1, false, []), log := [ok])
  }

  function AfterConnecting(ok: Outcome, rest: seq<Action>): seq<Action> {
    [Go(Observe)] + ([Go(Built)] + ([Go(Net(ok))] + ([Go(Observe)] + rest)))
  }

  lemma {:induction false} ConnectedRun(k: Kind, ok: Outcome, rest: seq<Action>)
    requires ok.Answered? && ok.status == 200 && ValidRun(k, FirstConnection(ok), rest)
    ensures ValidRun(k, Init(), AfterConnecting(ok, rest))
    ensures Run(k, Init(), AfterConnecting(ok, rest)) == Run(k, FirstConnection(ok), rest)
  {
    var s1 := Apply(k, Init(), Go(Observe));
    var s2 := Apply(k, s1, Go(Built));
    var s3 := Apply(k, s2, Go(Net(ok)));
    assert Apply(k, s3, Go(Observe)) == FirstConnection(ok);
    OneStep(k, s3, Go(Observe), rest);
    OneStep(k, s2, Go(Net(ok)), [Go(Observe)] + rest);
    OneStep(k, s1, Go(Built), [Go(Net(ok))] + ([Go(Observe)] + rest));
    OneStep(k, Init(), Go(Observe), [Go(Built)] + ([Go(Net(ok))] + ([Go(Observe)] + rest)));
  }

  /** And a third reads the terminal status but gives its event up, the context having ended. */
  lemma {:induction false} GivenUpEndExists(k: Kind, ok: Outcome, f: Frame)
    requires ok.Answered? && ok.status == 200 && IsTerminalFrame(k, Received(f))
    ensures var run := AfterConnecting(ok, GivingUp(f));
      && ValidRun(k, Init(), run)
      && var s := Run(k, Init(), run);
         Drained(s) && s.err == None && TerminalGivenUp(k, s)
  {
    LogEventsAppend(k, [], ok);
    assert [] + [ok] == [ok] && LogEvents(k, [ok]) == [];
    GivenUpFrom(k, FirstConnection(ok), f);
    ConnectedRun(k, ok, GivingUp(f));
  }

  lemma {:induction false} LastDataSkips(events: seq<Event>, e: Event, last: Option<Event>)
    requires IsLastData(events, last) && !IsData(e)
    ensures IsLastData(events + [e], last)
  {
    if last.Some? {
      var i :| 0 <= i < |events| && events[i] == last.value &&
               forall j :: i < j < |events| ==> !IsData(events[j]);
      assert (events + [e])[i] == last.value;
    }
  }

  lemma {:induction false} EndedOnceDrained(k: Kind, run: seq<Action>)
    requires ValidRun(k, Init(), run) && Drained(Run(k, Init(), run))
    ensures var s := Run(k, Init(), run);
      && Ended(s.Phase()) && s.ch.received == s.ch.sent && Inv(k, s) && EventsInv(k, s) && LogInv(k, s)
  {
    OutcomeAlong(k, Init(), run);
  }

  /** Events of a log are non-final up to its last answer. */
  lemma {:induction false} LogEventsNonFinal(k: Kind, log: seq<Outcome>)
    requires forall i :: 0 <= i < |log| ==> !Concludes(k, log[i])
    ensures forall i :: 0 <= i < |LogEvents(k, log)| ==> !IsFinal(k, LogEvents(k, log)[i])
  {
    if log == [] {
    } else {
      LogEventsNonFinal(k, log[..|log| - 1]);
      assert !Concludes(k, log[|log| - 1]);
    }
  }

  lemma {:induction false} NoTerminalAmong(k: Kind, events: seq<Event>, last: Option<Event>)
    requires IsLastData(events, last)
    requires forall i :: 0 <= i < |events| ==> events[i].ErrorEvent? || !IsFinal(k, events[i])
    ensures !HasTerminalStatus(k, last)
  {
  }

  /** The events before the last answer are not final, and an answer calls for at most one event. */
  lemma {:induction false} FinalOnlyLast(k: Kind, log: seq<Outcome>)
    requires forall i :: 0 <= i < |log| - 1 ==> !Concludes(k, log[i])
    ensures var want := LogEvents(k, log);
      && (forall i :: 0 <= i < |want| - 1 ==> !IsFinal(k, want[i]))
      && (want != [] && IsFinal(k, want[|want| - 1]) ==>
            want[|want| - 1].ErrorEvent? || EndsTerminal(k, log))
  {
    if log != [] {
      LogEventsNonFinal(k, log[..|log| - 1]);
    }
  }

  /** A log that ends with a terminal frame calls for its event last. */
  lemma {:induction false} TerminalCalled(k: Kind, log: seq<Outcome>, last: Option<Event>)
    requires k.RequestStatus? && EndsTerminal(k, log) && IsLastData(LogEvents(k, log), last)
    ensures HasTerminalStatus(k, last)
  {
    var n := |log| - 1;
    LastIs(LogEvents(k, log[..n]), StatusEvent(log[n].frame.decoded.request), last);
  }

  /** In every other case nothing that was sent is a terminal status. */
  lemma {:induction false} TerminalNotSent(k: Kind, log: seq<Outcome>, sent: seq<Event>, cancelled: bool, last: Option<Event>)
    requires forall i :: 0 <= i < |log| - 1 ==> !Concludes(k, log[i])
    requires SentUpTo(LogEvents(k, log), sent, cancelled) && IsLastData(sent, last)
    requires !EndsTerminal(k, log) || sent != LogEvents(k, log)
    ensures !HasTerminalStatus(k, last)
  {
    var want := LogEvents(k, log);
    FinalOnlyLast(k, log);
    forall i | 0 <= i < |sent| ensures sent[i].ErrorEvent? || !IsFinal(k, sent[i]) {
      assert sent[i] == want[i];
    }
    NoTerminalAmong(k, sent, last);
  }

  /**
   The last data event is terminal exactly when the last answer was a terminal frame and its event
   was not given up.
   */
  lemma {:induction false} TerminalLast(k: Kind, run: seq<Action>, last: Option<Event>)
    requires k.RequestStatus? && ValidRun(k, Init(), run) && Drained(Run(k, Init(), run))
    requires IsLastData(Run(k, Init(), run).ch.sent, last)
    ensures var s := Run(k, Init(), run);
      && (HasTerminalStatus(k, last) <==> EndsTerminal(k, s.log) && !TerminalGivenUp(k, s))
      && (!Concluded(k, s.log) || TerminalGivenUp(k, s) ==> s.cancelled)
  {
    EndedOnceDrained(k, run);
    TerminalLastIn(k, Run(k, Init(), run), last);
  }

  lemma {:induction false} TerminalLastIn(k: Kind, s: State, last: Option<Event>)
    requires k.RequestStatus? && Ended(s.Phase()) && EventsInv(k, s) && LogInv(k, s) && IsLastData(s.ch.sent, last)
    ensures HasTerminalStatus(k, last) <==> EndsTerminal(k, s.log) && !TerminalGivenUp(k, s)
    ensures !Concluded(k, s.log) || TerminalGivenUp(k, s) ==> s.cancelled
  {
    if EndsTerminal(k, s.log) && s.ch.sent == LogEvents(k, s.log) {
      TerminalCalled(k, s.log, last);
    } else {
      TerminalNotSent(k, s.log, s.ch.sent, s.cancelled, last);
    }
  }

  lemma {:induction false} LastIs(before: seq<Event>, e: Event, last: Option<Event>)
    requires IsData(e) && IsLastData(before + [e], last)
    ensures last == Some(e)
  {
    assert (before + [e])[|before|] == e;
  }
}
