/**
 The SDK's client composed with its mock server.  The server's handler is a second state
 machine; a pipe of frames joins the two.  Status updates, simulated disconnects, transport
 failures, error statuses and dropped connections may come at any moment.
 */
module MockServer {
  import opened Basics
  import opened StreamProtocol
  import opened StreamSafety
  import opened StreamOutcome

  // ---------------------------------------------------------------- the server

  /** Where handleSSE stands for one connection. */
  datatype Stage = Looping | AfterTerminal | Finished

  datatype Conn = Conn(stage: Stage, sent: nat, disconnectAfter: int, pipe: seq<Frame>)

  /** The maps under the server's mutex, and the request and terminal set of one stream. */
  datatype Server = Server(
    requests: map<string, string>,
    sseDisconnectAfter: map<string, int>,
    id: string,
    terminal: set<string>)
  {
    function Status(): string { if id in requests then requests[id] else "" }
    function Limit(): int { if id in sseDisconnectAfter then sseDisconnectAfter[id] else 0 }
  }

  function StatusFrame(id: string, status: string): Frame {
    Frame("", "", FirstRequest(Request(id, status, "")))
  }

  const SENTINEL: Frame := Frame("", "{}", EmptyObject)

  /** One turn of the handler's loop: leave at the simulated disconnect, or send the status. */
  function Turn(v: Server, c: Conn): Conn
    requires c.stage == Looping
  {
    if c.disconnectAfter > 0 && c.sent >= c.disconnectAfter then c.(stage := Finished)
    else
      c.(stage := if v.Status() in v.terminal then AfterTerminal else Looping,
         sent := c.sent + 1,
         pipe := c.pipe + [StatusFrame(v.id, v.Status())])
  }

  /** After a terminal status the handler writes the empty object and is through. */
  function Sentinel(c: Conn): Conn {
    c.(stage := Finished, pipe := c.pipe + [SENTINEL])
  }

  // ---------------------------------------------------------------- the composition

  /** `held` is the history of statuses the request has had. */
  datatype Sys = Sys(client: State, server: Server, conn: Option<Conn>, held: set<string>)

  datatype SysAction =
    | Client(action: Action)
    | SetStatus(id: string, status: string)
    | SimulateDisconnect(id: string, afterN: int)
    | ServerTurn
    | ServerSentinel
    | ServerStops

  function InitSys(v: Server): Sys {
    Sys(Init(), v, None, {v.Status()})
  }

  /** The network gives the client only frames the server wrote, in order; it may fail at will. */
  predicate NetAllows(y: Sys, o: Outcome) {
    match o
    case BuildFailed => false
    case Received(f) => y.conn.Some? && y.conn.value.pipe != [] && f == y.conn.value.pipe[0]
    case _ => true
  }

  predicate SysEnabled(y: Sys, a: SysAction) {
    match a
    case Client(c) => Enabled(y.client, c) && (c.Go? && c.step.Net? ==> NetAllows(y, c.step.outcome))
    case SetStatus(_, _) => true
    case SimulateDisconnect(_, _) => true
    case ServerTurn => y.conn.Some? && y.conn.value.stage == Looping
    case ServerSentinel => y.conn.Some? && y.conn.value.stage == AfterTerminal
    case ServerStops => y.conn.Some?
  }

  /** What a network answer does to the connection. */
  function ConnAfter(y: Sys, o: Outcome): Option<Conn>
    requires NetAllows(y, o)
  {
    match o
    case Answered(status, _) =>
      if status < 400 then Some(Conn(Looping, 0, y.server.Limit(), [])) else None
    case Received(_) => Some(y.conn.value.(pipe := y.conn.value.pipe[1..]))
    case _ => None
  }

  function SysApply(k: Kind, y: Sys, a: SysAction): Sys
    requires SysEnabled(y, a)
  {
    match a
    case Client(c) =>
      y.(client := Apply(k, y.client, c),
         conn := if c.Go? && c.step.Net? then ConnAfter(y, c.step.outcome) else y.conn)
    case SetStatus(id, status) =>
      var v := y.server.(requests := y.server.requests[id := status]);
      y.(server := v, held := y.held + {v.Status()})
    case SimulateDisconnect(id, n) =>
      y.(server := y.server.(sseDisconnectAfter := y.server.sseDisconnectAfter[id := n]))
    case ServerTurn => y.(conn := Some(Turn(y.server, y.conn.value)))
    case ServerSentinel => y.(conn := Some(Sentinel(y.conn.value)))
    case ServerStops => y.(conn := Some(y.conn.value.(stage := Finished)))
  }

  predicate ValidSysRun(k: Kind, y: Sys, run: seq<SysAction>)
    decreases |run|
  {
    run == [] || (SysEnabled(y, run[0]) && ValidSysRun(k, SysApply(k, y, run[0]), run[1..]))
  }

  function SysRun(k: Kind, y: Sys, run: seq<SysAction>): Sys
    requires ValidSysRun(k, y, run)
    decreases |run|
  {
    if run == [] then y else SysRun(k, SysApply(k, y, run[0]), run[1..])
  }

  /** The client's part of a composed run. */
  function ClientPart(run: seq<SysAction>): seq<Action> {
    if run == [] then []
    else (if run[0].Client? then [run[0].action] else []) + ClientPart(run[1..])
  }

  /** Composition restricts the client but does not change it. */
  lemma {:induction false} ClientPartIsRun(k: Kind, y: Sys, run: seq<SysAction>)
    requires ValidSysRun(k, y, run)
    ensures ValidRun(k, y.client, ClientPart(run))
    ensures Run(k, y.client, ClientPart(run)) == SysRun(k, y, run).client
    decreases |run|
  {
    if run == [] {
    } else {
      ClientPartIsRun(k, SysApply(k, y, run[0]), run[1..]);
      if run[0].Client? {
        assert ClientPart(run)[1..] == ClientPart(run[1..]);
      } else {
        assert ClientPart(run) == ClientPart(run[1..]);
      }
    }
  }

  // ---------------------------------------------------------------- invariant

  /** A frame that reports a status the request has really had. */
  predicate Genuine(y: Sys, f: Frame) {
    && f.event == "" && f.decoded.FirstRequest?
    && f.decoded.request.requestId == y.server.id
    && f.decoded.request.status in y.held
  }

  predicate TerminalFrame(y: Sys, f: Frame) {
    Genuine(y, f) && f.decoded.request.status in y.server.terminal
  }

  predicate FrameOk(y: Sys, pipe: seq<Frame>, i: nat)
    requires i < |pipe|
  {
    Genuine(y, pipe[i]) || (pipe[i] == SENTINEL && i > 0 && TerminalFrame(y, pipe[i - 1]))
  }

  /** In the pipe a sentinel comes only right after a terminal frame. */
  ghost predicate PipeInv(y: Sys, c: Conn) {
    && (forall i :: 0 <= i < |c.pipe| ==> FrameOk(y, c.pipe, i))
    && (c.stage == AfterTerminal ==> c.pipe != [] && TerminalFrame(y, c.pipe[|c.pipe| - 1]))
  }

  predicate StillReading(k: Kind, p: Phase) {
    p == ReadHead || p == Reading || (p.Offering? && !IsFinal(k, p.event))
  }

  ghost predicate LogGenuine(y: Sys) {
    forall i :: 0 <= i < |y.client.log| ==>
      y.client.log[i] != BuildFailed &&
      (y.client.log[i].Received? ==> Genuine(y, y.client.log[i].frame))
  }

  ghost predicate SysInv(k: Kind, y: Sys) {
    && k.RequestStatus? && y.server.terminal <= k.terminal
    && y.server.Status() in y.held
    && (StillReading(k, y.client.Phase()) ==> y.conn.Some? && PipeInv(y, y.conn.value))
    && LogGenuine(y)
  }

  lemma {:induction false} ServerKeeps(k: Kind, y: Sys, a: SysAction)
    requires SysInv(k, y) && SysEnabled(y, a) && !a.Client?
    ensures SysInv(k, SysApply(k, y, a))
  {
    var z := SysApply(k, y, a);
    if StillReading(k, z.client.Phase()) {
      assert PipeInv(y, y.conn.value);
      PipeKeeps(k, y, a);
    }
  }

  lemma {:induction false} PipeKeeps(k: Kind, y: Sys, a: SysAction)
    requires SysEnabled(y, a) && !a.Client?
    requires y.server.Status() in y.held && y.conn.Some? && PipeInv(y, y.conn.value)
    ensures var z := SysApply(k, y, a); z.conn.Some? && PipeInv(z, z.conn.value)
  {
    var z := SysApply(k, y, a);
    var p, q := y.conn.value.pipe, z.conn.value.pipe;
    forall i | 0 <= i < |q| ensures FrameOk(z, q, i) {
      if i < |p| {
        assert FrameOk(y, p, i);
        assert q[i] == p[i];
      }
    }
  }

  /** A client that reads the pipe never sees a sentinel, and stops reading at a terminal frame. */
  lemma {:induction false} PipeRead(k: Kind, y: Sys, f: Frame)
    requires SysInv(k, y) && y.client.Phase() == Reading && NetAllows(y, Received(f))
    ensures Genuine(y, f)
    ensures TerminalFrame(y, f) ==> !StillReading(k, PhaseAfterFrame(k, f))
    ensures !TerminalFrame(y, f) ==> PipeInv(y, ConnAfter(y, Received(f)).value)
  {
    var c := y.conn.value;
    assert FrameOk(y, c.pipe, 0);
    if !TerminalFrame(y, f) {
      var q := c.pipe[1..];
      forall i | 0 <= i < |q| ensures FrameOk(y, q, i) {
        assert FrameOk(y, c.pipe, i + 1);
      }
    }
  }

  lemma {:induction false} NetKeeps(k: Kind, y: Sys, o: Outcome)
    requires SysInv(k, y) && SysEnabled(y, Client(Go(Net(o))))
    ensures SysInv(k, SysApply(k, y, Client(Go(Net(o)))))
  {
    var z := SysApply(k, y, Client(Go(Net(o))));
    if o.Received? {
      PipeRead(k, y, o.frame);
    }
    assert z.client.log == y.client.log + [o];
    SameFrames(y, z);
  }

  /** Nothing but the server's id, terminal set and status history matters to the invariant. */
  lemma {:induction false} SameFrames(y: Sys, z: Sys)
    requires y.server.id == z.server.id && y.server.terminal == z.server.terminal && y.held <= z.held
    ensures forall f :: Genuine(y, f) ==> Genuine(z, f)
    ensures forall c :: PipeInv(y, c) ==> PipeInv(z, c)
  {
    forall c | PipeInv(y, c) ensures PipeInv(z, c) {
      forall i | 0 <= i < |c.pipe| ensures FrameOk(z, c.pipe, i) {
        assert FrameOk(y, c.pipe, i);
      }
    }
  }

  lemma {:induction false} StepKeeps(k: Kind, y: Sys, a: Action)
    requires SysInv(k, y) && SysEnabled(y, Client(a)) && !(a.Go? && a.step.Net?)
    requires Inv(k, y.client)
    ensures SysInv(k, SysApply(k, y, Client(a)))
  {
    var z := SysApply(k, y, Client(a));
    assert z.client.log == y.client.log;
    SameFrames(y, z);
  }

  lemma {:induction false} SysInvAlong(k: Kind, y: Sys, run: seq<SysAction>)
    requires SysInv(k, y) && Inv(k, y.client) && ValidSysRun(k, y, run)
    ensures SysInv(k, SysRun(k, y, run))
    decreases |run|
  {
    if run == [] {
    } else {
      match run[0]
      case Client(c) =>
        InvStep(k, y.client, c);
        if c.Go? && c.step.Net? {
          NetKeeps(k, y, c.step.outcome);
        } else {
          StepKeeps(k, y, c);
        }
        SysInvAlong(k, SysApply(k, y, run[0]), run[1..]);
      case _ =>
        ServerKeeps(k, y, run[0]);
        SysInvAlong(k, SysApply(k, y, run[0]), run[1..]);
    }
  }

  /**
   Against the mock server, with a live context, the client can finish without an error only with
   a terminal status, and that status is one the request really had.
   */
  lemma {:induction false} CompositionTheorem(k: Kind, v: Server, run: seq<SysAction>, last: Option<Event>)
    requires k.RequestStatus? && v.terminal <= k.terminal
    requires ValidSysRun(k, InitSys(v), run)
    requires var s := SysRun(k, InitSys(v), run).client;
      Drained(s) && !s.cancelled && s.err == None && IsLastData(s.ch.sent, last)
    ensures HasTerminalStatus(k, last)
    ensures last.value.request.requestId == v.id
    ensures last.value.request.status in SysRun(k, InitSys(v), run).held
  {
    SysInvAlong(k, InitSys(v), run);
    ClientPartIsRun(k, InitSys(v), run);
    EndedOnceDrained(k, ClientPart(run));
    ServerIdFixed(k, InitSys(v), run);
    GenuineEnd(k, SysRun(k, InitSys(v), run), last);
  }

  /** A client that has ended without an error, its context live, got a genuine terminal frame. */
  lemma {:induction false} GenuineEnd(k: Kind, y: Sys, last: Option<Event>)
    requires k.RequestStatus? && LogGenuine(y)
    requires var s := y.client;
      && Ended(s.Phase()) && EventsInv(k, s) && LogInv(k, s)
      && !s.cancelled && s.err == None && IsLastData(s.ch.sent, last)
    ensures HasTerminalStatus(k, last) && last.value.request.requestId == y.server.id
    ensures last.value.request.status in y.held
  {
    var log := y.client.log;
    var n := |log| - 1;
    assert Concluded(k, log) && log[n].Received? && Genuine(y, log[n].frame);
    assert EndsTerminal(k, log);
    TerminalCalled(k, log, last);
    LastIs(LogEvents(k, log[..n]), StatusEvent(log[n].frame.decoded.request), last);
  }

  /** A simulated disconnect is honoured: no connection carries more statuses than it allows. */
  lemma {:induction false} DisconnectHonoured(k: Kind, y: Sys, run: seq<SysAction>)
    requires ValidSysRun(k, y, run) && (y.conn.Some? ==> WithinLimit(y.conn.value))
    ensures var c := SysRun(k, y, run).conn; c.Some? ==> WithinLimit(c.value)
    decreases |run|
  {
    if run == [] {
    } else {
      DisconnectHonoured(k, SysApply(k, y, run[0]), run[1..]);
    }
  }

  predicate WithinLimit(c: Conn) {
    && (c.disconnectAfter > 0 ==> c.sent <= c.disconnectAfter)
    && |c.pipe| <= c.sent + (if c.stage == Finished then 1 else 0)
  }

  lemma {:induction false} ServerIdFixed(k: Kind, y: Sys, run: seq<SysAction>)
    requires ValidSysRun(k, y, run)
    ensures SysRun(k, y, run).server.id == y.server.id
    decreases |run|
  {
    if run == [] {
    } else {
      ServerIdFixed(k, SysApply(k, y, run[0]), run[1..]);
    }
  }

  // ---------------------------------------------------------------- what the server was told

  /** The status last set for a request, or the one it had. */
  function LastStatusSet(id: string, run: seq<SysAction>, before: string): string {
    if run == [] then before
    else
      LastStatusSet(id, run[1..], if run[0].SetStatus? && run[0].id == id then run[0].status else before)
  }

  function LastLimitSet(id: string, run: seq<SysAction>, before: int): int {
    if run == [] then before
    else
      LastLimitSet(id, run[1..], if run[0].SimulateDisconnect? && run[0].id == id then run[0].afterN else before)
  }

  /** Every status the request has had in the run. */
  function StatusesSet(id: string, run: seq<SysAction>): set<string> {
    if run == [] then {}
    else (if run[0].SetStatus? && run[0].id == id then {run[0].status} else {}) + StatusesSet(id, run[1..])
  }

  /**
   The server's state is what it was told: the status and the limit are those last set for the
   request, and the history is exactly the statuses it started with and was given.
   */
  lemma {:induction false} ServerRemembers(k: Kind, y: Sys, run: seq<SysAction>)
    requires ValidSysRun(k, y, run) && y.server.Status() in y.held
    ensures var v, w := y.server, SysRun(k, y, run).server;
      && w.id == v.id && w.terminal == v.terminal
      && w.Status() == LastStatusSet(v.id, run, v.Status())
      && w.Limit() == LastLimitSet(v.id, run, v.Limit())
      && SysRun(k, y, run).held == y.held + StatusesSet(v.id, run)
    decreases |run|
  {
    if run == [] {
    } else {
      TellingKeeps(k, y, run[0]);
      ServerRemembers(k, SysApply(k, y, run[0]), run[1..]);
    }
  }

  lemma {:induction false} TellingKeeps(k: Kind, y: Sys, a: SysAction)
    requires SysEnabled(y, a) && y.server.Status() in y.held
    ensures var z := SysApply(k, y, a);
      && z.server.id == y.server.id && z.server.terminal == y.server.terminal
      && z.server.Status() == (if a.SetStatus? && a.id == y.server.id then a.status else y.server.Status())
      && z.server.Limit() == (if a.SimulateDisconnect? && a.id == y.server.id then a.afterN else y.server.Limit())
      && z.held == y.held + (if a.SetStatus? && a.id == y.server.id then {a.status} else {})
      && z.server.Status() in z.held
  {
  }

  /**
   A connection that is made after any run starts afresh, with the limit last set for the request;
   an answer of 400 and above, a failure or the end of the response leaves none.
   */
  lemma {:induction false} ConnectionStarts(k: Kind, v: Server, run: seq<SysAction>, o: Outcome)
    requires ValidSysRun(k, InitSys(v), run) && !o.Received?
    requires SysEnabled(SysRun(k, InitSys(v), run), Client(Go(Net(o))))
    ensures SysApply(k, SysRun(k, InitSys(v), run), Client(Go(Net(o)))).conn ==
      if o.Answered? && o.status < 400 then Some(Conn(Looping, 0, LastLimitSet(v.id, run, v.Limit()), []))
      else None
  {
    ServerRemembers(k, InitSys(v), run);
  }

  /** A handler whose connection is dropped writes nothing more; what it wrote stays readable. */
  lemma {:induction false} StoppedHandler(k: Kind, y: Sys)
    requires SysEnabled(y, ServerStops)
    ensures var z := SysApply(k, y, ServerStops);
      && !SysEnabled(z, ServerTurn) && !SysEnabled(z, ServerSentinel)
      && z.conn.Some? && z.conn.value.pipe == y.conn.value.pipe && z.client == y.client
  {
  }

  // ---------------------------------------------------------------- what the handler writes

  /** The handler of one connection, `vs` being the server as it finds it at each turn. */
  function Handle(c: Conn, vs: seq<Server>): Conn
    decreases |vs|
  {
    match c.stage
    case Looping => if vs == [] then c else Handle(Turn(vs[0], c), vs[1..])
    case AfterTerminal => Sentinel(c)
    case Finished => c
  }

  /** The number of statuses the handler gets to: up to its limit, or to the first terminal one. */
  function Reached(vs: seq<Server>, sent: nat, limit: int): (n: nat)
    ensures n <= |vs|
    ensures forall i :: 0 <= i < n - 1 ==> vs[i].Status() !in vs[i].terminal
    ensures limit > 0 && sent <= limit ==> sent + n <= limit
  {
    if vs == [] || (limit > 0 && sent >= limit) then 0
    else if vs[0].Status() in vs[0].terminal then 1
    else 1 + Reached(vs[1..], sent + 1, limit)
  }

  /** One frame for each status, as the client decodes it. */
  function Reports(vs: seq<Server>): (fs: seq<Frame>)
    ensures |fs| == |vs|
    ensures forall i :: 0 <= i < |vs| ==>
      fs[i].event == "" && fs[i].decoded == FirstRequest(Request(vs[i].id, vs[i].Status(), ""))
  {
    seq(|vs|, i requires 0 <= i < |vs| => StatusFrame(vs[i].id, vs[i].Status()))
  }

  /** The empty object, if the last of the statuses is terminal. */
  function Closing(vs: seq<Server>): seq<Frame> {
    if vs != [] && vs[|vs| - 1].Status() in vs[|vs| - 1].terminal then [Frame("", "{}", EmptyObject)] else []
  }

  lemma {:induction false} ReportsCons(v: Server, vs: seq<Server>)
    ensures Reports([v] + vs) == [StatusFrame(v.id, v.Status())] + Reports(vs)
    ensures vs != [] ==> Closing([v] + vs) == Closing(vs)
  {
  }

  /**
   What a handler writes: the status it finds at each turn, up to its limit or the first terminal
   one, and after a terminal one the empty object.
   */
  lemma {:induction false} HandlerWrites(c: Conn, vs: seq<Server>)
    requires c.stage == Looping
    ensures var told := vs[..Reached(vs, c.sent, c.disconnectAfter)];
      Handle(c, vs).pipe == c.pipe + (Reports(told) + Closing(told))
    decreases |vs|
  {
    if vs == [] || (c.disconnectAfter > 0 && c.sent >= c.disconnectAfter) {
      assert c.pipe + ([] + []) == c.pipe;
    } else {
      var v, d := vs[0], Turn(vs[0], c);
      var f := StatusFrame(v.id, v.Status());
      var more := if d.stage == Looping then vs[1..][..Reached(vs[1..], d.sent, d.disconnectAfter)] else [];
      assert vs[..Reached(vs, c.sent, c.disconnectAfter)] == [v] + more;
      ReportsCons(v, more);
      if d.stage == Looping {
        HandlerWrites(d, vs[1..]);
        Chain(c.pipe, [f], Reports(more), Closing(more));
      } else {
        Chain(c.pipe, [f], [], [SENTINEL]);
      }
    }
  }

  lemma {:induction false} Chain(a: seq<Frame>, b: seq<Frame>, c: seq<Frame>, d: seq<Frame>)
    ensures (a + b) + (c + d) == a + ((b + c) + d)
  {
  }
}
