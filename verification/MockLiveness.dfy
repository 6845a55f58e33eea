/**
 The SDK's client and its mock server make progress together.  Once the request's status is terminal
 and the network has stopped failing, every run is finite, whatever the interleaving, and one that
 cannot go on has delivered a terminal status.
 */
module MockLiveness {
  import opened Basics
  import opened StreamProtocol
  import opened StreamSafety
  import opened StreamOutcome
  import opened MockServer

  // ---------------------------------------------------------------- a network that works

  /** The handler is through and everything it wrote has been read. */
  predicate ReadOut(conn: Option<Conn>) {
    conn.Some? && conn.value.stage == Finished && conn.value.pipe == []
  }

  /** The answers of a network that does not fail: a connection ends only where the handler ended it. */
  predicate WorkingAnswer(conn: Option<Conn>, o: Outcome) {
    match o
    case Answered(status, _) => status < 400
    case Received(_) => true
    case CleanEof => ReadOut(conn)
    case _ => false
  }

  /** Nobody cancels, closes, changes the status or stops the server; the network works. */
  predicate Working(y: Sys, a: SysAction) {
    match a
    case Client(Go(Net(o))) => WorkingAnswer(y.conn, o)
    case Client(Go(_)) => true
    case Client(Receive) => true
    case ServerTurn => true
    case ServerSentinel => true
    case _ => false
  }

  predicate AllWorking(k: Kind, y: Sys, run: seq<SysAction>)
    requires ValidSysRun(k, y, run)
    decreases |run|
  {
    run == [] || (Working(y, run[0]) && AllWorking(k, SysApply(k, y, run[0]), run[1..]))
  }

  /** The status is terminal, the context is live and nothing has failed for good so far. */
  predicate NothingFinal(y: Sys) {
    && y.server.Status() in y.server.terminal
    && !y.client.cancelled && y.client.err == None && !y.client.Phase().Recording?
  }

  ghost predicate Hopeful(k: Kind, y: Sys) {
    SysInv(k, y) && Inv(k, y.client) && NothingFinal(y)
  }

  // ---------------------------------------------------------------- what is left to do

  function PhaseCost(p: Phase): nat {
    match p
    case BackingOff => 40
    case LoopHead => 39
    case Building => 38
    case Connecting => 37
    case Recording(_) => 9
    case Offering(_) => 8
    case ReadHead => 6
    case Reading => 5
    case Returned => 2
    case ChannelClosed => 1
    case Exited => 0
  }

  function StageCost(s: Stage): nat {
    match s
    case Looping => 12
    case AfterTerminal => 6
    case Finished => 0
  }

  function ConnCost(conn: Option<Conn>): nat {
    if conn.None? then 0 else StageCost(conn.value.stage) + 5 * |conn.value.pipe|
  }

  predicate Conclusive(v: Server, f: Frame) {
    f.decoded.FirstRequest? && f.decoded.request.status in v.terminal
  }

  ghost predicate HoldsTerminal(v: Server, pipe: seq<Frame>) {
    exists i :: 0 <= i < |pipe| && Conclusive(v, pipe[i])
  }

  /** The connection carries a terminal frame, or its next turn will write one. */
  ghost predicate Promising(v: Server, c: Conn) {
    || (c.stage == Looping && !(c.disconnectAfter > 0 && c.sent >= c.disconnectAfter))
    || HoldsTerminal(v, c.pipe)
  }

  /** A client reading a connection that promises nothing will have to connect once more. */
  ghost predicate MustReconnect(k: Kind, y: Sys) {
    StillReading(k, y.client.Phase()) && y.conn.Some? && !Promising(y.server, y.conn.value)
  }

  ghost function Cost(k: Kind, y: Sys): nat {
    PhaseCost(y.client.Phase()) + ConnCost(y.conn) + |y.client.ch.buffer| + if MustReconnect(k, y) then 50 else 0
  }

  // ---------------------------------------------------------------- the server's steps

  lemma {:induction false} StillTerminal(v: Server, pipe: seq<Frame>, f: Frame)
    ensures HoldsTerminal(v, pipe) || Conclusive(v, f) ==> HoldsTerminal(v, pipe + [f])
  {
    if HoldsTerminal(v, pipe) {
      var i :| 0 <= i < |pipe| && Conclusive(v, pipe[i]);
      assert (pipe + [f])[i] == pipe[i];
    } else if Conclusive(v, f) {
      assert (pipe + [f])[|pipe|] == f;
    }
  }

  lemma {:induction false} TurnPays(v: Server, c: Conn)
    requires c.stage == Looping && v.Status() in v.terminal
    ensures ConnCost(Some(Turn(v, c))) < ConnCost(Some(c))
    ensures Promising(v, c) ==> Promising(v, Turn(v, c))
  {
    StillTerminal(v, c.pipe, StatusFrame(v.id, v.Status()));
  }

  lemma {:induction false} ServerPays(k: Kind, y: Sys, a: SysAction)
    requires Hopeful(k, y) && SysEnabled(y, a) && (a == ServerTurn || a == ServerSentinel)
    ensures Hopeful(k, SysApply(k, y, a)) && Cost(k, SysApply(k, y, a)) < Cost(k, y)
  {
    ServerKeeps(k, y, a);
    var c := y.conn.value;
    if a == ServerTurn {
      TurnPays(y.server, c);
    } else {
      StillTerminal(y.server, c.pipe, SENTINEL);
    }
  }

  // ---------------------------------------------------------------- the client's steps

  lemma {:induction false} RestHoldsTerminal(v: Server, pipe: seq<Frame>)
    requires pipe != [] && HoldsTerminal(v, pipe) && !Conclusive(v, pipe[0])
    ensures HoldsTerminal(v, pipe[1..])
  {
    var i :| 0 <= i < |pipe| && Conclusive(v, pipe[i]);
    assert pipe[1..][i - 1] == pipe[i];
  }

  /** A genuine frame is offered to the caller as a status event. */
  lemma {:induction false} GenuineOffered(k: Kind, y: Sys, f: Frame)
    requires k.RequestStatus? && Genuine(y, f)
    ensures PhaseAfterFrame(k, f) == Offering(StatusEvent(f.decoded.request))
  {
  }

  lemma {:induction false} FramePays(k: Kind, y: Sys, f: Frame)
    requires Hopeful(k, y) && SysEnabled(y, Client(Go(Net(Received(f)))))
    ensures var z := SysApply(k, y, Client(Go(Net(Received(f)))));
      Hopeful(k, z) && Cost(k, z) < Cost(k, y)
  {
    var a := Client(Go(Net(Received(f))));
    PipeRead(k, y, f);
    GenuineOffered(k, y, f);
    NetKeeps(k, y, Received(f));
    InvStep(k, y.client, a.action);
    var c := y.conn.value;
    if Promising(y.server, c) && !Conclusive(y.server, f) && HoldsTerminal(y.server, c.pipe) {
      RestHoldsTerminal(y.server, c.pipe);
    }
  }

  lemma {:induction false} AnswerPays(k: Kind, y: Sys, status: int, m: string)
    requires Hopeful(k, y) && SysEnabled(y, Client(Go(Net(Answered(status, m))))) && status < 400
    ensures var z := SysApply(k, y, Client(Go(Net(Answered(status, m)))));
      Hopeful(k, z) && Cost(k, z) < Cost(k, y)
  {
    NetKeeps(k, y, Answered(status, m));
    InvStep(k, y.client, Go(Net(Answered(status, m))));
  }

  lemma {:induction false} EofPays(k: Kind, y: Sys)
    requires Hopeful(k, y) && SysEnabled(y, Client(Go(Net(CleanEof)))) && ReadOut(y.conn)
    ensures var z := SysApply(k, y, Client(Go(Net(CleanEof)))); Hopeful(k, z) && Cost(k, z) < Cost(k, y)
  {
    NetKeeps(k, y, CleanEof);
    InvStep(k, y.client, Go(Net(CleanEof)));
    assert !HoldsTerminal(y.server, y.conn.value.pipe);
  }

  /** The client's own steps leave the connection alone. */
  lemma {:induction false} OwnStepPays(k: Kind, s: State, g: Step)
    requires Inv(k, s) && StepEnabled(s, g) && !g.Net?
    requires !s.cancelled && s.err == None && !s.Phase().Recording?
    ensures var t := ApplyStep(k, s, g);
      && !t.cancelled && t.err == None && !t.Phase().Recording?
      && PhaseCost(t.Phase()) + |t.ch.buffer| < PhaseCost(s.Phase()) + |s.ch.buffer|
      && (StillReading(k, t.Phase()) ==> StillReading(k, s.Phase()))
  {
  }

  lemma {:induction false} ClientPays(k: Kind, y: Sys, c: Action)
    requires Hopeful(k, y) && SysEnabled(y, Client(c)) && (c == Receive || (c.Go? && !c.step.Net?))
    ensures Hopeful(k, SysApply(k, y, Client(c))) && Cost(k, SysApply(k, y, Client(c))) < Cost(k, y)
  {
    StepKeeps(k, y, c);
    InvStep(k, y.client, c);
    if c.Go? {
      OwnStepPays(k, y.client, c.step);
    }
  }

  /** Every step of any party, the network working, brings the end nearer. */
  lemma {:induction false} WorkingPays(k: Kind, y: Sys, a: SysAction)
    requires Hopeful(k, y) && SysEnabled(y, a) && Working(y, a)
    ensures Hopeful(k, SysApply(k, y, a)) && Cost(k, SysApply(k, y, a)) < Cost(k, y)
    ensures SysApply(k, y, a).held == y.held
  {
    match a
    case Client(Go(Net(Received(f)))) => FramePays(k, y, f);
    case Client(Go(Net(Answered(status, m)))) => AnswerPays(k, y, status, m);
    case Client(Go(Net(CleanEof))) => EofPays(k, y);
    case Client(c) => ClientPays(k, y, c);
    case _ => ServerPays(k, y, a);
  }

  /** So there is no endless run: its length is bounded by the cost at its start. */
  lemma {:induction false} WorkingRunsEnd(k: Kind, y: Sys, run: seq<SysAction>)
    requires Hopeful(k, y) && ValidSysRun(k, y, run) && AllWorking(k, y, run)
    ensures Hopeful(k, SysRun(k, y, run)) && |run| + Cost(k, SysRun(k, y, run)) <= Cost(k, y)
    ensures SysRun(k, y, run).held == y.held
    decreases |run|
  {
    if run == [] {
    } else {
      WorkingPays(k, y, run[0]);
      WorkingRunsEnd(k, SysApply(k, y, run[0]), run[1..]);
    }
  }

  // ---------------------------------------------------------------- and no run is stuck

  predicate AllDelivered(s: State) {
    s.Phase() == Exited && s.ch.buffer == []
  }

  /** A step the network allows a client that is reading, or the server's next step. */
  function ReadingMove(c: Conn): SysAction {
    if c.pipe != [] then Client(Go(Net(Received(c.pipe[0]))))
    else
      match c.stage
      case Looping => ServerTurn
      case AfterTerminal => ServerSentinel
      case Finished => Client(Go(Net(CleanEof)))
  }

  lemma {:induction false} WorkingMove(k: Kind, y: Sys) returns (a: SysAction)
    requires Hopeful(k, y) && !AllDelivered(y.client)
    ensures SysEnabled(y, a) && Working(y, a)
  {
    if y.client.ch.buffer != [] {
      a := Client(Receive);
    } else {
      match y.client.Phase()
      case Connecting => a := Client(Go(Net(Answered(200, ""))));
      case Reading => a := ReadingMove(y.conn.value);
      case Building => a := Client(Go(Built));
      case BackingOff => a := Client(Go(TimerFires));
      case Offering(_) => a := Client(Go(SendEvent));
      case Returned => a := Client(Go(CloseChannel));
      case ChannelClosed => a := Client(Go(CloseDone));
      case _ => a := Client(Go(Observe));
    }
  }

  /** The start of the composed system is hopeful once the status is terminal. */
  lemma {:induction false} ReachedHope(k: Kind, v: Server, run: seq<SysAction>)
    requires k.RequestStatus? && v.terminal <= k.terminal && ValidSysRun(k, InitSys(v), run)
    ensures var y := SysRun(k, InitSys(v), run); NothingFinal(y) ==> Hopeful(k, y)
  {
    SysInvAlong(k, InitSys(v), run);
    ClientPartIsRun(k, InitSys(v), run);
    InvAlong(k, Init(), ClientPart(run));
  }

  lemma {:induction false} SysRunAppend(k: Kind, y: Sys, a: seq<SysAction>, b: seq<SysAction>)
    requires ValidSysRun(k, y, a) && ValidSysRun(k, SysRun(k, y, a), b)
    ensures ValidSysRun(k, y, a + b) && SysRun(k, y, a + b) == SysRun(k, SysRun(k, y, a), b)
    decreases |a|
  {
    if a == [] {
      assert a + b == b;
    } else {
      assert (a + b)[0] == a[0] && (a + b)[1..] == a[1..] + b;
      SysRunAppend(k, SysApply(k, y, a[0]), a[1..], b);
    }
  }

  /**
   Whatever happened before: when the request's status is terminal, the context is live and no
   failure has been final, then any further run in which the network works and nobody interferes is
   finite, and if it cannot be prolonged, the stream is closed and drained, there is no error, and
   the last event carries a terminal status the request really had: its present one, unless it had
   another terminal status before.
   */
  lemma {:induction false} LivenessTheorem(k: Kind, v: Server, before: seq<SysAction>, run: seq<SysAction>, last: Option<Event>)
    requires k.RequestStatus? && v.terminal <= k.terminal
    requires ValidSysRun(k, InitSys(v), before)
    requires var y := SysRun(k, InitSys(v), before);
      NothingFinal(y) && ValidSysRun(k, y, run) && AllWorking(k, y, run)
    requires IsLastData(SysRun(k, SysRun(k, InitSys(v), before), run).client.ch.sent, last)
    ensures var y := SysRun(k, InitSys(v), before);
      var z := SysRun(k, y, run);
      && |run| <= Cost(k, y)
      && ((forall a :: SysEnabled(z, a) ==> !Working(z, a)) ==>
            && Drained(z.client) && z.client.doneClosed && z.client.err == None
            && HasTerminalStatus(k, last) && last.value.request.status in y.held
            && (y.held * k.terminal <= {y.server.Status()} ==>
                  last.value.request.status == y.server.Status()))
  {
    var y := SysRun(k, InitSys(v), before);
    var z := SysRun(k, y, run);
    ReachedHope(k, v, before);
    WorkingRunsEnd(k, y, run);
    if forall a :: SysEnabled(z, a) ==> !Working(z, a) {
      StuckIsDelivered(k, z);
      SysRunAppend(k, InitSys(v), before, run);
      CompositionTheorem(k, v, before + run, last);
      assert last.value.request.status in y.held * k.terminal;
    }
  }

  lemma {:induction false} StuckIsDelivered(k: Kind, z: Sys)
    requires Hopeful(k, z) && forall a :: SysEnabled(z, a) ==> !Working(z, a)
    ensures AllDelivered(z.client) && z.client.ch.closed && z.client.doneClosed
  {
    if !AllDelivered(z.client) {
      var a := WorkingMove(k, z);
    }
  }
}
