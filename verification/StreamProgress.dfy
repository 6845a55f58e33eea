/**
 Cancellation and Close make progress: once the context has ended, every step of any party
 lowers a rank, the producer always has a step of its own until it has closed both channels,
 whether anybody receives or not, then somebody can move until every Close call has returned, and
 at most one more event enters the channel.
 */
module StreamProgress {
  import opened StreamProtocol
  import opened StreamSafety

  /** An upper bound on the steps the producer still takes after cancellation. */
  function PhaseRank(p: Phase): nat {
    match p
    case Building => 7
    case Connecting => 6
    case Reading => 5
    case BackingOff => 4
    case Recording(_) => 4
    case Offering(e) => if e.ErrorEvent? then 3 else 4
    case LoopHead => 3
    case ReadHead => 3
    case Returned => 2
    case ChannelClosed => 1
    case Exited => 0
  }

  function CloserRank(c: Closer): nat {
    match c
    case Cancelling => 3
    case Draining => 2
    case AwaitingDone => 1
    case ClosedOk => 0
  }

  function ClosersRank(cs: seq<Closer>): nat {
    if cs == [] then 0 else CloserRank(cs[0]) + ClosersRank(cs[1..])
  }

  function Rank(s: State): nat {
    2 * PhaseRank(s.Phase()) + |s.ch.buffer| + ClosersRank(s.closers)
  }

  lemma {:induction false} ClosersRankUpdate(cs: seq<Closer>, i: nat, c: Closer)
    requires i < |cs|
    ensures ClosersRank(cs[i := c]) == ClosersRank(cs) - CloserRank(cs[i]) + CloserRank(c)
  {
    if i == 0 {
      assert cs[i := c][1..] == cs[1..];
    } else {
      assert cs[i := c][1..] == cs[1..][i - 1 := c];
      ClosersRankUpdate(cs[1..], i - 1, c);
    }
  }

  lemma {:induction false} ClosersRankAppend(cs: seq<Closer>, c: Closer)
    ensures ClosersRank(cs + [c]) == ClosersRank(cs) + CloserRank(c)
  {
    if cs == [] {
      assert [c][1..] == [];
    } else {
      assert (cs + [c])[1..] == cs[1..] + [c];
      ClosersRankAppend(cs[1..], c);
    }
  }

  /** After cancellation each producer step descends; only a send adds to the buffer, one event. */
  lemma {:induction false} ProducerDescends(k: Kind, s: State, g: Step)
    requires s.cancelled && StepEnabled(s, g) && ErrInv(s.Phase(), s.err, s.ch.sent)
    ensures var t := ApplyStep(k, s, g);
      && PhaseRank(t.Phase()) < PhaseRank(s.Phase())
      && |t.ch.buffer| <= |s.ch.buffer| + 1
      && t.closers == s.closers
      && t.cancelled
  {
    if g.Net? {
      OutcomeDescends(k, s, g.outcome);
    }
  }

  lemma {:induction false} OutcomeDescends(k: Kind, s: State, o: Outcome)
    requires NetEnabled(s.Phase(), o)
    ensures var t := OnOutcome(k, s, o);
      && PhaseRank(t.Phase()) < PhaseRank(s.Phase())
      && t.ch == s.ch && t.closers == s.closers && t.cancelled == s.cancelled
  {
  }

  /** Every step after cancellation lowers the rank, except that a fresh Close call adds 3. */
  lemma {:induction false} StepDescends(k: Kind, s: State, a: Action)
    requires s.cancelled && Enabled(s, a) && Inv(k, s)
    ensures Apply(k, s, a).cancelled
    ensures a != CallClose ==> Rank(Apply(k, s, a)) < Rank(s)
    ensures a == CallClose ==> Rank(Apply(k, s, a)) == Rank(s) + 3
  {
    match a
    case Go(g) => ProducerDescends(k, s, g);
    case Receive =>
    case Cancel =>
    case CallClose => ClosersRankAppend(s.closers, Cancelling);
    case CloserCancels(i) => ClosersRankUpdate(s.closers, i, Draining);
    case CloserDrained(i) => ClosersRankUpdate(s.closers, i, AwaitingDone);
    case CloserReturns(i) => ClosersRankUpdate(s.closers, i, ClosedOk);
  }

  function CloseCalls(run: seq<Action>): nat {
    if run == [] then 0 else (if run[0] == CallClose then 1 else 0) + CloseCalls(run[1..])
  }

  /**
   No run goes on for ever after cancellation: its length is bounded by the rank of the state in
   which it started and the number of fresh Close calls.
   */
  lemma {:induction false} BoundedAfterCancel(k: Kind, s: State, run: seq<Action>)
    requires s.cancelled && Inv(k, s) && ValidRun(k, s, run)
    ensures |run| <= Rank(s) + 4 * CloseCalls(run)
    decreases |run|
  {
    if run == [] {
    } else {
      StepDescends(k, s, run[0]);
      InvStep(k, s, run[0]);
      BoundedAfterCancel(k, Apply(k, s, run[0]), run[1..]);
    }
  }

  /** Everybody has left: the producer exited and each Close call returned. */
  ghost predicate Quiescent(s: State) {
    s.Phase() == Exited && forall i :: 0 <= i < |s.closers| ==> s.closers[i] == ClosedOk
  }

  function ProducerMove(s: State): Step
    requires s.Phase() != Exited
  {
    match s.Phase()
    case LoopHead => Observe
    case ReadHead => Observe
    case Building => Built
    case Connecting => Net(ConnectFailed)
    case Reading => Net(CleanEof)
    case BackingOff => TimerFires
    case Recording(_) => RecordError
    case Offering(_) => AbandonSend
    case Returned => CloseChannel
    case ChannelClosed => CloseDone
  }

  /**
   Until then somebody can move, whatever the interleaving that led here; and as long as the
   producer has not exited, it is the producer itself that can.
   */
  lemma {:induction false} NotStuck(k: Kind, s: State) returns (a: Action)
    requires s.cancelled && Inv(k, s) && !Quiescent(s)
    ensures Enabled(s, a) && a != CallClose && a != Cancel
    ensures s.Phase() != Exited ==> a.Go?
  {
    if s.Phase() != Exited {
      a := Go(ProducerMove(s));
    } else {
      var i :| 0 <= i < |s.closers| && s.closers[i] != ClosedOk;
      a := match s.closers[i]
           case Cancelling => CloserCancels(i)
           case Draining => if s.ch.buffer == [] then CloserDrained(i) else Receive
           case AwaitingDone => CloserReturns(i);
    }
  }

  /** The steps of a run that the producer took. */
  function ProducerSteps(run: seq<Action>): nat {
    if run == [] then 0 else (if run[0].Go? then 1 else 0) + ProducerSteps(run[1..])
  }

  lemma {:induction false} OthersKeepPhase(k: Kind, s: State, a: Action)
    requires Enabled(s, a) && !a.Go?
    ensures Apply(k, s, a).Phase() == s.Phase() && (s.cancelled ==> Apply(k, s, a).cancelled)
  {
  }

  /** After cancellation the producer takes at most seven more steps, whatever the others do. */
  lemma {:induction false} ProducerBounded(k: Kind, s: State, run: seq<Action>)
    requires s.cancelled && Inv(k, s) && ValidRun(k, s, run)
    ensures ProducerSteps(run) + PhaseRank(Run(k, s, run).Phase()) <= PhaseRank(s.Phase()) <= 7
    decreases |run|
  {
    if run == [] {
    } else {
      if run[0].Go? {
        ProducerDescends(k, s, run[0].step);
      } else {
        OthersKeepPhase(k, s, run[0]);
      }
      InvStep(k, s, run[0]);
      ProducerBounded(k, Apply(k, s, run[0]), run[1..]);
    }
  }

  /**
   Wherever the producer looks at the context, it may leave at once when that has ended: at the head
   of either loop, in a wait and in a send.
   */
  lemma {:induction false} LeavesAtOnce(k: Kind, s: State)
    requires s.cancelled
    requires s.Phase() == LoopHead || s.Phase() == ReadHead || s.Phase() == BackingOff || s.Phase().Offering?
    ensures exists g :: StepEnabled(s, g) && ApplyStep(k, s, g) == s.At(Returned)
  {
    var g := if s.Phase() == BackingOff then StopWaiting
             else if s.Phase().Offering? then AbandonSend
             else Observe;
    assert StepEnabled(s, g) && ApplyStep(k, s, g) == s.At(Returned);
  }

  /** With the context ended, the producer is out of steps if and only if it has exited. */
  lemma {:induction false} OutOfSteps(s: State)
    requires s.cancelled
    ensures (forall g :: !StepEnabled(s, g)) <==> s.Phase() == Exited
  {
    if s.Phase() != Exited {
      assert StepEnabled(s, ProducerMove(s));
    }
  }

  /**
   The producer never waits for a receiver once the context has ended: in any cancelled run it is
   out of steps if and only if it has exited, and then it has closed both channels.
   */
  lemma {:induction false} ProducerExits(k: Kind, run: seq<Action>)
    requires ValidRun(k, Init(), run) && Run(k, Init(), run).cancelled
    ensures var s := Run(k, Init(), run);
      && ((forall g :: !StepEnabled(s, g)) <==> s.Phase() == Exited)
      && (s.Phase() == Exited ==> s.ch.closed && s.doneClosed)
  {
    InvAlong(k, Init(), run);
    OutOfSteps(Run(k, Init(), run));
  }

  /** From any cancelled state the producer alone gets there, with nobody receiving. */
  lemma {:induction false} ProducerAlone(k: Kind, s: State) returns (run: seq<Action>)
    requires s.cancelled && Inv(k, s)
    ensures ValidRun(k, s, run) && ProducerSteps(run) == |run|
    ensures Run(k, s, run).Phase() == Exited
    decreases PhaseRank(s.Phase())
  {
    if s.Phase() == Exited {
      run := [];
    } else {
      var a := NotStuck(k, s);
      ProducerDescends(k, s, a.step);
      InvStep(k, s, a);
      var rest := ProducerAlone(k, Apply(k, s, a));
      run := [a] + rest;
      assert run[0] == a && run[1..] == rest;
    }
  }

  /**
   Close returns: in any run that has a Close call in it and that nobody but a new caller could
   prolong, every Close call has returned, both channels are closed and the buffer is drained.
   Together with BoundedAfterCancel this holds of every maximal run.
   */
  lemma {:induction false} CloseReturns(k: Kind, run: seq<Action>)
    requires ValidRun(k, Init(), run)
    requires Run(k, Init(), run).closers != []
    requires forall a :: Enabled(Run(k, Init(), run), a) ==> a == CallClose || a == Cancel
    ensures var s := Run(k, Init(), run);
      && s.Phase() == Exited && s.ch.closed && s.doneClosed && s.ch.buffer == []
      && s.ch.received == s.ch.sent
      && forall i :: 0 <= i < |s.closers| ==> s.closers[i] == ClosedOk
  {
    InvAlong(k, Init(), run);
    var s := Run(k, Init(), run);
    assert CloserInv(s, s.closers[0]);
    if !s.cancelled {
      assert Enabled(s, CloserCancels(0));
    }
    if !Quiescent(s) {
      var a := NotStuck(k, s);
    }
  }

  // ---------------------------------------------------------------- events after cancellation

  /** How many more events the producer can still push once the context has ended. */
  function Allowance(p: Phase): nat {
    match p
    case Connecting => 1
    case Building => 1
    case Reading => 1
    case Recording(_) => 1
    case Offering(_) => 1
    case _ => 0
  }

  lemma {:induction false} AllowanceStep(k: Kind, s: State, g: Step)
    requires s.cancelled && StepEnabled(s, g)
    ensures var t := ApplyStep(k, s, g);
      && t.cancelled
      && |t.ch.sent| + Allowance(t.Phase()) <= |s.ch.sent| + Allowance(s.Phase())
  {
    if g.Net? {
      OutcomeDescends(k, s, g.outcome);
    }
  }

  /** After cancellation at most one further event enters the channel, in any continuation. */
  lemma {:induction false} AtMostOneAfterCancel(k: Kind, s: State, run: seq<Action>)
    requires s.cancelled && ValidRun(k, s, run)
    ensures |Run(k, s, run).ch.sent| <= |s.ch.sent| + Allowance(s.Phase()) <= |s.ch.sent| + 1
    decreases |run|
  {
    if run == [] {
    } else {
      if run[0].Go? {
        AllowanceStep(k, s, run[0].step);
      }
      AtMostOneAfterCancel(k, Apply(k, s, run[0]), run[1..]);
    }
  }
}
