/**
 What every reachable state of the streaming protocol satisfies: conservation of events, the
 shape of the event trace, agreement of the error cell with delivered errors, and absence of
 channel panics.
 */
module StreamSafety {
  import opened Basics
  import opened StreamProtocol

  /** Channel discipline: closed flags follow the producer, nothing panicked. */
  ghost predicate ChannelInv(s: State) {
    && !s.panicked
    && (s.ch.closed <==> s.Phase() == ChannelClosed || s.Phase() == Exited)
    && (s.doneClosed <==> s.Phase() == Exited)
    && |s.ch.buffer| <= CAPACITY
    && s.ch.received + s.ch.buffer == s.ch.sent
  }

  /** A Close call is only as far along as the channels allow. */
  ghost predicate CloserInv(s: State, c: Closer) {
    && (c != Cancelling ==> s.cancelled)
    && (c == AwaitingDone || c == ClosedOk ==> s.ch.closed && s.ch.buffer == [])
    && (c == ClosedOk ==> s.doneClosed)
  }

  ghost predicate ClosersInv(s: State) {
    forall i :: 0 <= i < |s.closers| ==> CloserInv(s, s.closers[i])
  }

  /** The trace is non-final events, then at most one final event, after which nothing is offered. */
  ghost predicate ShapeInv(k: Kind, p: Phase, sent: seq<Event>) {
    && (forall i :: 0 <= i < |sent| - 1 ==> !IsFinal(k, sent[i]))
    && (sent != [] && IsFinal(k, sent[|sent| - 1]) ==> Ended(p))
  }

  /** The error cell is written before the error is offered, and by one failure only. */
  ghost predicate ErrInv(p: Phase, err: Option<Error>, sent: seq<Event>) {
    && (err.Some? ==> p == Offering(ErrorEvent(err.value)) || Ended(p))
    && (p.Offering? && p.event.ErrorEvent? ==> err == Some(p.event.error))
    && (forall i :: 0 <= i < |sent| && sent[i].ErrorEvent? ==> err == Some(sent[i].error))
  }

  ghost predicate Inv(k: Kind, s: State) {
    && ChannelInv(s)
    && ClosersInv(s)
    && ShapeInv(k, s.Phase(), s.ch.sent)
    && ErrInv(s.Phase(), s.err, s.ch.sent)
  }

  /** An answer never takes the producer past the closing of its channels. */
  lemma {:induction false} NetStaysOpen(k: Kind, s: State, o: Outcome)
    requires NetEnabled(s.Phase(), o)
    ensures var p := OnOutcome(k, s, o).Phase(); p != ChannelClosed && p != Exited
  {
  }

  lemma {:induction false} ChannelGo(k: Kind, s: State, g: Step)
    requires ChannelInv(s) && StepEnabled(s, g)
    ensures ChannelInv(ApplyStep(k, s, g))
  {
    if g.Net? {
      NetStaysOpen(k, s, g.outcome);
    } else if g == SendEvent {
      var e := [s.Phase().event];
      assert s.ch.received + (s.ch.buffer + e) == s.ch.sent + e;
    }
  }

  lemma {:induction false} ChannelStep(k: Kind, s: State, a: Action)
    requires ChannelInv(s) && Enabled(s, a)
    ensures ChannelInv(Apply(k, s, a))
  {
    if a.Go? {
      ChannelGo(k, s, a.step);
    } else if a == Receive {
      var t := Apply(k, s, a);
      assert s.ch.received + s.ch.buffer == t.ch.received + t.ch.buffer;
    }
  }

  lemma {:induction false} ClosersStep(k: Kind, s: State, a: Action)
    requires ChannelInv(s) && ClosersInv(s) && Enabled(s, a)
    ensures ClosersInv(Apply(k, s, a))
  {
    var t := Apply(k, s, a);
    forall i | 0 <= i < |t.closers| ensures CloserInv(t, t.closers[i]) {
      assert i < |s.closers| ==> CloserInv(s, s.closers[i]);
    }
  }

  lemma {:induction false} ShapeStep(k: Kind, s: State, g: Step)
    requires ChannelInv(s) && ShapeInv(k, s.Phase(), s.ch.sent) && StepEnabled(s, g)
    ensures var t := ApplyStep(k, s, g); ShapeInv(k, t.Phase(), t.ch.sent)
  {
  }

  /** Only the send of a select puts anything into the channel. */
  lemma {:induction false} QuietStep(k: Kind, s: State, g: Step)
    requires StepEnabled(s, g) && g != SendEvent
    ensures var t := ApplyStep(k, s, g); t.ch == s.ch.(closed := t.ch.closed)
  {
  }

  lemma {:induction false} ErrSend(k: Kind, s: State)
    requires ErrInv(s.Phase(), s.err, s.ch.sent) && StepEnabled(s, SendEvent)
    ensures var t := ApplyStep(k, s, SendEvent); ErrInv(t.Phase(), t.err, t.ch.sent)
  {
  }

  lemma {:induction false} ErrNet(k: Kind, s: State, o: Outcome)
    requires NetEnabled(s.Phase(), o) && s.err == None
    ensures OnOutcome(k, s, o).err == None
    ensures var p := OnOutcome(k, s, o).Phase(); p.Offering? ==> !p.event.ErrorEvent?
  {
  }

  lemma {:induction false} ErrQuiet(k: Kind, s: State, g: Step)
    requires ErrInv(s.Phase(), s.err, s.ch.sent) && StepEnabled(s, g) && g != SendEvent
    ensures var t := ApplyStep(k, s, g); ErrInv(t.Phase(), t.err, s.ch.sent)
  {
    if g.Net? {
      ErrNet(k, s, g.outcome);
    }
  }

  lemma {:induction false} ErrStep(k: Kind, s: State, g: Step)
    requires ErrInv(s.Phase(), s.err, s.ch.sent) && StepEnabled(s, g)
    ensures var t := ApplyStep(k, s, g); ErrInv(t.Phase(), t.err, t.ch.sent)
  {
    if g == SendEvent {
      ErrSend(k, s);
    } else {
      ErrQuiet(k, s, g);
      QuietStep(k, s, g);
    }
  }

  lemma {:induction false} InvStep(k: Kind, s: State, a: Action)
    requires Inv(k, s) && Enabled(s, a)
    ensures Inv(k, Apply(k, s, a))
  {
    ChannelStep(k, s, a);
    ClosersStep(k, s, a);
    if a.Go? {
      ShapeStep(k, s, a.step);
      ErrStep(k, s, a.step);
    }
  }

  lemma {:induction false} InvAlong(k: Kind, s: State, run: seq<Action>)
    requires Inv(k, s) && ValidRun(k, s, run)
    ensures Inv(k, Run(k, s, run))
    decreases |run|
  {
    if run == [] {
    } else {
      InvStep(k, s, run[0]);
      InvAlong(k, Apply(k, s, run[0]), run[1..]);
    }
  }

  /**
   Every run keeps events and their order: what was received, followed by what is buffered, is
   what was sent; at most one final event, at the very end; and whoever received an error event
   reads the same error from the cell.
   */
  lemma {:induction false} TraceTheorem(k: Kind, run: seq<Action>)
    requires ValidRun(k, Init(), run)
    ensures var s := Run(k, Init(), run);
      && !s.panicked
      && s.ch.received + s.ch.buffer == s.ch.sent
      && |s.ch.buffer| <= 64
      && (forall i :: 0 <= i < |s.ch.sent| - 1 ==> !IsFinal(k, s.ch.sent[i]))
      && (forall i :: 0 <= i < |s.ch.received| && s.ch.received[i].ErrorEvent? ==>
            s.err == Some(s.ch.received[i].error))
  {
    InvAlong(k, Init(), run);
    var s := Run(k, Init(), run);
    forall i | 0 <= i < |s.ch.received| && s.ch.received[i].ErrorEvent?
      ensures s.err == Some(s.ch.received[i].error)
    {
      assert s.ch.sent[i] == s.ch.received[i];
    }
  }

  /** An event can be sent, before the channel is closed, exactly while fewer than 64 are waiting. */
  lemma {:induction false} RoomFor64(k: Kind, run: seq<Action>)
    requires ValidRun(k, Init(), run)
    ensures var s := Run(k, Init(), run);
      StepEnabled(s, SendEvent) <==> s.Phase().Offering? && |s.ch.buffer| < 64
  {
    InvAlong(k, Init(), run);
  }

  lemma {:induction false} ErrorKept(k: Kind, s: State, g: Step)
    requires s.err.Some? && StepEnabled(s, g)
    ensures ApplyStep(k, s, g).err == s.err
  {
  }

  /** The first recorded error is never replaced. */
  lemma {:induction false} ErrorIsStable(k: Kind, s: State, run: seq<Action>)
    requires s.err.Some? && ValidRun(k, s, run)
    ensures Run(k, s, run).err == s.err
    decreases |run|
  {
    if run == [] {
    } else {
      if run[0].Go? {
        ErrorKept(k, s, run[0].step);
      }
      ErrorIsStable(k, Apply(k, s, run[0]), run[1..]);
    }
  }
}
