/**
 The waits between connection attempts.  The program keeps one variable, doubled and capped at
 each wait and reset after an attempt that delivered something; here every wait of every run is
 given in closed form, in terms of the sent events alone.
 */
module StreamBackoff {
  import opened Basics
  import opened StreamProtocol
  import opened StreamSafety

  function Pow2(n: nat): nat {
    if n == 0 then 1 else 2 * Pow2(n - 1)
  }

  function Capped(n: nat): nat {
    Min(Pow2(n), 30)
  }

  /** The attempt before wait k put at least one event into the channel. */
  predicate Delivered(ws: seq<Wait>, k: nat)
    requires k < |ws|
  {
    ws[k].sentSoFar > (if k == 0 then 0 else ws[k - 1].sentSoFar)
  }

  /** How many waits lie between wait k and the last delivering attempt, or the start. */
  function Streak(ws: seq<Wait>, k: nat): nat
    requires k < |ws|
  {
    if k == 0 || Delivered(ws, k) then 0 else Streak(ws, k - 1) + 1
  }

  function SentByLastWait(ws: seq<Wait>): nat {
    if ws == [] then 0 else ws[|ws| - 1].sentSoFar
  }

  /** In these phases an attempt is under way and its response is being consumed. */
  predicate Consuming(p: Phase) {
    p == ReadHead || p == Reading || (p.Offering? && !p.event.ErrorEvent?)
  }

  /** Before an attempt has an answer to read. */
  predicate Attempting(p: Phase) {
    p == LoopHead || p == Building || p == Connecting || p == BackingOff
  }

  ghost predicate WaitsInv(ws: seq<Wait>) {
    forall k :: 0 <= k < |ws| ==> ws[k].seconds == Capped(Streak(ws, k))
  }

  /** What the next wait is after `ws`, if `sent` events are out by then. */
  function NextWait(ws: seq<Wait>, sent: nat): nat {
    if ws == [] || sent > SentByLastWait(ws) then 1 else Doubled(ws)
  }

  /** The last wait, doubled and capped; one second before the first wait. */
  function Doubled(ws: seq<Wait>): nat {
    if ws == [] then 1 else Min(2 * ws[|ws| - 1].seconds, 30)
  }

  ghost predicate VariableInv(p: Producer) {
    if p.phase == BackingOff then p.waits != [] && p.backoff == p.waits[|p.waits| - 1].seconds
    else p.backoff == Doubled(p.waits)
  }

  ghost predicate CountInv(p: Producer, sent: nat) {
    && SentByLastWait(p.waits) <= sent
    && (Consuming(p.phase) ==> (p.gotEvents <==> sent > SentByLastWait(p.waits)))
    && (Attempting(p.phase) ==> sent == SentByLastWait(p.waits))
  }

  ghost predicate BackoffInv(s: State) {
    && WaitsInv(s.producer.waits)
    && (!Ended(s.Phase()) ==> VariableInv(s.producer) && CountInv(s.producer, |s.ch.sent|))
  }

  lemma {:induction false} StreakPrefix(ws: seq<Wait>, w: Wait, k: nat)
    requires k < |ws|
    ensures Streak(ws + [w], k) == Streak(ws, k)
  {
    if k > 0 {
      StreakPrefix(ws, w, k - 1);
    }
  }

  lemma {:induction false} CappedDoubles(n: nat)
    ensures Min(2 * Capped(n), 30) == Capped(n + 1)
    ensures Capped(0) == 1
  {
  }

  /** Entering a wait with the variable as the program left it, or reset, keeps the closed form. */
  lemma {:induction false} WaitAppended(ws: seq<Wait>, w: Wait)
    requires WaitsInv(ws)
    requires w.seconds == NextWait(ws, w.sentSoFar)
    ensures WaitsInv(ws + [w])
  {
    var ws' := ws + [w];
    forall k | 0 <= k < |ws'| ensures ws'[k].seconds == Capped(Streak(ws', k)) {
      if k < |ws| {
        StreakPrefix(ws, w, k);
        assert ws[k].seconds == Capped(Streak(ws, k));
      } else {
        LastWait(ws, w);
      }
    }
  }

  lemma {:induction false} LastWait(ws: seq<Wait>, w: Wait)
    requires ws != [] ==> ws[|ws| - 1].seconds == Capped(Streak(ws, |ws| - 1))
    requires w.seconds == NextWait(ws, w.sentSoFar)
    ensures w.seconds == Capped(Streak(ws + [w], |ws|))
  {
    CappedDoubles(0);
    if ws != [] && w.sentSoFar <= SentByLastWait(ws) {
      StreakPrefix(ws, w, |ws| - 1);
      CappedDoubles(Streak(ws, |ws| - 1));
    }
  }

  /** An answer that leads to a wait starts the one that is due. */
  lemma {:induction false} WaitStarts(k: Kind, s: State, o: Outcome)
    requires VariableInv(s.producer) && CountInv(s.producer, |s.ch.sent|)
    requires NetEnabled(s.Phase(), o) && OnOutcome(k, s, o).Phase() == BackingOff
    ensures var p, q := s.producer, OnOutcome(k, s, o).producer;
      q.waits == p.waits + [Wait(q.backoff, |s.ch.sent|)] && q.backoff == NextWait(p.waits, |s.ch.sent|)
  {
  }

  /** Any other answer leaves the waits and the variable alone. */
  lemma {:induction false} NoWaitStarts(k: Kind, s: State, o: Outcome)
    requires CountInv(s.producer, |s.ch.sent|)
    requires NetEnabled(s.Phase(), o) && OnOutcome(k, s, o).Phase() != BackingOff
    ensures var p, q := s.producer, OnOutcome(k, s, o).producer;
      q.waits == p.waits && q.backoff == p.backoff && (!Ended(q.phase) ==> CountInv(q, |s.ch.sent|))
  {
  }

  lemma {:induction false} BackoffOnOutcome(k: Kind, s: State, o: Outcome)
    requires BackoffInv(s) && NetEnabled(s.Phase(), o)
    ensures BackoffInv(OnOutcome(k, s, o))
  {
    var t := OnOutcome(k, s, o);
    if t.Phase() == BackingOff {
      WaitStarts(k, s, o);
      WaitAppended(s.producer.waits, Wait(t.producer.backoff, |s.ch.sent|));
    } else {
      NoWaitStarts(k, s, o);
    }
  }

  /** When the timer fires the variable is doubled and capped. */
  lemma {:induction false} BackoffTimer(k: Kind, s: State)
    requires BackoffInv(s) && StepEnabled(s, TimerFires)
    ensures BackoffInv(ApplyStep(k, s, TimerFires))
  {
    var p, q := s.producer, ApplyStep(k, s, TimerFires).producer;
    assert q.waits == p.waits;
    assert q.backoff == Doubled(q.waits);
  }

  /** A send is counted, and remembered if it was no error. */
  lemma {:induction false} BackoffSend(k: Kind, s: State)
    requires ChannelInv(s) && BackoffInv(s) && StepEnabled(s, SendEvent)
    ensures BackoffInv(ApplyStep(k, s, SendEvent))
  {
    var t := ApplyStep(k, s, SendEvent);
    assert t.producer.waits == s.producer.waits && t.producer.backoff == s.producer.backoff;
    assert |t.ch.sent| == |s.ch.sent| + 1;
  }

  /** The other steps touch neither the waits nor the counts, and do not change what the phase is about. */
  lemma {:induction false} ElseShape(k: Kind, s: State, g: Step)
    requires StepEnabled(s, g) && !g.Net? && g != TimerFires && g != SendEvent
    ensures var t := ApplyStep(k, s, g);
      && t.producer == s.producer.(phase := t.Phase()) && t.ch.sent == s.ch.sent
      && (!Ended(t.Phase()) ==>
          && s.Phase() != BackingOff && t.Phase() != BackingOff && !Ended(s.Phase())
          && (Consuming(t.Phase()) ==> Consuming(s.Phase()))
          && (Attempting(t.Phase()) ==> Attempting(s.Phase())))
  {
  }

  lemma {:induction false} BackoffElse(k: Kind, s: State, g: Step)
    requires BackoffInv(s) && StepEnabled(s, g) && !g.Net? && g != TimerFires && g != SendEvent
    ensures BackoffInv(ApplyStep(k, s, g))
  {
    ElseShape(k, s, g);
  }

  lemma {:induction false} BackoffStep(k: Kind, s: State, g: Step)
    requires ChannelInv(s) && BackoffInv(s) && StepEnabled(s, g)
    ensures BackoffInv(ApplyStep(k, s, g))
  {
    if g.Net? {
      BackoffOnOutcome(k, s, g.outcome);
    } else if g == TimerFires {
      BackoffTimer(k, s);
    } else if g == SendEvent {
      BackoffSend(k, s);
    } else {
      BackoffElse(k, s, g);
    }
  }

  lemma {:induction false} BackoffAlong(k: Kind, s: State, run: seq<Action>)
    requires Inv(k, s) && BackoffInv(s) && ValidRun(k, s, run)
    ensures BackoffInv(Run(k, s, run))
    decreases |run|
  {
    if run == [] {
    } else {
      InvStep(k, s, run[0]);
      if run[0].Go? {
        BackoffStep(k, s, run[0].step);
      }
      BackoffAlong(k, Apply(k, s, run[0]), run[1..]);
    }
  }

  lemma {:induction false} StreakIs(ws: seq<Wait>, j: nat, k: nat)
    requires j <= k < |ws|
    requires j == 0 || Delivered(ws, j)
    requires forall i :: j < i <= k ==> !Delivered(ws, i)
    ensures Streak(ws, k) == k - j
    decreases k
  {
    if j < k {
      StreakIs(ws, j, k - 1);
    }
  }

  /**
   In every run of either producer: if wait j is the first one, or the wait of an attempt that
   delivered an event, and no attempt from there up to wait k delivered any, then wait k lasts
   min(2^(k-j), 30) seconds.
   */
  lemma {:induction false} BackoffClosedForm(kind: Kind, run: seq<Action>, ws: seq<Wait>, j: nat, k: nat)
    requires ValidRun(kind, Init(), run) && ws == Run(kind, Init(), run).producer.waits
    requires j <= k < |ws|
    requires j == 0 || Delivered(ws, j)
    requires forall i :: j < i <= k ==> !Delivered(ws, i)
    ensures ws[k].seconds == Min(Pow2(k - j), 30)
  {
    InitBackoff(kind);
    BackoffAlong(kind, Init(), run);
    WaitIs(ws, j, k);
  }

  lemma {:induction false} InitBackoff(k: Kind)
    ensures Inv(k, Init()) && BackoffInv(Init())
  {
  }

  lemma {:induction false} WaitIs(ws: seq<Wait>, j: nat, k: nat)
    requires WaitsInv(ws) && j <= k < |ws| && (j == 0 || Delivered(ws, j))
    requires forall i :: j < i <= k ==> !Delivered(ws, i)
    ensures ws[k].seconds == Min(Pow2(k - j), 30)
  {
    StreakIs(ws, j, k);
  }
}
